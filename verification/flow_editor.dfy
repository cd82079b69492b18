/**
 * The conversation-flow editor of the dashboard (ConversationFlow.tsx).
 * Every handler builds a fresh step list and hands it to the component's
 * state, so each one is a function from the old editor state to the new one.
 */
module FlowEditor {
  import opened Common
  import opened Text

  /** One row of the editor: step name, `|`-separated keywords, question and the optional edit flag. */
  datatype FlowStep = FlowStep(step: string, matchWords: string, ask: string, editing: Option<bool>)

  /** The three text fields an input box can change. */
  datatype Field = StepName | Match | Ask

  /** The component's state: the flow, the draft of a new step and whether the draft form is open. */
  datatype Editor = Editor(flow: seq<FlowStep>, draft: FlowStep, addingNew: bool)

  const CSV_HEADER := "step,match,ask"

  /** The keyword list of the opening step of the default flow. */
  const INTEREST_MATCH := "yes|ya|sure|interested|haan|haanji|ok|haa|S"

  function Row(step: string, matchWords: string, ask: string): FlowStep {
    FlowStep(step, matchWords, ask, None)
  }

  /** The flow the editor starts with. */
  function DefaultFlow(): seq<FlowStep> {
    [ Row("interest", INTEREST_MATCH, ""),
      Row("company", "", "Currently in which company are you working?"),
      Row("notice", "", "Ok and your notice period?"),
      Row("ctc", "", "Ok, What's your current CTC?"),
      Row("product", "", "Ok, Which product are you currently handling?"),
      Row("experience", "", "How many years of experience in this product?"),
      Row("cv", "", "Kindly forward me your CV.") ]
  }

  /** The step names of a flow, in order. */
  function Names(flow: seq<FlowStep>): (r: seq<string>)
    ensures |r| == |flow|
    ensures forall i :: 0 <= i < |flow| ==> r[i] == flow[i].step
  {
    if flow == [] then [] else [flow[0].step] + Names(flow[1..])
  }

  /** The empty draft, also the state of the form after a step was added. */
  function EmptyDraft(): FlowStep {
    Row("", "", "")
  }

  /** The editor as the component mounts it. */
  function Initial(): Editor {
    Editor(DefaultFlow(), EmptyDraft(), false)
  }

  /** The default flow has seven distinct steps from `interest` to `cv`, and only the first has keywords. */
  lemma DefaultFlowShape()
    ensures var flow := DefaultFlow();
            && Names(flow) == ["interest", "company", "notice", "ctc", "product", "experience", "cv"]
            && (forall i :: 0 <= i < |flow| ==> (flow[i].matchWords != "" <==> i == 0))
            && (forall i, j :: 0 <= i < j < |flow| ==> flow[i].step != flow[j].step)
  {
    DefaultNames();
    DefaultNamesDistinct(Names(DefaultFlow()));
  }

  lemma DefaultNames()
    ensures Names(DefaultFlow()) == ["interest", "company", "notice", "ctc", "product", "experience", "cv"]
  {
  }

  lemma DefaultNamesDistinct(names: seq<string>)
    requires names == ["interest", "company", "notice", "ctc", "product", "experience", "cv"]
    ensures forall i, j :: 0 <= i < j < |names| ==> names[i] != names[j]
  {
  }

  /**
   * `handleEdit` (editing = true) and `handleSave` (editing = false): the
   * flag is set on the row at `index` and nothing else changes.
   */
  function SetEditing(flow: seq<FlowStep>, index: nat, editing: bool): (r: seq<FlowStep>)
    requires index < |flow|
    ensures |r| == |flow|
    ensures r[index].editing == Some(editing)
    ensures r[index].(editing := None) == flow[index].(editing := None)
    ensures forall i :: 0 <= i < |flow| && i != index ==> r[i] == flow[i]
  {
    flow[index := flow[index].(editing := Some(editing))]
  }

  /** The field an input box shows. */
  function Get(s: FlowStep, field: Field): string {
    match field
    case StepName => s.step
    case Match => s.matchWords
    case Ask => s.ask
  }

  /** `handleChange`: only the named field of the row at `index` takes the new value. */
  function Change(flow: seq<FlowStep>, index: nat, field: Field, value: string): (r: seq<FlowStep>)
    requires index < |flow|
    ensures |r| == |flow|
    ensures Get(r[index], field) == value
    ensures forall f :: f != field ==> Get(r[index], f) == Get(flow[index], f)
    ensures r[index].editing == flow[index].editing
    ensures forall i :: 0 <= i < |flow| && i != index ==> r[i] == flow[i]
  {
    var s := flow[index];
    var s' := match field
      case StepName => s.(step := value)
      case Match => s.(matchWords := value)
      case Ask => s.(ask := value);
    flow[index := s']
  }

  /** `handleDelete`: keeps every row whose position is not `index` (a filter over positions). */
  function Delete(flow: seq<FlowStep>, index: int): seq<FlowStep> {
    if flow == [] then []
    else (if index == 0 then [] else [flow[0]]) + Delete(flow[1..], index - 1)
  }

  /** Deleting removes exactly the row at `index`: the rows before and after it stay, in order. */
  lemma {:induction false} DeleteRemovesOne(flow: seq<FlowStep>, index: nat)
    requires index < |flow|
    ensures Delete(flow, index) == flow[..index] + flow[index + 1..]
    ensures |Delete(flow, index)| == |flow| - 1
  {
    if index == 0 {
      DeleteNone(flow[1..], -1);
    } else {
      DeleteRemovesOne(flow[1..], index - 1);
      assert flow[..index] == [flow[0]] + flow[1..][..index - 1];
      assert flow[index + 1..] == flow[1..][index..];
    }
  }

  /** A position before the start of the list matches no row. */
  lemma {:induction false} DeleteNone(flow: seq<FlowStep>, index: int)
    requires index < 0
    ensures Delete(flow, index) == flow
  {
    if flow != [] {
      DeleteNone(flow[1..], index - 1);
    }
  }

  /** `handleAddNew`: a draft whose name or question is blank is refused; otherwise it is appended and the form is reset. */
  function AddNew(e: Editor): (r: Editor)
    ensures Blank(e.draft.step) || Blank(e.draft.ask) ==> r == e
    ensures !Blank(e.draft.step) && !Blank(e.draft.ask) ==>
      r.flow == e.flow + [e.draft] && r.draft == EmptyDraft() && !r.addingNew
  {
    if Trim(e.draft.step) == "" || Trim(e.draft.ask) == "" then e
    else Editor(e.flow + [e.draft], EmptyDraft(), false)
  }

  /** An accepted step is the last row and its name is not blank, so a second add of the reset draft is refused. */
  lemma AddNewThenAgain(e: Editor)
    requires !Blank(e.draft.step) && !Blank(e.draft.ask)
    ensures |AddNew(e).flow| == |e.flow| + 1
    ensures AddNew(AddNew(e)) == AddNew(e)
  {
    assert Blank(AddNew(e).draft.step);
  }

  /** One CSV line: the name bare, keywords and question between double quotes, nothing escaped. */
  function CsvRow(s: FlowStep): string {
    s.step + ",\"" + s.matchWords + "\",\"" + s.ask + "\""
  }

  /** The CSV lines of the rows, in order. */
  function CsvRows(flow: seq<FlowStep>): (r: seq<string>)
    ensures |r| == |flow|
    ensures forall i :: 0 <= i < |flow| ==> r[i] == CsvRow(flow[i])
  {
    if flow == [] then [] else [CsvRow(flow[0])] + CsvRows(flow[1..])
  }

  /** `exportFlow`: the header line, then the rows joined by newlines. */
  function ExportCsv(flow: seq<FlowStep>): string {
    CSV_HEADER + "\n" + Join(CsvRows(flow), "\n")
  }

  /** No field of any row holds a line break. */
  predicate SingleLine(flow: seq<FlowStep>) {
    forall i :: 0 <= i < |flow| ==> '\n' !in CsvRow(flow[i])
  }

  /**
   * Reading the export back line by line gives the header and then one line
   * per row, in order, so a non-empty flow gives |flow| + 1 lines; an empty
   * flow gives the header and a trailing empty line.
   */
  lemma ExportLines(flow: seq<FlowStep>)
    requires SingleLine(flow)
    ensures Split(ExportCsv(flow), '\n') == [CSV_HEADER] + (if flow == [] then [""] else CsvRows(flow))
    ensures flow != [] ==> |Split(ExportCsv(flow), '\n')| == |flow| + 1
  {
    HeaderThenLines(CSV_HEADER, CsvRows(flow));
  }

  /** A header line followed by lines joined with newlines splits back into the header and those lines. */
  lemma HeaderThenLines(header: string, rows: seq<string>)
    requires '\n' !in header
    requires forall i :: 0 <= i < |rows| ==> '\n' !in rows[i]
    ensures Split(header + "\n" + Join(rows, "\n"), '\n') == [header] + (if rows == [] then [""] else rows)
    ensures |Split(header + "\n" + Join(rows, "\n"), '\n')| == if rows == [] then 2 else |rows| + 1
  {
    SplitConcat(header, Join(rows, "\n"), '\n');
    SplitNoSeparator(header, '\n');
    if rows == [] {
      SplitNoSeparator("", '\n');
    } else {
      SplitJoin(rows, '\n');
    }
  }

  /** Opening or closing a row for editing does not change the exported text. */
  lemma SetEditingKeepsExport(flow: seq<FlowStep>, index: nat, editing: bool)
    requires index < |flow|
    ensures ExportCsv(SetEditing(flow, index, editing)) == ExportCsv(flow)
  {
    assert CsvRows(SetEditing(flow, index, editing)) == CsvRows(flow);
  }

  /** Deleting a row removes exactly its line from the export. */
  lemma DeleteRemovesLine(flow: seq<FlowStep>, index: nat)
    requires index < |flow|
    ensures CsvRows(Delete(flow, index)) == CsvRows(flow)[..index] + CsvRows(flow)[index + 1..]
  {
    DeleteRemovesOne(flow, index);
  }
}
