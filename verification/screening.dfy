/**
 * The screening bot behind the `/ask` endpoint (app.py).
 *
 * Each sender has a session: the name of the step they are on and the answers
 * collected so far. One incoming message is handled in this order: the FAQ
 * table is consulted first (an FAQ hit answers and repeats the current
 * question without advancing); at the first step a keyword gate may swallow
 * the message; otherwise the trimmed message is recorded as the answer to the
 * current step and the session moves one step along the flow, or, after the
 * last step, the session is deleted and the completion sentinel is returned.
 *
 * The flow table and the FAQ table (pandas CSV loading) are parameters, as are
 * fuzzywuzzy's `partial_ratio` and Python's `str.format`, whose behaviour
 * belongs to those libraries.
 */
module Screening {
  import opened Common
  import opened Text
  import opened PyDict

  /** A cell of the flow table as pandas reads it: text, or NaN for an empty cell. */
  datatype Cell = Str(text: string) | Missing

  /** One row of the flow table: the step name, the gate keywords and the question. */
  datatype FlowRow = FlowRow(step: string, matchWords: Cell, ask: Cell)

  type Flow = seq<FlowRow>

  /** The step a sender without a session starts on. */
  const FIRST_STEP := "interest"

  /** The reply that tells the relay the conversation is over. */
  const COMPLETE := "__COMPLETE__"

  /** A keyword matches when `partial_ratio` exceeds this score. */
  const MATCH_THRESHOLD := 70

  /** The behaviour of the two foreign libraries the engine calls. */
  datatype Library = Library(
    partialRatio: (string, string) -> int,            // fuzz.partial_ratio
    format: (string, Dict<string>) -> Option<string>  // str.format(**answers); None when it raises
  )

  /** Everything the engine loads at start-up. */
  datatype Bot = Bot(flow: Flow, faqs: Dict<string>, lib: Library)

  datatype Session = Session(step: string, answers: Dict<string>)

  /** The contents of the state file: one session per sender. */
  type State = map<string, Session>

  /** The JSON body `/ask` answers with, and the admin message it posted to `/notify`, if any. */
  datatype Response = Response(reply: Option<string>, notice: Option<string>)

  /** Why `/ask` fails with a server error (an exception escapes the handler). */
  datatype AskError =
    | UnknownStep(step: string)       // step_order.index raises ValueError
    | QuestionNotText(step: string)   // the question cell is NaN: str + float, or float.format
    | FormatFailed(step: string)      // str.format raises (a placeholder without an answer)

  /** What one call does: its result, and the state file afterwards (unchanged on error). */
  datatype Step = Step(result: Result<Response, AskError>, state: State)

  ghost predicate StateValid(state: State) {
    forall s :: s in state ==> state[s].answers.Valid()
  }

  ghost predicate BotValid(bot: Bot) {
    bot.faqs.Valid()
  }

  function FreshSession(): (s: Session)
    ensures s.step == FIRST_STEP && s.answers.Valid() && s.answers.order == []
  {
    Session(FIRST_STEP, Empty())
  }

  /** `state.get(sender, {"step": "interest", "answers": {}})`. */
  function SessionOf(state: State, sender: string): Session {
    if sender in state then state[sender] else FreshSession()
  }

  /** `step_order`: the step names in flow order. */
  function StepOrder(flow: Flow): (r: seq<string>)
    ensures |r| == |flow|
    ensures forall i :: 0 <= i < |flow| ==> r[i] == flow[i].step
  {
    if flow == [] then [] else [flow[0].step] + StepOrder(flow[1..])
  }

  /** `step_map`: step name to row; with repeated names the LAST row wins. */
  function StepMap(flow: Flow): (m: map<string, FlowRow>)
    ensures forall k :: k in m <==> k in StepOrder(flow)
    ensures forall k :: k in m ==> m[k].step == k
  {
    if flow == [] then map[]
    else
      var init := flow[..|flow| - 1];
      var last := flow[|flow| - 1];
      assert StepOrder(flow) == StepOrder(init) + [last.step];
      StepMap(init)[last.step := last]
  }

  predicate Distinct(xs: seq<string>) {
    forall i, j :: 0 <= i < j < |xs| ==> xs[i] != xs[j]
  }

  /** With distinct step names, `step_map` finds every row under its own name. */
  lemma {:induction false} StepMapDistinct(flow: Flow, i: nat)
    requires Distinct(StepOrder(flow)) && i < |flow|
    ensures StepMap(flow)[flow[i].step] == flow[i]
  {
    var init := flow[..|flow| - 1];
    if i < |flow| - 1 {
      assert StepOrder(init) == StepOrder(flow)[..|flow| - 1];
      StepMapDistinct(init, i);
      assert flow[i].step != flow[|flow| - 1].step by {
        assert StepOrder(flow)[i] != StepOrder(flow)[|flow| - 1];
      }
    }
  }

  /** `xs.index(x)`: the first position of `x`, or None where Python raises ValueError. */
  function IndexOf(xs: seq<string>, x: string): (r: Option<nat>)
    ensures r.None? <==> x !in xs
    ensures r.Some? ==> r.value < |xs| && xs[r.value] == x
    ensures r.Some? ==> forall j :: 0 <= j < r.value ==> xs[j] != x
  {
    if xs == [] then None
    else if xs[0] == x then Some(0)
    else
      match IndexOf(xs[1..], x)
      case None => None
      case Some(i) => Some(i + 1)
  }

  /** With distinct names, the index of the name at position `i` is `i`. */
  lemma IndexOfDistinct(xs: seq<string>, i: nat)
    requires Distinct(xs) && i < |xs|
    ensures IndexOf(xs, xs[i]) == Some(i)
  {
  }

  /** Some `|`-separated keyword scores above the threshold against the lowered message. */
  function AnyKeyword(ratio: (string, string) -> int, lowered: string, keywords: seq<string>): (r: bool)
    ensures r <==> exists i :: 0 <= i < |keywords| && ratio(lowered, Lower(keywords[i])) > MATCH_THRESHOLD
  {
    if keywords == [] then false
    else if ratio(lowered, Lower(keywords[0])) > MATCH_THRESHOLD then true
    else
      var r := AnyKeyword(ratio, lowered, keywords[1..]);
      assert forall i :: 1 <= i < |keywords| ==> keywords[i] == keywords[1..][i - 1];
      r
  }

  /**
   * `fuzzy_match(message, match_str)`: an empty or non-text match string accepts
   * everything; otherwise some keyword must score above the threshold.
   */
  function FuzzyMatch(ratio: (string, string) -> int, message: string, pattern: Cell): (r: bool)
    ensures pattern == Missing || pattern == Str("") ==> r
    ensures pattern.Str? && pattern.text != "" ==>
      (r <==> exists i :: 0 <= i < |Split(pattern.text, '|')|
                && ratio(Lower(message), Lower(Split(pattern.text, '|')[i])) > MATCH_THRESHOLD)
  {
    match pattern
    case Missing => true
    case Str(m) => m == "" || AnyKeyword(ratio, Lower(message), Split(m, '|'))
  }

  /** `key.lower() in message` for an already lowered message. */
  predicate FaqHit(key: string, lowered: string) {
    Contains(lowered, Lower(key))
  }

  /** The position of the first FAQ key (in iteration order) that occurs in the lowered message. */
  function FirstFaq(keys: seq<string>, lowered: string): (r: Option<nat>)
    ensures r.Some? ==> r.value < |keys| && FaqHit(keys[r.value], lowered)
    ensures r.Some? ==> forall j :: 0 <= j < r.value ==> !FaqHit(keys[j], lowered)
    ensures r.None? ==> forall j :: 0 <= j < |keys| ==> !FaqHit(keys[j], lowered)
  {
    if keys == [] then None
    else if FaqHit(keys[0], lowered) then Some(0)
    else
      match FirstFaq(keys[1..], lowered)
      case None => None
      case Some(i) => Some(i + 1)
  }

  /** What `detect_faq(message)` returns: the first matching key, or None. */
  function DetectedFaq(faqs: Dict<string>, message: string): Option<string> {
    match FirstFaq(faqs.order, Lower(message))
    case None => None
    case Some(i) => Some(faqs.order[i])
  }

  /** `detect_faq`: a loop over the FAQ keys with an early return. */
  method DetectFaq(faqs: Dict<string>, message: string) returns (key: Option<string>)
    ensures key == DetectedFaq(faqs, message)
  {
    var lowered := Lower(message);
    var keys := faqs.order;
    var i := 0;
    while i < |keys|
      invariant 0 <= i <= |keys|
      invariant forall j :: 0 <= j < i ==> !FaqHit(keys[j], lowered)
    {
      if Contains(lowered, Lower(keys[i])) {
        return Some(keys[i]);
      }
      i := i + 1;
    }
    return None;
  }

  /** `if faq_key:` — an empty key is falsy, so it never produces an FAQ reply. */
  function FaqReplyKey(faqs: Dict<string>, message: string): Option<string> {
    var k := DetectedFaq(faqs, message);
    if k.Some? && k.value != "" then k else None
  }

  /** The summary posted to `/notify` when a sender finishes: one `key: value` line per answer. */
  function AdminSummary(sender: string, answers: Dict<string>): string
    requires answers.Valid()
  {
    "\U{2705} Info collected from " + sender + ":\n" + Join(SummaryLines(answers.Items()), "\n")
  }

  /** One `key: value` line per answer, in the dictionary's order. */
  function SummaryLines(items: seq<(string, string)>): (r: seq<string>)
    ensures |r| == |items|
    ensures forall i :: 0 <= i < |items| ==> r[i] == items[i].0 + ": " + items[i].1
  {
    if items == [] then [] else [items[0].0 + ": " + items[0].1] + SummaryLines(items[1..])
  }

  /** The question of the step at index `i` of the flow, after the dictionary lookup by name. */
  function QuestionAt(flow: Flow, i: nat): Cell
    requires i < |flow|
  {
    StepMap(flow)[StepOrder(flow)[i]].ask
  }

  /** What one call decides for the sender's session, before the state file is touched. */
  datatype Decision =
    | Fail(error: AskError)                    // an exception escapes: nothing is saved
    | Reply(reply: Option<string>)             // an FAQ answer or the gate's null: nothing is saved
    | Advance(question: string, next: Session) // `state[sender] = user`
    | Finish(notice: string)                   // `state.pop(sender)`, reply "__COMPLETE__"

  /**
   * The body of `ask()` for a sender whose session is `user`: the step lookup,
   * then the FAQ check and the gate (`Answer`), then recording and advancing
   * (`Record`).
   */
  function Decide(bot: Bot, user: Session, message: string, sender: string): (d: Decision)
    requires BotValid(bot) && user.answers.Valid()
    ensures d.Fail? && d.error.UnknownStep? <==> user.step !in StepOrder(bot.flow)
    ensures d.Advance? ==> d.next.answers.Valid()
    ensures d.Advance? || d.Finish? ==> IndexOf(StepOrder(bot.flow), user.step).Some?
    ensures d.Advance? ==> var i := IndexOf(StepOrder(bot.flow), user.step).value;
      i + 1 < |bot.flow| && d.next.step == StepOrder(bot.flow)[i + 1]
    ensures d.Finish? ==> IndexOf(StepOrder(bot.flow), user.step).value + 1 == |bot.flow|
  {
    match IndexOf(StepOrder(bot.flow), user.step)
    case None => Fail(UnknownStep(user.step))
    case Some(i) => Answer(bot, user, message, sender, i)
  }

  /** The current step is at index `i`: an FAQ hit first, then the gate at index 0. */
  function Answer(bot: Bot, user: Session, message: string, sender: string, i: nat): (d: Decision)
    requires BotValid(bot) && user.answers.Valid()
    requires IndexOf(StepOrder(bot.flow), user.step) == Some(i)
    ensures d.Advance? ==> d.next.answers.Valid() && i + 1 < |bot.flow| && d.next.step == StepOrder(bot.flow)[i + 1]
    ensures d.Finish? ==> i + 1 == |bot.flow|
    ensures d.Fail? ==> !d.error.UnknownStep?
  {
    var row := StepMap(bot.flow)[user.step];
    var faq := FaqReplyKey(bot.faqs, message);
    if faq.Some? then
      match row.ask
      case Missing => Fail(QuestionNotText(user.step))
      case Str(q) => Reply(Some(bot.faqs.values[faq.value] + "\n\n" + q))
    else if i == 0 && !FuzzyMatch(bot.lib.partialRatio, message, row.matchWords) then
      Reply(None)
    else
      Record(bot, user, message, sender, i)
  }

  /** The message is accepted as the answer to the step at index `i`. */
  function Record(bot: Bot, user: Session, message: string, sender: string, i: nat): (d: Decision)
    requires BotValid(bot) && user.answers.Valid() && i < |bot.flow|
    ensures d.Advance? ==> d.next.answers.Valid() && i + 1 < |bot.flow| && d.next.step == StepOrder(bot.flow)[i + 1]
    ensures d.Finish? ==> i + 1 == |bot.flow|
    ensures d.Fail? ==> !d.error.UnknownStep?
    ensures !d.Reply?
  {
    var order := StepOrder(bot.flow);
    var answers := user.answers.Put(user.step, message);
    if i + 1 < |order| then
      match QuestionAt(bot.flow, i + 1)
      case Missing => Fail(QuestionNotText(order[i + 1]))
      case Str(q) =>
        match bot.lib.format(q, answers)
        case None => Fail(FormatFailed(order[i + 1]))
        case Some(text) => Advance(text, Session(order[i + 1], answers))
    else
      Finish(AdminSummary(sender, answers))
  }

  /** Writes a decision to the state file and forms the JSON reply. */
  function Apply(state: State, sender: string, d: Decision): (s: Step)
    ensures s.result.Failure? ==> s.state == state
    ensures forall other :: other != sender ==>
      (other in s.state <==> other in state) && (other in state ==> s.state[other] == state[other])
  {
    match d
    case Fail(e) => Step(Failure(e), state)
    case Reply(r) => Step(Success(Response(r, None)), state)
    case Advance(q, next) => Step(Success(Response(Some(q), None)), state[sender := next])
    case Finish(n) => Step(Success(Response(Some(COMPLETE), Some(n))), state - {sender})
  }

  /**
   * One call of `/ask`: the reply and the state file afterwards. A failed
   * call saves nothing, and no call touches another sender's entry.
   */
  function Transition(bot: Bot, state: State, sender: string, raw: string): (s: Step)
    requires BotValid(bot) && StateValid(state)
    ensures StateValid(s.state)
    ensures s.result.Failure? ==> s.state == state
    ensures forall other :: other != sender ==>
      (other in s.state <==> other in state) && (other in state ==> s.state[other] == state[other])
  {
    Apply(state, sender, Decide(bot, SessionOf(state, sender), Trim(raw), sender))
  }

  /** The state file of a running engine, updated in place by each `/ask` call. */
  class Engine {
    const bot: Bot
    var sessions: State

    ghost predicate Valid()
      reads this
    {
      BotValid(bot) && StateValid(sessions)
    }

    /** The state file starts as `{}`. */
    constructor (bot: Bot)
      requires BotValid(bot)
      ensures Valid() && this.bot == bot && sessions == map[]
    {
      this.bot := bot;
      sessions := map[];
    }

    /** `ask()`: handle one message from `sender`. */
    method Ask(sender: string, raw: string) returns (result: Result<Response, AskError>)
      requires Valid()
      modifies this
      ensures Valid()
      ensures Step(result, sessions) == Transition(bot, old(sessions), sender, raw)
    {
      var message := Trim(raw);
      var user := SessionOf(sessions, sender);
      var d := Choose(user, message, sender);
      assert Transition(bot, sessions, sender, raw) == Apply(sessions, sender, d);
      match d
      case Fail(e) =>
        result := Failure(e);
      case Reply(r) =>
        result := Success(Response(r, None));
      case Advance(q, next) =>
        sessions := sessions[sender := next];
        result := Success(Response(Some(q), None));
      case Finish(notice) =>
        sessions := sessions - {sender};
        result := Success(Response(Some(COMPLETE), Some(notice)));
    }

    /** The lookups, the FAQ check, the gate and the advance of `ask()`, up to the state write. */
    method Choose(user: Session, message: string, sender: string) returns (d: Decision)
      requires BotValid(bot) && user.answers.Valid()
      ensures d == Decide(bot, user, message, sender)
    {
      var order := StepOrder(bot.flow);
      var index := IndexOf(order, user.step);
      if index.None? {
        return Fail(UnknownStep(user.step));
      }
      var i := index.value;
      var row := StepMap(bot.flow)[user.step];

      var faqKey := DetectFaq(bot.faqs, message);
      if faqKey.Some? && faqKey.value != "" {
        assert FaqReplyKey(bot.faqs, message) == faqKey;
        if row.ask.Missing? {
          return Fail(QuestionNotText(user.step));
        }
        return Reply(Some(bot.faqs.values[faqKey.value] + "\n\n" + row.ask.text));
      }

      assert FaqReplyKey(bot.faqs, message).None?;
      if i == 0 && !FuzzyMatch(bot.lib.partialRatio, message, row.matchWords) {
        return Reply(None);
      }

      var answers := user.answers.Put(user.step, message);
      if i + 1 < |order| {
        var next := order[i + 1];
        var question := StepMap(bot.flow)[next].ask;
        assert question == QuestionAt(bot.flow, i + 1);
        if question.Missing? {
          return Fail(QuestionNotText(next));
        }
        var filled := bot.lib.format(question.text, answers);
        if filled.None? {
          return Fail(FormatFailed(next));
        }
        d := Advance(filled.value, Session(next, answers));
      } else {
        d := Finish(AdminSummary(sender, answers));
      }
    }
  }
}
