/**
 * The conversation-log page of the dashboard (BotLogsPage.tsx): tabs of
 * active and completed conversations, blocking a user, exporting one
 * conversation as text, and selecting the first conversation by default.
 */
module BotLogs {
  import opened Common
  import opened Text

  datatype LogMessage = LogMessage(role: string, message: string, timestamp: string)

  datatype Conversation = Conversation(
    id: string, phoneNumber: string, lastMessage: string, timestamp: string,
    status: string, flow: seq<LogMessage>)

  /** The page state: the conversations and the selected id (`null` is `None`). */
  datatype Page = Page(conversations: seq<Conversation>, selected: Option<string>)

  /** A downloaded file: its name and its text. */
  datatype Download = Download(fileName: string, text: string)

  const ACTIVE := "active"
  const COMPLETED := "completed"
  const BLOCKED := "blocked"

  predicate IsActive(c: Conversation) {
    c.status == ACTIVE
  }

  predicate IsCompleted(c: Conversation) {
    c.status == COMPLETED
  }

  /** The "Active" tab: exactly the active conversations, in page order. */
  function ActiveConversations(cs: seq<Conversation>): (r: seq<Conversation>)
    ensures forall c :: c in r <==> c in cs && c.status == ACTIVE
  {
    Filter(cs, IsActive)
  }

  /** The "Completed" tab: exactly the completed conversations, in page order. */
  function CompletedConversations(cs: seq<Conversation>): (r: seq<Conversation>)
    ensures forall c :: c in r <==> c in cs && c.status == COMPLETED
  {
    Filter(cs, IsCompleted)
  }

  /** `conversations.find(c => c.id === selected)`: the first conversation with that id. */
  function Find(cs: seq<Conversation>, id: string): (r: Option<Conversation>)
    ensures r.None? <==> forall i :: 0 <= i < |cs| ==> cs[i].id != id
    ensures r.Some? ==> exists i :: 0 <= i < |cs| && cs[i] == r.value && cs[i].id == id
                                  && forall j :: 0 <= j < i ==> cs[j].id != id
  {
    if cs == [] then None
    else if cs[0].id == id then Some(cs[0])
    else
      var r := Find(cs[1..], id);
      assert r.Some? ==> var i :| 0 <= i < |cs| - 1 && cs[1..][i] == r.value && cs[1..][i].id == id
                                  && forall j :: 0 <= j < i ==> cs[1..][j].id != id;
                         cs[i + 1] == r.value && forall j :: 0 <= j < i + 1 ==> cs[j].id != id;
      r
  }

  /** The conversation on show, if the selection names one. */
  function Current(p: Page): Option<Conversation> {
    match p.selected
    case None => None
    case Some(id) => Find(p.conversations, id)
  }

  /** The conversations with every one of the given id marked blocked. */
  function Block(cs: seq<Conversation>, id: string): (r: seq<Conversation>)
    ensures |r| == |cs|
    ensures forall i :: 0 <= i < |cs| ==>
      r[i] == if cs[i].id == id then cs[i].(status := BLOCKED) else cs[i]
  {
    if cs == [] then []
    else [if cs[0].id == id then cs[0].(status := BLOCKED) else cs[0]] + Block(cs[1..], id)
  }

  /** `handleBlockUser`: mark the id blocked, and drop the selection if it was that conversation. */
  function BlockUser(p: Page, id: string): (r: Page)
    ensures r.conversations == Block(p.conversations, id)
    ensures r.selected == if p.selected == Some(id) then None else p.selected
  {
    Page(Block(p.conversations, id), if p.selected == Some(id) then None else p.selected)
  }

  /** The conversations that do not have the given id, in order. */
  function Without(cs: seq<Conversation>, id: string): (r: seq<Conversation>)
    ensures forall c :: c in r <==> c in cs && c.id != id
  {
    if cs == [] then []
    else (if cs[0].id == id then [] else [cs[0]]) + Without(cs[1..], id)
  }

  /** Blocking takes the conversation off the active tab and leaves the rest of the tab in order. */
  lemma {:induction false} BlockLeavesActive(cs: seq<Conversation>, id: string)
    ensures ActiveConversations(Block(cs, id)) == Without(ActiveConversations(cs), id)
  {
    if cs != [] {
      BlockLeavesActive(cs[1..], id);
      var b := Block(cs, id);
      assert b[1..] == Block(cs[1..], id);
      var head := if IsActive(cs[0]) then [cs[0]] else [];
      assert Filter(cs, IsActive) == head + Filter(cs[1..], IsActive);
      WithoutConcat(head, Filter(cs[1..], IsActive), id);
      assert Filter(b, IsActive) == Without(head, id) + Filter(b[1..], IsActive);
    }
  }

  /** Blocking takes the conversation off the completed tab and leaves the rest of the tab in order. */
  lemma {:induction false} BlockLeavesCompleted(cs: seq<Conversation>, id: string)
    ensures CompletedConversations(Block(cs, id)) == Without(CompletedConversations(cs), id)
  {
    if cs != [] {
      BlockLeavesCompleted(cs[1..], id);
      var b := Block(cs, id);
      assert b[1..] == Block(cs[1..], id);
      var head := if IsCompleted(cs[0]) then [cs[0]] else [];
      assert Filter(cs, IsCompleted) == head + Filter(cs[1..], IsCompleted);
      WithoutConcat(head, Filter(cs[1..], IsCompleted), id);
      assert Filter(b, IsCompleted) == Without(head, id) + Filter(b[1..], IsCompleted);
    }
  }

  lemma {:induction false} WithoutConcat(xs: seq<Conversation>, ys: seq<Conversation>, id: string)
    ensures Without(xs + ys, id) == Without(xs, id) + Without(ys, id)
  {
    if xs == [] {
      assert xs + ys == ys;
    } else {
      assert (xs + ys)[1..] == xs[1..] + ys;
      WithoutConcat(xs[1..], ys, id);
    }
  }

  /** A blocked conversation is on neither tab. */
  lemma BlockedOnNoTab(cs: seq<Conversation>, id: string, c: Conversation)
    requires c in Block(cs, id) && c.id == id
    ensures c !in ActiveConversations(Block(cs, id)) && c !in CompletedConversations(Block(cs, id))
  {
  }

  /** One exported line: `[timestamp] ROLE: message`. */
  function LogLine(m: LogMessage): string {
    "[" + m.timestamp + "] " + Upper(m.role) + ": " + m.message
  }

  function LogLines(flow: seq<LogMessage>): (r: seq<string>)
    ensures |r| == |flow|
    ensures forall i :: 0 <= i < |flow| ==> r[i] == LogLine(flow[i])
  {
    if flow == [] then [] else [LogLine(flow[0])] + LogLines(flow[1..])
  }

  /** `handleExport`: nothing without a conversation on show; otherwise its lines joined by newlines, saved as `conversation_<phone>.txt`. */
  function Export(p: Page): (r: Option<Download>)
    ensures r.None? <==> Current(p).None?
    ensures r.Some? ==> r.value.fileName == "conversation_" + Current(p).value.phoneNumber + ".txt"
  {
    match Current(p)
    case None => None
    case Some(c) => Some(Download("conversation_" + c.phoneNumber + ".txt", Join(LogLines(c.flow), "\n")))
  }

  /** No field of the message holds a line break. */
  predicate OneLine(m: LogMessage) {
    '\n' !in m.role && '\n' !in m.message && '\n' !in m.timestamp
  }

  /** Upper-casing adds no line break. */
  lemma UpperNoNewline(s: string)
    requires '\n' !in s
    ensures '\n' !in Upper(s)
  {
    forall i | 0 <= i < |s|
      ensures Upper(s)[i] != '\n'
    {
      assert s[i] != '\n';
    }
  }

  /** Read back line by line, an export has one line per message, in the order of the conversation, with the role upper-cased. */
  lemma ExportLines(p: Page)
    requires Current(p).Some? && Current(p).value.flow != []
    requires forall i :: 0 <= i < |Current(p).value.flow| ==> OneLine(Current(p).value.flow[i])
    ensures var f := Current(p).value.flow;
            && |Split(Export(p).value.text, '\n')| == |f|
            && forall i :: 0 <= i < |f| ==>
                 Split(Export(p).value.text, '\n')[i] == "[" + f[i].timestamp + "] " + Upper(f[i].role) + ": " + f[i].message
  {
    var lines := LogLines(Current(p).value.flow);
    forall i | 0 <= i < |lines|
      ensures '\n' !in lines[i]
    {
      var m := Current(p).value.flow[i];
      UpperNoNewline(m.role);
      assert lines[i] == "[" + m.timestamp + "] " + Upper(m.role) + ": " + m.message;
    }
    SplitJoin(lines, '\n');
  }

  /** The selection is unset when it is `null` or the empty id (both are falsy). */
  predicate Unselected(p: Page) {
    p.selected == None || p.selected == Some("")
  }

  /** The effect that selects the first conversation when the list is non-empty and nothing is selected. */
  function AutoSelect(p: Page): (r: Page)
    ensures r.conversations == p.conversations
    ensures p.conversations != [] && Unselected(p) ==> r.selected == Some(p.conversations[0].id)
    ensures p.conversations == [] || !Unselected(p) ==> r == p
  {
    if |p.conversations| > 0 && Unselected(p) then p.(selected := Some(p.conversations[0].id)) else p
  }

  /** After the effect the first conversation is on show, unless its id is itself empty; a second run changes nothing. */
  lemma AutoSelectShowsFirst(p: Page)
    requires p.conversations != [] && Unselected(p)
    ensures AutoSelect(AutoSelect(p)) == AutoSelect(p)
    ensures p.conversations[0].id != "" ==> Current(AutoSelect(p)) == Some(p.conversations[0])
  {
  }

  /** Blocking the conversation on show empties the selection, so the effect then selects the first conversation again, blocked or not. */
  lemma BlockSelectedReselectsFirst(p: Page, id: string)
    requires p.selected == Some(id) && p.conversations != []
    ensures BlockUser(p, id).selected == None
    ensures AutoSelect(BlockUser(p, id)).selected == Some(p.conversations[0].id)
  {
  }
}
