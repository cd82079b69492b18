/**
 * The Node relay between WhatsApp and the screening bot (server.js).
 *
 * When the WhatsApp client becomes ready it runs an outreach campaign: every
 * start message goes to every number, number by number. Every incoming
 * message is forwarded to `/ask`; the bot's answer is then relayed to the
 * user, turned into an admin notice when the conversation is complete, or
 * into an admin alert when the bot failed. The WhatsApp client, the HTTP
 * calls and the file system are modelled by their outcomes, passed in as
 * parameters.
 */
module Relay {
  import opened Common
  import opened Text
  import Screening

  /** The admin's WhatsApp chat id. */
  const ADMIN_NUMBER := "916200083509@c.us"

  /** The suffix of a personal WhatsApp chat id. */
  const CHAT_SUFFIX := "@c.us"

  /** A number without the suffix gets it appended; one that already contains it is kept. */
  function ChatId(number: string): (r: string)
    ensures Contains(r, CHAT_SUFFIX)
    ensures number <= r
    ensures r == number <==> Contains(number, CHAT_SUFFIX)
  {
    if Contains(number, CHAT_SUFFIX) then number
    else
      ContainsSuffix(number, CHAT_SUFFIX);
      number + CHAT_SUFFIX
  }

  /** Normalising a chat id twice is the same as normalising it once. */
  lemma ChatIdIdempotent(number: string)
    ensures ChatId(ChatId(number)) == ChatId(number)
  {
  }

  function NonEmpty(line: string): bool {
    |line| > 0
  }

  /** `content.split('\n').map(l => l.trim()).filter(l => l.length > 0)`. */
  function ParseLines(content: string): (r: seq<string>)
    ensures forall i :: 0 <= i < |r| ==> r[i] != [] && Tight(r[i]) && '\n' !in r[i]
  {
    var lines := Filter(Map(Split(content, '\n'), Trim), NonEmpty);
    assert forall i :: 0 <= i < |lines| ==> '\n' !in lines[i] by {
      forall i | 0 <= i < |lines|
        ensures '\n' !in lines[i]
      {
        var pieces := Split(content, '\n');
        assert lines[i] in Map(pieces, Trim);
        var k :| 0 <= k < |pieces| && lines[i] == Trim(pieces[k]);
        TrimInside(pieces[k], '\n');
      }
    }
    lines
  }

  /** Trimming never introduces a character. */
  lemma TrimInside(s: string, c: char)
    requires c !in s
    ensures c !in Trim(s)
  {
    var r := Trim(s);
    var i :| OccursAt(s, r, i);
    forall j | 0 <= j < |r|
      ensures r[j] != c
    {
      assert r[j] == s[i..i + |r|][j] == s[i + j];
    }
  }

  /**
   * Parsing the file made of some lines, one per line, gives those lines back
   * in order, when each is non-empty, untrimmable and free of newlines.
   */
  lemma {:induction false} ParseLinesJoin(lines: seq<string>)
    requires forall i :: 0 <= i < |lines| ==> lines[i] != [] && Tight(lines[i]) && '\n' !in lines[i]
    ensures ParseLines(Join(lines, "\n")) == lines
  {
    if lines == [] {
      assert Split("", '\n') == [""];
      assert Map([""], Trim) == [""];
    } else {
      SplitJoin(lines, '\n');
      forall i | 0 <= i < |lines|
        ensures Trim(lines[i]) == lines[i]
      {
        TrimTight(lines[i]);
      }
      assert Map(lines, Trim) == lines;
      FilterAll(lines, NonEmpty);
    }
  }

  /** Two blocks of text separated by a newline parse to the lines of the first followed by those of the second. */
  lemma ParseLinesConcat(a: string, b: string)
    ensures ParseLines(a + "\n" + b) == ParseLines(a) + ParseLines(b)
  {
    SplitConcat(a, b, '\n');
    var pa := Split(a, '\n');
    var pb := Split(b, '\n');
    MapConcat(pa, pb, Trim);
    FilterConcat(Map(pa, Trim), Map(pb, Trim), NonEmpty);
  }

  /** What `fs.existsSync` and `fs.readFileSync` give for one text file. */
  datatype TextFile = Absent | Present(content: string) | Unreadable

  /** The start messages sent when `start_messages.txt` does not exist. */
  const DEFAULT_START_MESSAGES: seq<string> := [
    "Hi Pratyush here, I got your number from Naukri.com.",
    "I messaged you regarding a job opening in Shubham Housing Finance for the profile of Relationship Manager / Sales Manager in Home Loan, LAP and Mortgage.",
    "Are you interested in Kota Location?"
  ]

  /** The start messages: the file's lines, the defaults when it is missing, None when reading throws. */
  function StartMessages(file: TextFile): (r: Option<seq<string>>)
    ensures file.Absent? ==> r == Some(DEFAULT_START_MESSAGES)
    ensures file.Present? ==> r == Some(ParseLines(file.content))
    ensures r.None? <==> file.Unreadable?
  {
    match file
    case Absent => Some(DEFAULT_START_MESSAGES)
    case Present(content) => Some(ParseLines(content))
    case Unreadable => None
  }

  /** A message handed to the WhatsApp client. */
  datatype Outgoing =
    | SendMessage(chatId: string, text: string)  // client.sendMessage(chatId, text)
    | ReplyTo(sender: string, text: string)      // msg.reply(text)

  /** The start messages for one number, in order. */
  function NumberSends(number: string, messages: seq<string>): (r: seq<Outgoing>)
    ensures |r| == |messages|
    ensures forall j :: 0 <= j < |messages| ==> r[j] == SendMessage(ChatId(number), messages[j])
  {
    if messages == [] then []
    else [SendMessage(ChatId(number), messages[0])] + NumberSends(number, messages[1..])
  }

  /** The campaign: for each number in order, each start message in order. */
  function CampaignPlan(numbers: seq<string>, messages: seq<string>): seq<Outgoing> {
    if numbers == [] then []
    else NumberSends(numbers[0], messages) + CampaignPlan(numbers[1..], messages)
  }

  /** N numbers and M start messages make N * M sends. */
  lemma {:induction false} CampaignPlanLength(numbers: seq<string>, messages: seq<string>)
    ensures |CampaignPlan(numbers, messages)| == |numbers| * |messages|
  {
    if numbers != [] {
      CampaignPlanLength(numbers[1..], messages);
      assert (|numbers| - 1) * |messages| + |messages| == |numbers| * |messages|;
    }
  }

  /** The campaign for two lists of numbers one after the other is the two campaigns one after the other. */
  lemma {:induction false} CampaignPlanConcat(a: seq<string>, b: seq<string>, messages: seq<string>)
    ensures CampaignPlan(a + b, messages) == CampaignPlan(a, messages) + CampaignPlan(b, messages)
  {
    if a == [] {
      assert a + b == b;
    } else {
      assert (a + b)[1..] == a[1..] + b;
      CampaignPlanConcat(a[1..], b, messages);
    }
  }

  /** Send number `i * M + j` of the campaign is message `j` to number `i` (number-major order). */
  lemma CampaignPlanAt(numbers: seq<string>, messages: seq<string>, i: nat, j: nat)
    requires i < |numbers| && j < |messages|
    ensures i * |messages| + j < |CampaignPlan(numbers, messages)|
    ensures CampaignPlan(numbers, messages)[i * |messages| + j] == SendMessage(ChatId(numbers[i]), messages[j])
  {
    var before := CampaignPlan(numbers[..i], messages);
    var row := NumberSends(numbers[i], messages);
    var after := CampaignPlan(numbers[i + 1..], messages);
    CampaignPlanAround(numbers, messages, i);
    CampaignPlanLength(numbers[..i], messages);
    IndexIntoMiddle(before, row, after, j);
  }

  /** The campaign is the campaign before number `i`, number `i`'s sends, and the campaign after it. */
  lemma CampaignPlanAround(numbers: seq<string>, messages: seq<string>, i: nat)
    requires i < |numbers|
    ensures CampaignPlan(numbers, messages)
         == CampaignPlan(numbers[..i], messages) + NumberSends(numbers[i], messages) + CampaignPlan(numbers[i + 1..], messages)
  {
    assert numbers == numbers[..i] + numbers[i..];
    CampaignPlanConcat(numbers[..i], numbers[i..], messages);
    CampaignFrom(numbers, messages, i);
  }

  lemma IndexIntoMiddle(a: seq<Outgoing>, b: seq<Outgoing>, c: seq<Outgoing>, j: nat)
    requires j < |b|
    ensures |a| + j < |a + b + c| && (a + b + c)[|a| + j] == b[j]
  {
  }

  /** The campaign the ready handler runs: nothing when `numbers.txt` is absent or either file cannot be read. */
  function Campaign(startFile: TextFile, numbersFile: TextFile): (r: seq<Outgoing>)
    ensures numbersFile.Absent? || numbersFile.Unreadable? || startFile.Unreadable? ==> r == []
    ensures startFile.Absent? && numbersFile.Present? ==>
      r == CampaignPlan(ParseLines(numbersFile.content), DEFAULT_START_MESSAGES)
    ensures startFile.Present? && numbersFile.Present? ==>
      r == CampaignPlan(ParseLines(numbersFile.content), ParseLines(startFile.content))
  {
    match (StartMessages(startFile), numbersFile)
    case (Some(messages), Present(content)) => CampaignPlan(ParseLines(content), messages)
    case _ => []
  }

  /** None of the sends numbered `k` to `k + n - 1` fails. */
  predicate Clean(fails: set<int>, k: nat, n: nat) {
    forall t :: k <= t < k + n ==> t !in fails
  }

  /**
   * The sends attempted from `plan` when its first send is number `k` and send
   * number `t` throws iff `t` is in `fails`: every send up to and including the first
   * failing one, after which the surrounding `try` abandons the rest.
   */
  function AttemptedFrom(plan: seq<Outgoing>, fails: set<int>, k: nat): seq<Outgoing> {
    if plan == [] then []
    else if k in fails then [plan[0]]
    else [plan[0]] + AttemptedFrom(plan[1..], fails, k + 1)
  }

  /** The campaign's attempts, numbering the sends from 0. */
  function Attempted(plan: seq<Outgoing>, fails: set<int>): seq<Outgoing> {
    AttemptedFrom(plan, fails, 0)
  }

  /**
   * What is attempted is a prefix of the plan: all of it when no send fails,
   * and otherwise it ends with the first failing send.
   */
  lemma {:induction false} AttemptedShape(plan: seq<Outgoing>, fails: set<int>, k: nat)
    ensures var r := AttemptedFrom(plan, fails, k);
            && r <= plan
            && (Clean(fails, k, |plan|) ==> r == plan)
            && (!Clean(fails, k, |plan|) ==>
                  0 < |r| && k + |r| - 1 in fails && Clean(fails, k, |r| - 1))
  {
    if plan != [] && k !in fails {
      AttemptedShape(plan[1..], fails, k + 1);
      var r := AttemptedFrom(plan[1..], fails, k + 1);
      assert AttemptedFrom(plan, fails, k) == [plan[0]] + r;
      assert plan == [plan[0]] + plan[1..];
      if !Clean(fails, k, |plan|) {
        assert !Clean(fails, k + 1, |plan| - 1);
      }
    }
  }

  /** Sends before the first failure are all attempted, and the rest is attempted from where they end. */
  lemma {:induction false} AttemptedClean(a: seq<Outgoing>, b: seq<Outgoing>, fails: set<int>, k: nat)
    requires Clean(fails, k, |a|)
    ensures AttemptedFrom(a + b, fails, k) == a + AttemptedFrom(b, fails, k + |a|)
  {
    if a != [] {
      assert k !in fails;
      assert (a + b)[1..] == a[1..] + b;
      AttemptedClean(a[1..], b, fails, k + 1);
      assert a == [a[0]] + a[1..];
    } else {
      assert a + b == b;
    }
  }

  /** A block without a failure is attempted in full. */
  lemma {:induction false} AttemptedAll(plan: seq<Outgoing>, fails: set<int>, k: nat)
    requires Clean(fails, k, |plan|)
    ensures AttemptedFrom(plan, fails, k) == plan
  {
    if plan != [] {
      assert k !in fails;
      AttemptedAll(plan[1..], fails, k + 1);
    }
  }

  /** Once a block holds a failure, nothing after it is attempted. */
  lemma {:induction false} AttemptedStops(a: seq<Outgoing>, b: seq<Outgoing>, fails: set<int>, k: nat)
    requires !Clean(fails, k, |a|)
    ensures AttemptedFrom(a + b, fails, k) == AttemptedFrom(a, fails, k)
  {
    if k !in fails {
      assert (a + b)[1..] == a[1..] + b;
      AttemptedStops(a[1..], b, fails, k + 1);
    }
  }

  /** A block whose send `j` is its first failure is attempted up to and including `j`. */
  lemma {:induction false} AttemptedUpTo(row: seq<Outgoing>, fails: set<int>, k: nat, j: nat)
    requires j < |row| && Clean(fails, k, j) && k + j in fails
    ensures AttemptedFrom(row, fails, k) == row[..j + 1]
  {
    assert row == row[..j] + row[j..];
    AttemptedClean(row[..j], row[j..], fails, k);
    assert AttemptedFrom(row[j..], fails, k + j) == [row[j]];
  }

  /** The campaign from number `i` on is that number's sends followed by the campaign for the numbers after it. */
  lemma {:induction false} CampaignFrom(numbers: seq<string>, messages: seq<string>, i: nat)
    requires i < |numbers|
    ensures CampaignPlan(numbers[i..], messages)
         == NumberSends(numbers[i], messages) + CampaignPlan(numbers[i + 1..], messages)
  {
    assert numbers[i..][1..] == numbers[i + 1..];
  }

  /**
   * One round of the outer loop when none of number `i`'s sends fails: the
   * attempts from number `i` on, whose first send is send number `k`, are all
   * of its sends followed by the attempts for the numbers after it.
   */
  lemma {:induction false} CampaignStepClean(numbers: seq<string>, messages: seq<string>, fails: set<int>, i: nat, k: nat)
    requires i < |numbers| && Clean(fails, k, |messages|)
    ensures AttemptedFrom(CampaignPlan(numbers[i..], messages), fails, k)
         == AttemptedFrom(NumberSends(numbers[i], messages), fails, k)
            + AttemptedFrom(CampaignPlan(numbers[i + 1..], messages), fails, k + |messages|)
  {
    var row := NumberSends(numbers[i], messages);
    var rest := CampaignPlan(numbers[i + 1..], messages);
    assert |row| == |messages|;
    CampaignFrom(numbers, messages, i);
    AttemptedClean(row, rest, fails, k);
    AttemptedAll(row, fails, k);
    calc {
      AttemptedFrom(CampaignPlan(numbers[i..], messages), fails, k);
      AttemptedFrom(row + rest, fails, k);
      row + AttemptedFrom(rest, fails, k + |messages|);
    }
  }

  /** One round of the outer loop when one of number `i`'s sends fails: the campaign stops inside them. */
  lemma {:induction false} CampaignStepStops(numbers: seq<string>, messages: seq<string>, fails: set<int>, i: nat, k: nat)
    requires i < |numbers| && !Clean(fails, k, |messages|)
    ensures AttemptedFrom(CampaignPlan(numbers[i..], messages), fails, k)
         == AttemptedFrom(NumberSends(numbers[i], messages), fails, k)
  {
    CampaignFrom(numbers, messages, i);
    AttemptedStops(NumberSends(numbers[i], messages), CampaignPlan(numbers[i + 1..], messages), fails, k);
  }

  lemma Regroup(x: seq<Outgoing>, a: seq<Outgoing>, b: seq<Outgoing>)
    ensures x + (a + b) == (x + a) + b
  {
  }

  /**
   * One round of the outer loop, in terms of what has been sent before it:
   * after number `i`'s attempts, either the campaign is over or it goes on
   * with the numbers after `i`, whose first send is number `k + M`.
   */
  lemma CampaignStep(total: seq<Outgoing>, before: seq<Outgoing>, numbers: seq<string>, messages: seq<string>,
                     fails: set<int>, i: nat, k: nat)
    requires i < |numbers|
    requires total == before + AttemptedFrom(CampaignPlan(numbers[i..], messages), fails, k)
    ensures var sent := before + AttemptedFrom(NumberSends(numbers[i], messages), fails, k);
            && (Clean(fails, k, |messages|) ==>
                  total == sent + AttemptedFrom(CampaignPlan(numbers[i + 1..], messages), fails, k + |messages|))
            && (!Clean(fails, k, |messages|) ==> total == sent)
  {
    if Clean(fails, k, |messages|) {
      CampaignStepClean(numbers, messages, fails, i, k);
      Regroup(before, AttemptedFrom(NumberSends(numbers[i], messages), fails, k),
              AttemptedFrom(CampaignPlan(numbers[i + 1..], messages), fails, k + |messages|));
    } else {
      CampaignStepStops(numbers, messages, fails, i, k);
    }
  }

  /** What the bot's `/ask` call gave the relay: a reply field, or an HTTP error thrown by axios. */
  datatype BotAnswer = Replied(reply: Option<string>) | BotFailed

  /** The text of the admin message on completion. */
  function CompletionNotice(sender: string): string {
    "\U{2705} Info collected from user: " + BeforeFirst(sender, '@')
  }

  /** The text of the admin alert on a bot error. */
  function ErrorAlert(sender: string): string {
    "\U{26A0}\U{FE0F} Bot error for user: " + BeforeFirst(sender, '@')
  }

  /** The bot's answer is a reply the relay passes on to the user: non-empty text other than the sentinel. */
  predicate Relayed(answer: BotAnswer) {
    answer.Replied? && answer.reply.Some? && answer.reply.value != "" && answer.reply.value != Screening.COMPLETE
  }

  /**
   * The sends of the `message` handler for one incoming message. The first send
   * (the reply or the completion notice) may throw when `firstSendFails`; the
   * `catch` then sends the error alert.
   */
  function MessageSends(sender: string, answer: BotAnswer, firstSendFails: bool): (r: seq<Outgoing>)
    // A reply reaches the user only when it is a non-empty text other than the sentinel.
    ensures forall o :: o in r && o.ReplyTo? ==> Relayed(answer) && o == ReplyTo(sender, answer.reply.value)
    ensures Relayed(answer) ==> |r| > 0 && r[0] == ReplyTo(sender, answer.reply.value)
    // Everything else goes to the admin.
    ensures forall o :: o in r && o.SendMessage? ==> o.chatId == ADMIN_NUMBER
    // Completion: exactly one admin notice and nothing for the user.
    ensures answer == Replied(Some(Screening.COMPLETE)) && !firstSendFails ==>
      r == [SendMessage(ADMIN_NUMBER, CompletionNotice(sender))]
    // An error: the alert, never a reply.
    ensures answer.BotFailed? ==> r == [SendMessage(ADMIN_NUMBER, ErrorAlert(sender))]
    // A null or empty reply sends nothing.
    ensures r == [] <==> answer.Replied? && (answer.reply.None? || answer.reply.value == "")
    // A relayed reply or completion notice is the only send unless it throws; then the error alert follows it.
    ensures answer.Replied? && answer.reply.Some? && answer.reply.value != "" ==>
      |r| == (if firstSendFails then 2 else 1)
      && (firstSendFails ==> r[1] == SendMessage(ADMIN_NUMBER, ErrorAlert(sender)))
    ensures answer == Replied(Some(Screening.COMPLETE)) ==> r[0] == SendMessage(ADMIN_NUMBER, CompletionNotice(sender))
    ensures |r| <= 2
  {
    match answer
    case BotFailed => [SendMessage(ADMIN_NUMBER, ErrorAlert(sender))]
    case Replied(None) => []
    case Replied(Some(reply)) =>
      if reply == "" then []
      else
        var first := if reply == Screening.COMPLETE then SendMessage(ADMIN_NUMBER, CompletionNotice(sender))
                     else ReplyTo(sender, reply);
        [first] + (if firstSendFails then [SendMessage(ADMIN_NUMBER, ErrorAlert(sender))] else [])
  }

  /** The `/notify` endpoint's HTTP status: 200 once the admin message is sent, 500 when sending throws. */
  function NotifyStatus(sendFails: bool): (code: int)
    ensures code == 200 <==> !sendFails
    ensures code == 500 <==> sendFails
  {
    if sendFails then 500 else 200
  }

  /** The state file as `/active-chats` reads it. */
  datatype StateFile = NoStateFile | Unparsable | Stored(state: Screening.State)

  /** `Object.keys(state).length`, or 0 when the file is missing or reading it throws. */
  function ActiveChats(file: StateFile): (count: nat)
    ensures file.Stored? ==> count == |file.state.Keys|
    ensures !file.Stored? ==> count == 0
  {
    if file.Stored? then |file.state.Keys| else 0
  }

  /** The relay's mutable module state and the messages it has handed to WhatsApp. */
  class Relay {
    var isConnected: bool
    var outbox: seq<Outgoing>

    constructor ()
      ensures !isConnected && outbox == []
    {
      isConnected := false;
      outbox := [];
    }

    /** `client.on('ready')`: mark the client connected, then run the campaign. */
    method OnReady(startFile: TextFile, numbersFile: TextFile, fails: set<int>)
      modifies this
      ensures isConnected
      ensures outbox == old(outbox) + Attempted(Campaign(startFile, numbersFile), fails)
    {
      isConnected := true;
      var start := StartMessages(startFile);
      if start.None? || !numbersFile.Present? {
        assert Campaign(startFile, numbersFile) == [];
        assert outbox == old(outbox) + [];
        return;
      }
      assert Campaign(startFile, numbersFile) == CampaignPlan(ParseLines(numbersFile.content), start.value);
      RunCampaign(ParseLines(numbersFile.content), start.value, fails);
    }

    /** The nested send loops: numbers in order, and for each number the start messages in order. */
    method RunCampaign(numbers: seq<string>, messages: seq<string>, fails: set<int>)
      modifies this
      ensures isConnected == old(isConnected)
      ensures outbox == old(outbox) + Attempted(CampaignPlan(numbers, messages), fails)
    {
      ghost var total := old(outbox) + Attempted(CampaignPlan(numbers, messages), fails);
      assert numbers[0..] == numbers;
      var done: nat := 0;
      var i := 0;
      while i < |numbers|
        invariant 0 <= i <= |numbers|
        invariant total == outbox + AttemptedFrom(CampaignPlan(numbers[i..], messages), fails, done)
        invariant isConnected == old(isConnected)
      {
        ghost var before := outbox;
        CampaignStep(total, before, numbers, messages, fails, i, done);
        var aborted := SendNumber(numbers[i], messages, fails, done);
        assert outbox == before + AttemptedFrom(NumberSends(numbers[i], messages), fails, done);
        if aborted {
          assert total == outbox;
          return;
        }
        assert total == outbox + AttemptedFrom(CampaignPlan(numbers[i + 1..], messages), fails, done + |messages|);
        done := done + |messages|;
        i := i + 1;
      }
      assert CampaignPlan(numbers[i..], messages) == [] by {
        assert numbers[i..] == [];
      }
      assert total == outbox + [];
    }

    /**
     * The inner loop for one number, whose first send is send number `done` of
     * the campaign: every start message in order until one send fails.
     */
    method SendNumber(number: string, messages: seq<string>, fails: set<int>, done: nat) returns (aborted: bool)
      modifies this
      ensures isConnected == old(isConnected)
      ensures aborted <==> !Clean(fails, done, |messages|)
      ensures outbox == old(outbox) + AttemptedFrom(NumberSends(number, messages), fails, done)
    {
      ghost var row := NumberSends(number, messages);
      var chatId := ChatId(number);
      var j := 0;
      while j < |messages|
        invariant 0 <= j <= |messages|
        invariant Clean(fails, done, j)
        invariant outbox == old(outbox) + row[..j]
        invariant isConnected == old(isConnected)
      {
        var send := SendMessage(chatId, messages[j]);
        assert row[..j + 1] == row[..j] + [send];
        outbox := outbox + [send];
        if done + j in fails {
          AttemptedUpTo(row, fails, done, j);
          return true;
        }
        j := j + 1;
      }
      assert row[..j] == row;
      AttemptedShape(row, fails, done);
      return false;
    }

    /** `client.on('message')`: relay the bot's answer to the user or the admin. */
    method OnMessage(sender: string, answer: BotAnswer, firstSendFails: bool)
      modifies this
      ensures isConnected == old(isConnected)
      ensures outbox == old(outbox) + MessageSends(sender, answer, firstSendFails)
    {
      var number := BeforeFirst(sender, '@');
      match answer {
        case BotFailed =>
          outbox := outbox + [SendMessage(ADMIN_NUMBER, "\U{26A0}\U{FE0F} Bot error for user: " + number)];
        case Replied(reply) =>
          if reply.Some? && reply.value != "" {
            if reply.value == Screening.COMPLETE {
              outbox := outbox + [SendMessage(ADMIN_NUMBER, "\U{2705} Info collected from user: " + number)];
            } else {
              outbox := outbox + [ReplyTo(sender, reply.value)];
            }
            if firstSendFails {
              outbox := outbox + [SendMessage(ADMIN_NUMBER, "\U{26A0}\U{FE0F} Bot error for user: " + number)];
            }
          }
      }
    }

    /** `/notify`: forward the bot's admin message and answer with the HTTP status. */
    method Notify(message: string, sendFails: bool) returns (code: int)
      modifies this
      ensures isConnected == old(isConnected)
      ensures outbox == old(outbox) + [SendMessage(ADMIN_NUMBER, message)]
      ensures code == NotifyStatus(sendFails)
    {
      outbox := outbox + [SendMessage(ADMIN_NUMBER, message)];
      if sendFails {
        code := 500;
      } else {
        code := 200;
      }
    }
  }
}
