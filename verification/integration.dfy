/**
 * How the parts fit together: the relay's handling of what `/ask` returns,
 * the active-chat count across a call, the editor's default flow loaded by
 * the screening bot, and the candidate record built from the bot's answers.
 */
module Integration {
  import opened Common
  import opened Text
  import opened PyDict
  import opened Screening
  import opened ScreeningFacts
  import Relay
  import FlowEditor
  import Candidates

  /** What the relay sees of a call: the `reply` field, or a thrown HTTP error for a server error. */
  function AnswerOf(t: Step): (a: Relay.BotAnswer)
    ensures a.BotFailed? <==> t.result.Failure?
    ensures t.result.Success? ==> a == Relay.Replied(t.result.value.reply)
  {
    match t.result
    case Failure(_) => Relay.BotFailed
    case Success(r) => Relay.Replied(r.reply)
  }

  /**
   * Everything one incoming message makes the relay send, across both
   * services: on completion `/ask` first posts its summary to `/notify`,
   * which forwards it to the admin before `/ask` returns; then the
   * `message` handler sends what the answer calls for.
   */
  function CallSends(t: Step, sender: string, firstSendFails: bool): (r: seq<Relay.Outgoing>)
    ensures t.result.Success? && t.result.value.notice.Some? ==>
      |r| > 0 && r[0] == Relay.SendMessage(Relay.ADMIN_NUMBER, t.result.value.notice.value)
      && r[1..] == Relay.MessageSends(sender, AnswerOf(t), firstSendFails)
    ensures t.result.Failure? || t.result.value.notice.None? ==> r == Relay.MessageSends(sender, AnswerOf(t), firstSendFails)
  {
    var posted := if t.result.Success? && t.result.value.notice.Some?
                  then [Relay.SendMessage(Relay.ADMIN_NUMBER, t.result.value.notice.value)] else [];
    posted + Relay.MessageSends(sender, AnswerOf(t), firstSendFails)
  }

  /**
   * Across both services: a failed call produces only the admin alert. A
   * finished conversation has no entry left and, when no send throws, the
   * admin receives the summary and then the completion notice, and the user
   * nothing. A reply goes to the sender exactly when it is a non-empty text
   * other than the sentinel.
   */
  lemma RelayOfTransition(bot: Bot, state: State, sender: string, raw: string, firstSendFails: bool)
    requires BotValid(bot) && StateValid(state)
    ensures var t := Transition(bot, state, sender, raw);
            var sends := CallSends(t, sender, firstSendFails);
            && (t.result.Failure? ==> sends == [Relay.SendMessage(Relay.ADMIN_NUMBER, Relay.ErrorAlert(sender))])
            && (t.result.Success? && t.result.value.notice.Some? ==>
                  sender !in t.state
                  && t.result.value.reply == Some(COMPLETE)
                  && (!firstSendFails ==>
                        sends == [Relay.SendMessage(Relay.ADMIN_NUMBER, t.result.value.notice.value),
                                  Relay.SendMessage(Relay.ADMIN_NUMBER, Relay.CompletionNotice(sender))]))
            && (forall o :: o in sends && o.ReplyTo? ==>
                  t.result.Success? && o == Relay.ReplyTo(sender, t.result.value.reply.value)
                  && t.result.value.reply.value != COMPLETE)
  {
    var d := Decide(bot, SessionOf(state, sender), Trim(raw), sender);
    assert Transition(bot, state, sender, raw) == Apply(state, sender, d);
    ApplySends(state, sender, d, firstSendFails);
  }

  /** The sends of both services after writing one decision. */
  lemma ApplySends(state: State, sender: string, d: Decision, firstSendFails: bool)
    ensures var t := Apply(state, sender, d);
            var sends := CallSends(t, sender, firstSendFails);
            && (t.result.Failure? ==> sends == [Relay.SendMessage(Relay.ADMIN_NUMBER, Relay.ErrorAlert(sender))])
            && (t.result.Success? && t.result.value.notice.Some? ==>
                  sender !in t.state
                  && t.result.value.reply == Some(COMPLETE)
                  && (!firstSendFails ==>
                        sends == [Relay.SendMessage(Relay.ADMIN_NUMBER, t.result.value.notice.value),
                                  Relay.SendMessage(Relay.ADMIN_NUMBER, Relay.CompletionNotice(sender))]))
            && (forall o :: o in sends && o.ReplyTo? ==>
                  t.result.Success? && o == Relay.ReplyTo(sender, t.result.value.reply.value)
                  && t.result.value.reply.value != COMPLETE)
  {
    var t := Apply(state, sender, d);
    match d
    case Finish(n) =>
      assert t.result == Success(Response(Some(COMPLETE), Some(n)));
      assert AnswerOf(t) == Relay.Replied(Some(COMPLETE));
    case _ =>
  }

  /**
   * Across one call the active-chat count moves by at most one: it grows
   * only for a sender without an entry, and shrinks only when a stored
   * sender finishes.
   */
  lemma ActiveChatsAcrossCall(bot: Bot, state: State, sender: string, raw: string)
    requires BotValid(bot) && StateValid(state)
    ensures var t := Transition(bot, state, sender, raw);
            var before := Relay.ActiveChats(Relay.Stored(state));
            var after := Relay.ActiveChats(Relay.Stored(t.state));
            && before - 1 <= after <= before + 1
            && (after == before + 1 ==> sender !in state)
            && (after == before - 1 ==> sender in state && t.result.Success? && t.result.value.notice.Some?)
  {
    var d := Decide(bot, SessionOf(state, sender), Trim(raw), sender);
    assert Transition(bot, state, sender, raw) == Apply(state, sender, d);
    ApplyActiveChats(state, sender, d);
  }

  /** The active-chat count across writing one decision. */
  lemma ApplyActiveChats(state: State, sender: string, d: Decision)
    ensures var h := Apply(state, sender, d);
            var before := Relay.ActiveChats(Relay.Stored(state));
            var after := Relay.ActiveChats(Relay.Stored(h.state));
            && before - 1 <= after <= before + 1
            && (after == before + 1 ==> sender !in state)
            && (after == before - 1 ==> sender in state && h.result.Success? && h.result.value.notice.Some?)
  {
    ApplyCount(state, sender, d);
  }

  /** Writing a decision adds the sender's entry, removes it, or leaves the keys alone. */
  lemma ApplyCount(state: State, sender: string, d: Decision)
    ensures var after := |Apply(state, sender, d).state.Keys|;
            && |state.Keys| - 1 <= after <= |state.Keys| + 1
            && (after == |state.Keys| + 1 ==> sender !in state && d.Advance?)
            && (after == |state.Keys| - 1 ==> sender in state && d.Finish?)
  {
    match d
    case Advance(q, next) =>
      assert |state[sender := next].Keys| == |state[sender := next]|;
    case Finish(n) =>
      assert (state - {sender}).Keys == state.Keys - {sender};
    case Fail(e) =>
    case Reply(r) =>
  }

  /** An editor cell as pandas reads the exported CSV: an empty cell is NaN. */
  function CellOf(text: string): (c: Cell)
    ensures text == "" <==> c == Missing
    ensures text != "" ==> c == Str(text)
  {
    if text == "" then Missing else Str(text)
  }

  /** The flow table the bot loads from the editor's rows. */
  function Loaded(rows: seq<FlowEditor.FlowStep>): (flow: Flow)
    ensures |flow| == |rows|
    ensures forall i :: 0 <= i < |rows| ==>
      flow[i] == FlowRow(rows[i].step, CellOf(rows[i].matchWords), CellOf(rows[i].ask))
  {
    if rows == [] then []
    else [FlowRow(rows[0].step, CellOf(rows[0].matchWords), CellOf(rows[0].ask))] + Loaded(rows[1..])
  }

  /** The default flow, loaded: seven distinct steps with `interest` first. */
  lemma DefaultFlowLoaded()
    ensures var order := StepOrder(Loaded(FlowEditor.DefaultFlow()));
            |order| == 7 && order[0] == FIRST_STEP && Distinct(order)
  {
    LoadedNames(FlowEditor.DefaultFlow());
    FlowEditor.DefaultFlowShape();
  }

  /** Loading keeps the step names, in order. */
  lemma {:induction false} LoadedNames(rows: seq<FlowEditor.FlowStep>)
    ensures StepOrder(Loaded(rows)) == FlowEditor.Names(rows)
  {
    if rows != [] {
      LoadedNames(rows[1..]);
      assert Loaded(rows)[1..] == Loaded(rows[1..]);
    }
  }

  /**
   * Under the default flow, starting from any state whose steps are in the
   * flow, no call fails on an unknown step, the steps stay in the flow, and
   * a sender's position moves forward by one step at most.
   */
  lemma DefaultFlowRuns(faqs: Dict<string>, lib: Library, state: State, sender: string, raw: string, i: nat)
    requires faqs.Valid() && StateValid(state)
    requires StepsInFlow(Bot(Loaded(FlowEditor.DefaultFlow()), faqs, lib), state)
    requires CurrentIndex(Bot(Loaded(FlowEditor.DefaultFlow()), faqs, lib), state, sender) == Some(i)
    ensures var bot := Bot(Loaded(FlowEditor.DefaultFlow()), faqs, lib);
            var t := Transition(bot, state, sender, raw);
            && !(t.result.Failure? && t.result.error.UnknownStep?)
            && StepsInFlow(bot, t.state)
            && (t.state == state || (i == 6 && t.state == state - {sender})
                || (sender in t.state && CurrentIndex(bot, t.state, sender) == Some(i + 1)))
  {
    var bot := Bot(Loaded(FlowEditor.DefaultFlow()), faqs, lib);
    DefaultFlowLoaded();
    NoUnknownStep(bot, state, sender, raw);
    StepsStayInFlow(bot, state, sender, raw);
    StepIndexIncreasesByOne(bot, state, sender, raw, i);
  }

  /**
   * The default flow's first question is empty, so pandas reads it as NaN:
   * an FAQ hit on the `interest` step raises, and the relay alerts the admin
   * instead of answering.
   */
  lemma FaqOnDefaultGateFails(faqs: Dict<string>, lib: Library, state: State, sender: string, raw: string)
    requires faqs.Valid() && StateValid(state)
    requires SessionOf(state, sender).step == FIRST_STEP
    requires FaqReplyKey(faqs, Trim(raw)).Some?
    ensures var t := Transition(Bot(Loaded(FlowEditor.DefaultFlow()), faqs, lib), state, sender, raw);
            && t == Step(Failure(QuestionNotText(FIRST_STEP)), state)
            && Relay.MessageSends(sender, AnswerOf(t), false)
               == [Relay.SendMessage(Relay.ADMIN_NUMBER, Relay.ErrorAlert(sender))]
  {
    var bot := Bot(Loaded(FlowEditor.DefaultFlow()), faqs, lib);
    DefaultGate(bot.flow);
    var user := SessionOf(state, sender);
    FaqOnMissingQuestion(bot, user, Trim(raw), sender);
    assert Transition(bot, state, sender, raw) == Apply(state, sender, Fail(QuestionNotText(FIRST_STEP)));
  }

  /** In the loaded default flow, `interest` is at index 0 and its question cell is NaN. */
  lemma DefaultGate(flow: Flow)
    requires flow == Loaded(FlowEditor.DefaultFlow())
    ensures IndexOf(StepOrder(flow), FIRST_STEP) == Some(0)
    ensures StepMap(flow)[FIRST_STEP].ask == Missing
  {
    DefaultFlowLoaded();
    IndexOfDistinct(StepOrder(flow), 0);
    StepMapDistinct(flow, 0);
    assert flow[0] == FlowRow(FIRST_STEP, Str(FlowEditor.INTEREST_MATCH), Missing);
  }

  /** An FAQ hit on a known step whose question cell is NaN raises. */
  lemma FaqOnMissingQuestion(bot: Bot, user: Session, m: string, sender: string)
    requires BotValid(bot) && user.answers.Valid()
    requires IndexOf(StepOrder(bot.flow), user.step).Some?
    requires FaqReplyKey(bot.faqs, m).Some?
    requires StepMap(bot.flow)[user.step].ask == Missing
    ensures Decide(bot, user, m, sender) == Fail(QuestionNotText(user.step))
  {
    assert Decide(bot, user, m, sender) == Answer(bot, user, m, sender, IndexOf(StepOrder(bot.flow), user.step).value);
  }

  /** Python's string answers as the JavaScript object the candidate service receives. */
  function CandidateOf(sender: string, answers: Dict<string>, now: string): Candidates.Candidate {
    Candidates.Record(sender, Candidates.AsJs(answers.values), now)
  }

  /**
   * The screening bot never files an answer under `qualified` unless the flow
   * has such a step, so under the default flow every candidate built from a
   * stored session is `not_qualified`, filed under the sender's number.
   */
  lemma DefaultFlowCandidatesNotQualified(faqs: Dict<string>, lib: Library, state: State, sender: string, now: string)
    requires AnswersInFlow(Bot(Loaded(FlowEditor.DefaultFlow()), faqs, lib), state)
    requires sender in state
    ensures CandidateOf(sender, state[sender].answers, now).qualification == Candidates.NotQualified
    ensures CandidateOf(sender, state[sender].answers, now).phone == BeforeFirst(sender, '@')
  {
    LoadedNames(FlowEditor.DefaultFlow());
    FlowEditor.DefaultNames();
    assert "qualified" !in StepOrder(Loaded(FlowEditor.DefaultFlow()));
    Candidates.ScreeningAnswersNeverQualify(sender, state[sender].answers.values, now);
  }
}
