/**
 * What one `/ask` call does, case by case, and the invariants the state file
 * keeps across calls (app.py).
 */
module ScreeningFacts {
  import opened Common
  import opened Text
  import opened PyDict
  import opened Screening

  /** The position in the flow of the step the sender is on (`step_order.index(current_step)`). */
  function CurrentIndex(bot: Bot, state: State, sender: string): Option<nat> {
    IndexOf(StepOrder(bot.flow), SessionOf(state, sender).step)
  }

  /** The row `step_map[current_step]` of the sender's current step. */
  function CurrentRow(bot: Bot, state: State, sender: string): FlowRow
    requires CurrentIndex(bot, state, sender).Some?
  {
    StepMap(bot.flow)[SessionOf(state, sender).step]
  }

  /** The answers after recording `message` under the current step. */
  function RecordedAnswers(state: State, sender: string, message: string): (d: Dict<string>)
    requires StateValid(state)
    ensures d.Valid()
  {
    var user := SessionOf(state, sender);
    user.answers.Put(user.step, message)
  }

  /** The message is stripped before anything looks at it: raw and stripped messages behave alike. */
  lemma MessageIsTrimmed(bot: Bot, state: State, sender: string, raw: string)
    requires BotValid(bot) && StateValid(state)
    ensures Transition(bot, state, sender, raw) == Transition(bot, state, sender, Trim(raw))
  {
    TrimIdempotent(raw);
  }

  /** The state with a default entry written for `sender`. */
  function Seeded(state: State, sender: string): (r: State)
    requires StateValid(state)
    ensures StateValid(r) && sender in r && r[sender] == FreshSession()
    ensures forall other :: other != sender ==>
      (other in r <==> other in state) && (other in state ==> r[other] == state[other])
  {
    state[sender := FreshSession()]
  }

  /** The result of a call depends on the state only through the sender's own session. */
  lemma ResultDependsOnOwnSession(bot: Bot, s1: State, s2: State, sender: string, raw: string)
    requires BotValid(bot) && StateValid(s1) && StateValid(s2)
    requires SessionOf(s1, sender) == SessionOf(s2, sender)
    ensures Transition(bot, s1, sender, raw).result == Transition(bot, s2, sender, raw).result
  {
  }

  /**
   * A sender without an entry is handled exactly as one whose entry is
   * `{"step": "interest", "answers": {}}`; the state only differs in that the
   * default entry is not written when nothing advances.
   */
  lemma UnknownSenderStartsAtInterest(bot: Bot, state: State, sender: string, raw: string)
    requires BotValid(bot) && StateValid(state) && sender !in state
    ensures var a := Transition(bot, state, sender, raw);
            var b := Transition(bot, Seeded(state, sender), sender, raw);
            a.result == b.result && (a.state == state || a.state == b.state)
  {
    var d := Decide(bot, FreshSession(), Trim(raw), sender);
    ApplySeeded(state, sender, d);
  }

  /** Writing a decision over a seeded entry gives the same result, and the same state whenever the entry is written or removed. */
  lemma ApplySeeded(state: State, sender: string, d: Decision)
    requires StateValid(state) && sender !in state
    ensures var a := Apply(state, sender, d);
            var b := Apply(Seeded(state, sender), sender, d);
            a.result == b.result && (a.state == state || a.state == b.state)
  {
    if d.Finish? {
      assert Seeded(state, sender) - {sender} == state - {sender};
    }
  }

  /**
   * An FAQ hit is answered first, on every step including the gate: the reply
   * is the FAQ answer, a blank line and the current question, and nothing is
   * stored.
   */
  lemma FaqAnswersWithoutAdvancing(bot: Bot, state: State, sender: string, raw: string, key: string, question: string)
    requires BotValid(bot) && StateValid(state)
    requires CurrentIndex(bot, state, sender).Some?
    requires FaqReplyKey(bot.faqs, Trim(raw)) == Some(key)
    requires CurrentRow(bot, state, sender).ask == Str(question)
    ensures key in bot.faqs.values
    ensures Transition(bot, state, sender, raw)
         == Step(Success(Response(Some(bot.faqs.values[key] + "\n\n" + question), None)), state)
  {
    var user := SessionOf(state, sender);
    FaqDecision(bot, user, Trim(raw), sender, key, question);
    assert Transition(bot, state, sender, raw)
        == Apply(state, sender, Reply(Some(bot.faqs.values[key] + "\n\n" + question)));
  }

  /** The decision for an FAQ hit on a known step whose question is text. */
  lemma FaqDecision(bot: Bot, user: Session, m: string, sender: string, key: string, question: string)
    requires BotValid(bot) && user.answers.Valid()
    requires IndexOf(StepOrder(bot.flow), user.step).Some?
    requires FaqReplyKey(bot.faqs, m) == Some(key)
    requires StepMap(bot.flow)[user.step].ask == Str(question)
    ensures key in bot.faqs.values
    ensures Decide(bot, user, m, sender) == Reply(Some(bot.faqs.values[key] + "\n\n" + question))
  {
    var i := IndexOf(StepOrder(bot.flow), user.step).value;
    assert Decide(bot, user, m, sender) == Answer(bot, user, m, sender, i);
  }

  /** At the first step, a message that neither hits an FAQ nor passes the keyword gate gets a null reply and changes nothing. */
  lemma GateSwallowsNonMatching(bot: Bot, state: State, sender: string, raw: string)
    requires BotValid(bot) && StateValid(state)
    requires CurrentIndex(bot, state, sender) == Some(0)
    requires FaqReplyKey(bot.faqs, Trim(raw)) == None
    requires !FuzzyMatch(bot.lib.partialRatio, Trim(raw), CurrentRow(bot, state, sender).matchWords)
    ensures Transition(bot, state, sender, raw) == Step(Success(Response(None, None)), state)
  {
  }

  /**
   * On a step that is not the last, an accepted message is stored under the
   * current step, the session moves to exactly the next step of the flow, the
   * reply is that step's (filled-in) question, and only this sender's entry is
   * written.
   */
  lemma AdvancesOneStep(bot: Bot, state: State, sender: string, raw: string, i: nat, question: string, text: string)
    requires BotValid(bot) && StateValid(state)
    requires CurrentIndex(bot, state, sender) == Some(i) && i + 1 < |bot.flow|
    requires FaqReplyKey(bot.faqs, Trim(raw)) == None
    requires i != 0 || FuzzyMatch(bot.lib.partialRatio, Trim(raw), CurrentRow(bot, state, sender).matchWords)
    requires QuestionAt(bot.flow, i + 1) == Str(question)
    requires bot.lib.format(question, RecordedAnswers(state, sender, Trim(raw))) == Some(text)
    ensures var t := Transition(bot, state, sender, raw);
            && t.result == Success(Response(Some(text), None))
            && t.state == state[sender := Session(StepOrder(bot.flow)[i + 1], RecordedAnswers(state, sender, Trim(raw)))]
            && t.state[sender].answers.Get(SessionOf(state, sender).step) == Some(Trim(raw))
  {
    var user := SessionOf(state, sender);
    var m := Trim(raw);
    AdvanceDecision(bot, user, m, sender, i, question, text);
    assert Transition(bot, state, sender, raw)
        == Apply(state, sender, Advance(text, Session(StepOrder(bot.flow)[i + 1], user.answers.Put(user.step, m))));
  }

  /** The decision for an accepted message on a step that is not the last. */
  lemma AdvanceDecision(bot: Bot, user: Session, m: string, sender: string, i: nat, question: string, text: string)
    requires BotValid(bot) && user.answers.Valid()
    requires IndexOf(StepOrder(bot.flow), user.step) == Some(i) && i + 1 < |bot.flow|
    requires FaqReplyKey(bot.faqs, m) == None
    requires i != 0 || FuzzyMatch(bot.lib.partialRatio, m, StepMap(bot.flow)[user.step].matchWords)
    requires QuestionAt(bot.flow, i + 1) == Str(question)
    requires bot.lib.format(question, user.answers.Put(user.step, m)) == Some(text)
    ensures Decide(bot, user, m, sender)
         == Advance(text, Session(StepOrder(bot.flow)[i + 1], user.answers.Put(user.step, m)))
  {
    assert Decide(bot, user, m, sender) == Answer(bot, user, m, sender, i) == Record(bot, user, m, sender, i);
  }

  /**
   * After the last step the reply is the completion sentinel, the admin
   * summary is posted, and the sender's entry is removed while every other
   * entry stays as it was.
   */
  lemma CompletesAfterLastStep(bot: Bot, state: State, sender: string, raw: string)
    requires BotValid(bot) && StateValid(state)
    requires CurrentIndex(bot, state, sender) == Some(|bot.flow| - 1)
    requires FaqReplyKey(bot.faqs, Trim(raw)) == None
    requires |bot.flow| != 1 || FuzzyMatch(bot.lib.partialRatio, Trim(raw), CurrentRow(bot, state, sender).matchWords)
    ensures var t := Transition(bot, state, sender, raw);
            && t.result == Success(Response(Some(COMPLETE), Some(AdminSummary(sender, RecordedAnswers(state, sender, Trim(raw))))))
            && t.state == state - {sender}
            && sender !in t.state
  {
    var user := SessionOf(state, sender);
    var m := Trim(raw);
    FinishDecision(bot, user, m, sender);
    assert Transition(bot, state, sender, raw)
        == Apply(state, sender, Finish(AdminSummary(sender, user.answers.Put(user.step, m))));
  }

  /** The decision for an accepted message on the last step. */
  lemma FinishDecision(bot: Bot, user: Session, m: string, sender: string)
    requires BotValid(bot) && user.answers.Valid()
    requires IndexOf(StepOrder(bot.flow), user.step) == Some(|bot.flow| - 1)
    requires FaqReplyKey(bot.faqs, m) == None
    requires |bot.flow| != 1 || FuzzyMatch(bot.lib.partialRatio, m, StepMap(bot.flow)[user.step].matchWords)
    ensures Decide(bot, user, m, sender) == Finish(AdminSummary(sender, user.answers.Put(user.step, m)))
  {
    var i := |bot.flow| - 1;
    assert Decide(bot, user, m, sender) == Answer(bot, user, m, sender, i) == Record(bot, user, m, sender, i);
  }

  /** Every stored session is on a step of the flow, so `step_order.index` cannot fail for a stored sender. */
  ghost predicate StepsInFlow(bot: Bot, state: State) {
    forall s :: s in state ==> state[s].step in StepOrder(bot.flow)
  }

  /** Each call keeps every stored step inside the flow. */
  lemma StepsStayInFlow(bot: Bot, state: State, sender: string, raw: string)
    requires BotValid(bot) && StateValid(state) && StepsInFlow(bot, state)
    ensures StepsInFlow(bot, Transition(bot, state, sender, raw).state)
  {
    var d := Decide(bot, SessionOf(state, sender), Trim(raw), sender);
    assert Transition(bot, state, sender, raw) == Apply(state, sender, d);
  }

  /** While the invariant holds and the flow has an `interest` step, no call fails on an unknown step. */
  lemma NoUnknownStep(bot: Bot, state: State, sender: string, raw: string)
    requires BotValid(bot) && StateValid(state) && StepsInFlow(bot, state)
    requires FIRST_STEP in StepOrder(bot.flow)
    ensures !Transition(bot, state, sender, raw).result.Failure?
         || !Transition(bot, state, sender, raw).result.error.UnknownStep?
  {
    var d := Decide(bot, SessionOf(state, sender), Trim(raw), sender);
    assert Transition(bot, state, sender, raw) == Apply(state, sender, d);
  }

  /** Every stored answer is filed under a step name of the flow. */
  ghost predicate AnswersInFlow(bot: Bot, state: State) {
    forall s, k :: s in state && k in state[s].answers.values ==> k in StepOrder(bot.flow)
  }

  /** An advancing call stores the message under the current step and keeps the earlier answers. */
  lemma AdvanceRecordsMessage(bot: Bot, user: Session, m: string, sender: string)
    requires BotValid(bot) && user.answers.Valid()
    requires Decide(bot, user, m, sender).Advance?
    ensures user.step in StepOrder(bot.flow)
    ensures Decide(bot, user, m, sender).next.answers == user.answers.Put(user.step, m)
  {
    var i := IndexOf(StepOrder(bot.flow), user.step).value;
    var d := Answer(bot, user, m, sender, i);
    assert Decide(bot, user, m, sender) == d;
    assert d == Record(bot, user, m, sender, i);
  }

  /** Each call files the answer it records under the current step, which is a step of the flow. */
  lemma AnswersStayInFlow(bot: Bot, state: State, sender: string, raw: string)
    requires BotValid(bot) && StateValid(state) && AnswersInFlow(bot, state)
    ensures AnswersInFlow(bot, Transition(bot, state, sender, raw).state)
  {
    var user := SessionOf(state, sender);
    var m := Trim(raw);
    var d := Decide(bot, user, m, sender);
    assert Transition(bot, state, sender, raw) == Apply(state, sender, d);
    if d.Advance? {
      AdvanceRecordsMessage(bot, user, m, sender);
      PutKeys(user.answers, user.step, m);
      assert user.answers.values.Keys <= (set k | k in StepOrder(bot.flow));
    }
    ApplyAnswersInFlow(bot, state, sender, d);
  }

  /** Writing a decision whose answers are filed under steps of the flow keeps every stored answer so filed. */
  lemma ApplyAnswersInFlow(bot: Bot, state: State, sender: string, d: Decision)
    requires AnswersInFlow(bot, state)
    requires d.Advance? ==> forall k :: k in d.next.answers.values ==> k in StepOrder(bot.flow)
    ensures AnswersInFlow(bot, Apply(state, sender, d).state)
  {
  }

  /**
   * With distinct step names the sender's position only ever moves forward by
   * one: after a call the state is unchanged, or the sender finished the last
   * step and was removed, or the sender is exactly one step further.
   */
  lemma StepIndexIncreasesByOne(bot: Bot, state: State, sender: string, raw: string, i: nat)
    requires BotValid(bot) && StateValid(state)
    requires Distinct(StepOrder(bot.flow))
    requires CurrentIndex(bot, state, sender) == Some(i)
    ensures var t := Transition(bot, state, sender, raw);
            || t.state == state
            || (i == |bot.flow| - 1 && t.state == state - {sender})
            || (sender in t.state && CurrentIndex(bot, t.state, sender) == Some(i + 1))
  {
    var d := Decide(bot, SessionOf(state, sender), Trim(raw), sender);
    assert Transition(bot, state, sender, raw) == Apply(state, sender, d);
    if d.Advance? {
      IndexOfNext(StepOrder(bot.flow), i, d.next.step);
    }
    ApplyMovesOne(state, sender, d, StepOrder(bot.flow), i);
  }

  /** Among distinct names, the name at position `i + 1` is found at `i + 1`. */
  lemma IndexOfNext(order: seq<string>, i: nat, name: string)
    requires Distinct(order) && i + 1 < |order| && name == order[i + 1]
    ensures IndexOf(order, name) == Some(i + 1)
  {
    IndexOfDistinct(order, i + 1);
  }

  /** Writing a decision that moves to the step found at `i + 1` leaves the sender exactly one index further. */
  lemma ApplyMovesOne(state: State, sender: string, d: Decision, order: seq<string>, i: nat)
    requires d.Advance? ==> IndexOf(order, d.next.step) == Some(i + 1)
    requires d.Finish? ==> i + 1 == |order|
    ensures var h := Apply(state, sender, d);
            || h.state == state
            || (i == |order| - 1 && h.state == state - {sender})
            || (sender in h.state && IndexOf(order, h.state[sender].step) == Some(i + 1))
  {
  }

  /**
   * The exception: with a repeated step name the index can move backwards.
   * Step `a` at positions 0 and 2: a sender on `b` (index 1) advances to the
   * name `a`, whose index is 0, and is taken back to the gate.
   */
  lemma RepeatedStepNameMovesBack(lib: Library, state: State, sender: string, raw: string)
    requires StateValid(state)
    requires sender in state && state[sender].step == "b"
    requires lib.format("q", RecordedAnswers(state, sender, Trim(raw))) == Some("q")
    ensures var bot := Bot([FlowRow("a", Missing, Str("q")), FlowRow("b", Missing, Str("q")),
                            FlowRow("a", Missing, Str("q")), FlowRow("c", Missing, Str("q"))],
                           Empty(), lib);
            var t := Transition(bot, state, sender, raw);
            CurrentIndex(bot, state, sender) == Some(1) && CurrentIndex(bot, t.state, sender) == Some(0)
  {
    var bot := Bot([FlowRow("a", Missing, Str("q")), FlowRow("b", Missing, Str("q")),
                    FlowRow("a", Missing, Str("q")), FlowRow("c", Missing, Str("q"))],
                   Empty(), lib);
    RepeatedFlowOrder(bot.flow);
    var m := Trim(raw);
    assert FaqReplyKey(bot.faqs, m) == None by {
      assert FirstFaq([], Lower(m)) == None;
    }
    AdvancesOneStep(bot, state, sender, raw, 1, "q", "q");
  }

  /** The step names of the flow `a, b, a, c`, and where `b` and `a` are first found. */
  lemma RepeatedFlowOrder(flow: Flow)
    requires flow == [FlowRow("a", Missing, Str("q")), FlowRow("b", Missing, Str("q")),
                      FlowRow("a", Missing, Str("q")), FlowRow("c", Missing, Str("q"))]
    ensures StepOrder(flow) == ["a", "b", "a", "c"]
    ensures IndexOf(StepOrder(flow), "b") == Some(1) && IndexOf(StepOrder(flow), "a") == Some(0)
    ensures QuestionAt(flow, 2) == Str("q")
  {
    assert StepOrder(flow) == ["a", "b", "a", "c"];
    assert StepMap(flow)["a"] == flow[2];
  }
}
