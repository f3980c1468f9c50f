/**
 * The status of a turn that ran out of tokens: a stop because of the budget is remembered by the
 * process only, so a process that resumes may report the iteration limit instead.
 */
module TurnBudget {
  import opened Wrappers
  import ToolCalls
  import opened TurnMachine
  import opened TurnIds
  import opened TurnSafety
  import opened TurnResume

  /** Neither a token nor a model call is left. */
  predicate Spent(c: Config, t: Turn) {
    OverBudget(c, t) && t.iterations >= c.maxIterations
  }

  /** Every call of the checkpoint is answered, and nothing in it says that the budget was why. */
  predicate StopForgotten(c: Config, k: Checkpoint) {
    k.next >= |k.pending| && Spent(c, ResumedTurn(k))
  }

  /** Where a process stands that has forgotten no stop. */
  predicate Remembers(c: Config, s: State) {
    match s.pc
    case Head => s.turn.next >= |s.turn.pending| ==> !Spent(c, s.turn)
    case ReplySave => s.turn.next < |s.turn.pending|
    case NextCall(None) => s.turn.next >= |s.turn.pending| ==> !Spent(c, s.turn)
    case AnswerSave(None) => !Spent(c, s.turn)
    case ClearSave(None) => !Spent(c, s.turn)
    case Done(MaxIterations) => !OverBudget(c, s.turn)
    case _ => true
  }

  lemma AskModelRemembers(c: Config, a: Answers, s: State)
    requires Lawful(c)
    ensures Remembers(c, AskModel(c, World(a), s))
  {
    var t := s.turn.(iterations := s.turn.iterations + 1);
    var answer := a.model(t.messages);
    if answer.Reply? {
      var r := answer.response;
      AskedModelPc(c, World(a), s, r, TakeReply(c, t, r));
      WithIdsIds(r.calls, c.assignIds(CallIds(r.calls), t.seen, t.iterations));
      assert |CallIds(WithIds(r.calls, c.assignIds(CallIds(r.calls), t.seen, t.iterations)))| == |r.calls|;
    }
  }

  lemma BeginCallRemembers(c: Config, a: Answers, s: State, stop: Option<Status>)
    requires s.pc == NextCall(stop) && Remembers(c, s)
    ensures Remembers(c, BeginCall(c, World(a), s, stop))
  {
    if s.turn.next < |s.turn.pending| {
      BeginCallCases(c, World(a), s, stop, StopBeforeCall(c, World(a), s, stop));
    }
  }

  lemma StepRemembers(c: Config, a: Answers, s: State)
    requires Lawful(c) && Wf(c, s) && Quiet(c, s) && Remembers(c, s)
    ensures Remembers(c, Step(c, World(a), s))
  {
    match s.pc
    case Asking => AskModelRemembers(c, a, s);
    case NextCall(stop) => BeginCallRemembers(c, a, s, stop);
    case _ =>
  }

  /** A process that forgot no stop reports the iteration limit only when tokens were left. */
  lemma {:induction false} RunRemembers(c: Config, a: Answers, s: State)
    requires Setting(c, a) && Wf(c, s) && Quiet(c, s) && Remembers(c, s)
    ensures Remembers(c, Run(c, World(a), s))
    decreases CallsLeft(c, s), WorkLeft(s)
  {
    if !s.pc.Done? {
      StepMakesProgress(c, World(a), s);
      StepQuiet(c, a, s);
      StepRemembers(c, a, s);
      RunRemembers(c, a, Step(c, World(a), s));
    }
  }

  /** What a process does that resumes from such a checkpoint: it clears the answered calls and is at its limit. */
  lemma ForgottenEnds(c: Config, a: Answers, k: Checkpoint)
    requires c.hasStore && StopForgotten(c, k)
    ensures var r := Run(c, World(a), Resumed(k)); r.pc == Done(MaxIterations) && OverBudget(c, r.turn)
  {
    var e, u := World(a), Resumed(k);
    if k.pending == [] {
      OverBudgetHeadEnds(c, a, u);
    } else {
      var u1 := Step(c, e, u);
      assert u1 == u.(pc := NextCall(None), now := 1);
      var u2 := Step(c, e, u1);
      assert u2 == u1.(pc := ClearSave(None));
      RunStep(c, e, u);
      RunStep(c, e, u1);
      RunStep(c, e, u2);
      ClearedEnds(c, a, u2);
    }
  }

  lemma ClearedEnds(c: Config, a: Answers, s: State)
    requires c.hasStore && !s.turn.failed && s.pc == ClearSave(None) && Spent(c, s.turn)
    ensures var r := Run(c, World(a), Step(c, World(a), s)); r.pc == Done(MaxIterations) && OverBudget(c, r.turn)
  {
    OverBudgetHeadEnds(c, a, Step(c, World(a), s));
  }

  /**
   * After any crashes before the final reply is stored, one crash more changes the status exactly
   * when the stored checkpoint has every call answered and neither tokens nor a model call left:
   * the uninterrupted turn then reports the budget and the resumed one the iteration limit.
   */
  lemma BudgetStatusDiffersExactly(c: Config, a: Answers, messages: seq<Message>, schedule: seq<bool>)
    requires Setting(c, a) && c.maxIterations >= 1 && CrashesBeforeReturn(c, a, messages, schedule)
    requires !FinalStored(Exec(c, World(a), messages, schedule).durable)
    ensures var s := Exec(c, World(a), messages, schedule);
            var whole, resumed := Whole(c, a, messages), Run(c, World(a), Crash(messages, s));
            && (resumed.pc != whole.pc <==> s.durable.Some? && StopForgotten(c, s.durable.value))
            && (resumed.pc != whole.pc ==> whole.pc == Done(TokenBudget) && resumed.pc == Done(MaxIterations))
  {
    var s := Exec(c, World(a), messages, schedule);
    AlwaysOnCourse(c, a, messages, schedule);
    RunRemembers(c, a, Start(messages));
    if s.durable.None? {
      RunTwin(c, a, Crash(messages, s), Start(messages));
    } else {
      RunTwin(c, a, Crash(messages, s), Resumed(s.durable.value));
      ResumedStatus(c, a, s.durable.value);
      Compare(c, Whole(c, a, messages), Run(c, World(a), Resumed(s.durable.value)), StopForgotten(c, s.durable.value));
    }
  }

  lemma Compare(c: Config, whole: State, resumed: State, forgotten: bool)
    requires whole.pc.Done? && resumed.pc.Done? && SameOutcome(c, whole, resumed)
    requires whole.pc == Done(MaxIterations) ==> !OverBudget(c, whole.turn)
    requires if forgotten then resumed.pc == Done(MaxIterations) && OverBudget(c, resumed.turn)
             else resumed.pc == Done(MaxIterations) ==> !OverBudget(c, resumed.turn)
    ensures resumed.pc != whole.pc <==> forgotten
    ensures resumed.pc != whole.pc ==> whole.pc == Done(TokenBudget) && resumed.pc == Done(MaxIterations)
  {
  }

  lemma ResumedStatus(c: Config, a: Answers, k: Checkpoint)
    requires Setting(c, a)
    ensures var r := Run(c, World(a), Resumed(k));
            if StopForgotten(c, k) then r.pc == Done(MaxIterations) && OverBudget(c, r.turn)
            else r.pc == Done(MaxIterations) ==> !OverBudget(c, r.turn)
  {
    if StopForgotten(c, k) {
      ForgottenEnds(c, a, k);
    } else {
      RunRemembers(c, a, Resumed(k));
    }
  }

  // ---- An example ----

  /** A model whose first reply calls one tool and uses up the budget. */
  function SpendsBudget(): Answers {
    var reply := Response("", [ToolUse("a", "list", ToolCalls.JNull)], [Call("a", "list", ToolCalls.JNull)],
                          FinishReason.ToolCalls, Usage(1, 0, 0, 0));
    Answers(ms => Reply(reply), r => false, r => ToolOutcome(false, ""))
  }

  lemma SpendsBudgetSuits(c: Config)
    requires ValidConfig(c) && c.hasStore && c.canResume
    ensures Setting(c, SpendsBudget())
  {
    ValidIsLawful(c);
    var ids := CallIds([Call("a", "list", ToolCalls.JNull)]);
    assert ids == [ids[0]];
    assert UseIds([ToolUse("a", "list", ToolCalls.JNull)]) == ["a"];
  }

  /** The status does change: the only call of this turn is refused for its budget, saved, and the process crashes. */
  lemma BudgetStopIsForgotten(c: Config, messages: seq<Message>)
    requires ValidConfig(c) && c.maxIterations == 1 && c.maxTotalTokens == Some(1) && c.hasStore && c.canResume
    ensures var a, schedule := SpendsBudget(), [false, false, false, false, false, false];
            var s := Exec(c, World(a), messages, schedule);
            && Setting(c, a) && CrashesBeforeReturn(c, a, messages, schedule)
            && Whole(c, a, messages).pc == Done(TokenBudget)
            && Run(c, World(a), Crash(messages, s)).pc == Done(MaxIterations)
  {
    var a, schedule := SpendsBudget(), [false, false, false, false, false, false];
    SpendsBudgetSuits(c);
    NoCrashes(c, a, messages, schedule);
    BudgetStopIsStored(c, World(a), messages, schedule, SpendsBudget().model([]).response);
    BudgetStatusDiffersExactly(c, a, messages, schedule);
  }

  /** The reply uses up the budget and the last model call. */
  ghost predicate Spends(c: Config, e: Env, r: Response) {
    && c.maxIterations == 1 && c.maxTotalTokens.Some? && 0 < c.maxTotalTokens.value <= r.usage.input
    && |r.calls| == 1 && c.hasStore && Calm(e, r)
  }

  lemma BudgetStopIsStored(c: Config, e: Env, messages: seq<Message>, schedule: seq<bool>, r: Response)
    requires Lawful(c) && Spends(c, e, r)
    requires |schedule| == 6 && true !in schedule
    ensures var s := Exec(c, e, messages, schedule);
            s.pc.NextCall? && s.durable.Some? && s.durable.value.phase.ToolsPhase? && StopForgotten(c, s.durable.value)
  {
    ExecThree(c, e, messages, [], schedule[..3]);
    ExecThree(c, e, messages, schedule[..3], schedule[3..]);
    assert schedule[..3] + schedule[3..] == schedule;
    OneReply(c, e, Start(messages), r);
    RefusedForBudget(c, e, Exec(c, e, messages, schedule[..3]));
  }

  /** The model always gives this reply, saves work and nothing is aborted. */
  ghost predicate Calm(e: Env, r: Response) {
    && (forall ms, at :: e.model(ms, at) == Reply(r))
    && (forall at :: e.save(at) == Saved && !e.aborted(at))
  }

  lemma RefusedForBudget(c: Config, e: Env, s: State)
    requires c.hasStore && (forall at :: e.save(at) == Saved && !e.aborted(at))
    requires s.pc == Head && !s.turn.failed && Spent(c, s.turn) && |s.turn.pending| == 1 && s.turn.next == 0
    ensures var s3 := Step(c, e, Step(c, e, Step(c, e, s)));
            s3.pc.NextCall? && s3.durable.Some? && s3.durable.value.phase.ToolsPhase?
              && StopForgotten(c, s3.durable.value)
  {
    var s1 := Step(c, e, s);
    assert s1 == s.(now := s.now + 1, pc := NextCall(None));
    BeginCallCases(c, e, s1, None, Some(TokenBudget));
    var s2 := Step(c, e, s1);
    assert s2.pc == AnswerSave(Some(TokenBudget)) && s2.turn.next == 1;
  }
}
