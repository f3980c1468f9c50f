/**
 * The answer that a call was not run. It can be given for a call that did run: a process that
 * takes over from a crash may find the turn stopped before it comes to the call in flight.
 */
module TurnNotRun {
  import opened Wrappers
  import opened TurnMachine
  import opened TurnSafety
  import opened TurnAccount
  import opened TurnAccountRuns
  import ToolCalls

  /** A call that has run and is not answered yet is the one the process holds as in flight. */
  lemma NotRunIsTrueUnlessInFlight(c: Config, e: Env, messages: seq<Message>, schedule: seq<bool>, i: nat)
    requires ValidConfig(c) && ValidEnv(e) && (c.hasStore || true !in schedule)
    requires var s := Exec(c, e, messages, schedule); s.turn.next <= i < |s.turn.pending|
    ensures var s := Exec(c, e, messages, schedule);
            s.turn.pending[i].id in InvokedIds(s.trace) ==>
              i == s.turn.next && s.turn.inFlight == Some(s.turn.pending[i].id)
  {
    AlwaysInv(c, e, messages, schedule);
  }

  // ---- A run in which it is not true ----

  /** The world of a user who aborts when a second process comes to the one call of the first reply. */
  function AbortsOnResume(r: Response): Env {
    Env(at => at == 9, (ms, at) => Reply(r), (q, at) => Granted, (q, at) => ToolOutcome(true, "done"),
        (q, at) => ToolOutcome(true, "done"), at => Saved)
  }

  /** Seven steps up to the invocation, a crash, and two steps of the process that takes over. */
  const CRASH_AFTER_INVOKE := [false, false, false, false, false, false, false, true, false, false]

  /** Under any id, the call becomes a request for which nobody has to be asked. */
  ghost predicate RunsAlone(c: Config, call: Call, id: string, name: string, args: ToolCalls.Args) {
    Becomes(c, call.(id := id), Request(id, name, args)) && !NeedsHuman(c, call.(id := id))
  }

  /** The reply makes one such call. */
  ghost predicate OneRunnableCall(c: Config, r: Response, name: string, args: ToolCalls.Args) {
    && WellFormedResponse(r) && |r.calls| == 1 && r.finish == FinishReason.ToolCalls
    && forall id :: RunsAlone(c, r.calls[0], id, name, args)
  }

  /** The turn has one open call, not in flight or in flight. */
  ghost predicate CallOpen(c: Config, t: Turn, name: string, args: ToolCalls.Args, taken: bool) {
    && |t.pending| == 1 && t.next == 0 && !t.failed && Whole(t.finish)
    && var id := t.pending[0].id;
    && Becomes(c, t.pending[0], Request(id, name, args)) && !NeedsHuman(c, t.pending[0])
    && t.inFlight == if taken then Some(id) else None
  }

  lemma ReplyOpens(c: Config, t: Turn, r: Response, name: string, args: ToolCalls.Args, t': Turn)
    requires Lawful(c) && OneRunnableCall(c, r, name, args) && !t.failed
    requires t' == TakeReply(c, t, r)
    ensures CallOpen(c, t', name, args, false)
  {
    hide *;
    var ids := c.assignIds(CallIds(r.calls), t.seen, t.iterations);
    OneId(c, t, r, ids, name, args);
    TakenReply(c, t, r, ids);
    OneCallRenamed(r.calls, ids);
    CallOpens(c, t, r.calls[0], name, args, ids[0], t');
  }

  lemma OneId(c: Config, t: Turn, r: Response, ids: seq<string>, name: string, args: ToolCalls.Args)
    requires Lawful(c) && OneRunnableCall(c, r, name, args)
    requires ids == c.assignIds(CallIds(r.calls), t.seen, t.iterations)
    ensures |r.calls| == |ids| == 1 && r.finish == FinishReason.ToolCalls
    ensures RunsAlone(c, r.calls[0], ids[0], name, args)
  {
    hide RunsAlone, WellFormedResponse;
  }

  lemma CallOpens(c: Config, t: Turn, call: Call, name: string, args: ToolCalls.Args, id: string, t': Turn)
    requires RunsAlone(c, call, id, name, args) && !t.failed
    requires t'.pending == [call.(id := id)] && t'.next == 0 && t'.inFlight == None && t'.failed == t.failed
             && t'.finish == Some(FinishReason.ToolCalls)
    ensures CallOpen(c, t', name, args, false)
  {
    hide Becomes, NeedsHuman;
  }

  lemma TakenReply(c: Config, t: Turn, r: Response, ids: seq<string>)
    requires r.calls != [] && ids == c.assignIds(CallIds(r.calls), t.seen, t.iterations)
    ensures var t' := TakeReply(c, t, r);
            && t'.pending == WithIds(r.calls, ids) && t'.next == 0 && t'.inFlight == None && t'.failed == t.failed
            && t'.finish == Some(r.finish)
  {
    hide ReplyMessage;
  }

  lemma OneCallRenamed(calls: seq<Call>, ids: seq<string>)
    requires |calls| == |ids| == 1
    ensures WithIds(calls, ids) == [calls[0].(id := ids[0])]
  {
    assert WithIds(calls[1..], ids[1..]) == [];
  }

  lemma ConfigFacts(c: Config)
    requires ValidConfig(c)
    ensures Lawful(c) && c.maxIterations >= 1
  {
    hide Lawful;
    ValidIsLawful(c);
  }

  lemma RepliesAreValid(c: Config, r: Response, name: string, args: ToolCalls.Args)
    requires OneRunnableCall(c, r, name, args)
    ensures ValidEnv(AbortsOnResume(r))
  {
  }

  lemma ToReply(c: Config, e: Env, s: State, r: Response, name: string, args: ToolCalls.Args)
    requires Lawful(c) && OneRunnableCall(c, r, name, args) && e == AbortsOnResume(r)
    requires c.hasStore && c.maxTotalTokens.None? && s.pc == Head && s.now == 0 && s.turn.pending == []
    requires s.turn.iterations < c.maxIterations && !s.turn.failed
    ensures var s3 := Step(c, e, Step(c, e, Step(c, e, s)));
            s3.pc == Head && s3.now == 3 && CallOpen(c, s3.turn, name, args, false)
  {
    hide TakeReply, Becomes, NeedsHuman;
    HeadAsks(c, e, s);
    var s1 := Step(c, e, s);
    var t1 := s1.turn.(iterations := s1.turn.iterations + 1);
    AskedModelPc(c, e, s1, r, TakeReply(c, t1, r));
    ReplyOpens(c, t1, r, name, args, TakeReply(c, t1, r));
    ReplyStored(c, e, AskModel(c, e, s1));
  }

  lemma ToCall(c: Config, e: Env, s: State, name: string, args: ToolCalls.Args, taken: bool)
    requires s.pc == Head && CallOpen(c, s.turn, name, args, taken) && !e.aborted(s.now)
    ensures Step(c, e, s) == s.(pc := NextCall(None), now := s.now + 1)
  {
  }

  lemma ToInvocation(c: Config, e: Env, s: State, r: Response, name: string, args: ToolCalls.Args)
    requires e == AbortsOnResume(r) && c.hasStore && c.maxTotalTokens.None? && s.now == 4
    requires s.pc == NextCall(None) && CallOpen(c, s.turn, name, args, false)
    ensures var s' := Step(c, e, Step(c, e, Step(c, e, s)));
            && s'.trace != [] && s'.trace[|s'.trace| - 1] == Invoked(Request(s.turn.pending[0].id, name, args))
            && s'.now == 7 && s'.durable.Some? && CallOpen(c, ResumedTurn(s'.durable.value), name, args, true)
            && s'.durable.value.pending == s.turn.pending
  {
    var request := Request(s.turn.pending[0].id, name, args);
    NextCallExactly(c, e, s);
    var s1 := Step(c, e, s);
    assert s1 == s.(now := 5, pc := PreSave(request));
    var s2 := Step(c, e, s1);
    assert s2.pc == Invoking(request) && s2.durable == Some(Snapshot(c, s2.turn, ToolsPhase));
    assert Step(c, e, s2) == RunTool(s2, Invoked(request), e.invoke(request, 6));
  }

  /**
   * The answer is not true in this run: the call is invoked, the process crashes, and the user
   * aborts before the next one comes to the call; it then answers that the call was not run.
   */
  lemma NotRunMayHaveRun(c: Config, messages: seq<Message>, r: Response, name: string, args: ToolCalls.Args)
    requires ValidConfig(c) && c.hasStore && c.maxTotalTokens.None? && OneRunnableCall(c, r, name, args)
    ensures var s := Exec(c, AbortsOnResume(r), messages, CRASH_AFTER_INVOKE);
            && ValidEnv(AbortsOnResume(r)) && s.turn.messages != []
            && var m := s.turn.messages[|s.turn.messages| - 1];
            && m.content == Answered(NotRun(Aborted)) && m.toolCallId.Some?
            && m.toolCallId.value in InvokedIds(s.trace)
  {
    hide Step, Exec, Becomes, OneRunnableCall, NeedsHuman, ValidConfig, ValidEnv, Lawful;
    var e := AbortsOnResume(r);
    ConfigFacts(c);
    RepliesAreValid(c, r, name, args);
    var s3, s4, s7, s8, s9 := States(c, e, messages, CRASH_AFTER_INVOKE);
    ToReply(c, e, Start(messages), r, name, args);
    ToCall(c, e, s3, name, args, false);
    ToInvocation(c, e, s4, r, name, args);
    assert s8 == Crash(messages, s7);
    AfterCrash(c, e, s8, s7.trace, Request(s4.turn.pending[0].id, name, args), s9);
  }

  lemma AfterCrash(c: Config, e: Env, s: State, before: seq<Event>, q: Request, s': State)
    requires s.pc == Head && s.now == 8 && CallOpen(c, s.turn, q.name, q.args, true) && s.turn.pending[0].id == q.id
    requires !e.aborted(8) && e.aborted(9) && s' == Step(c, e, s)
    requires before != [] && before[|before| - 1] == Invoked(q) && s.trace == before + [Restarted]
    ensures s'.pc == NextCall(None) && s'.turn.next < |s'.turn.pending|
    ensures var s2 := Step(c, e, s');
            && s2.turn.messages != []
            && var m := s2.turn.messages[|s2.turn.messages| - 1];
            && m.content == Answered(NotRun(Aborted)) && m.toolCallId == Some(q.id) && q.id in InvokedIds(s2.trace)
  {
    ToCall(c, e, s, q.name, q.args, true);
    StoppedCallIsNotRun(c, e, s', None);
    InvokedIdsContain(s'.trace, |before| - 1);
  }

  lemma ExecNothing(c: Config, e: Env, messages: seq<Message>)
    ensures Exec(c, e, messages, []) == Start(messages)
  {
  }

  lemma ExecCrash(c: Config, e: Env, messages: seq<Message>, schedule: seq<bool>, n: nat)
    requires n < |schedule| && schedule[n]
    ensures Exec(c, e, messages, schedule[..n + 1]) == Crash(messages, Exec(c, e, messages, schedule[..n]))
  {
    assert schedule[..n + 1][..n] == schedule[..n];
  }

  lemma States(c: Config, e: Env, messages: seq<Message>, schedule: seq<bool>)
    returns (s3: State, s4: State, s7: State, s8: State, s9: State)
    requires |schedule| == 10 && schedule[7] && forall i :: 0 <= i < 10 && i != 7 ==> !schedule[i]
    ensures s3 == Step(c, e, Step(c, e, Step(c, e, Start(messages)))) && s4 == Step(c, e, s3)
    ensures s7 == Step(c, e, Step(c, e, Step(c, e, s4))) && s8 == Crash(messages, s7) && s9 == Step(c, e, s8)
    ensures Exec(c, e, messages, schedule) == Step(c, e, s9)
  {
    hide Step, Crash, Exec;
    ExecNothing(c, e, messages);
    ExecMore(c, e, messages, schedule, 0);
    ExecMore(c, e, messages, schedule, 1);
    ExecMore(c, e, messages, schedule, 2);
    ExecMore(c, e, messages, schedule, 3);
    ExecMore(c, e, messages, schedule, 4);
    ExecMore(c, e, messages, schedule, 5);
    ExecMore(c, e, messages, schedule, 6);
    ExecCrash(c, e, messages, schedule, 7);
    ExecMore(c, e, messages, schedule, 8);
    ExecMore(c, e, messages, schedule, 9);
    assert schedule[..0] == [] && schedule[..10] == schedule;
    s3, s4 := Exec(c, e, messages, schedule[..3]), Exec(c, e, messages, schedule[..4]);
    s7, s8 := Exec(c, e, messages, schedule[..7]), Exec(c, e, messages, schedule[..8]);
    s9 := Exec(c, e, messages, schedule[..9]);
  }
}
