/** The account of every run: it is kept by every step and every crash. */
module TurnAccountRuns {
  import opened Wrappers
  import opened TurnMachine
  import opened TurnIds
  import opened TurnReplies
  import opened TurnSafety
  import opened TurnAccount
  import ToolCalls

  // ---- What holds where the process stands ----

  /** Nothing stands in the way of the next call, which becomes this request. */
  ghost predicate CallGoesOn(c: Config, t: Turn, r: Request) {
    && t.next < |t.pending| && Becomes(c, t.pending[t.next], r)
    && !Over(c, t.usage) && Whole(t.finish)
  }

  ghost predicate StopOk(c: Config, e: Env, first: nat, t: Turn, trace: seq<Event>, stop: Option<Status>) {
    stop.Some? ==> Stopped(c, e, first, t.messages, trace, stop.value)
  }

  /** Why a turn with this status ended. */
  ghost predicate Ended(c: Config, e: Env, first: nat, t: Turn, trace: seq<Event>, status: Status) {
    match status
    case Completed => EndsInFinal(c, e, t.messages) && !t.failed
    case MaxIterations => t.pending == [] && t.iterations >= c.maxIterations
                          && exists u :: Used(c, e, first, t.messages, u, t.iterations)
    case ProviderError => exists at :: e.model(t.messages, at) == Failed(false)
    case Aborted =>
      Stopped(c, e, first, t.messages, trace, status) || exists at :: e.model(t.messages, at) == Failed(true)
    case _ => Stopped(c, e, first, t.messages, trace, status)
  }

  ghost predicate PlaceOk(c: Config, e: Env, first: nat, pc: Pc, t: Turn, trace: seq<Event>) {
    match pc
    case Asking => !Over(c, t.usage)
    case FinalSave => EndsInFinal(c, e, t.messages)
    case NextCall(stop) => StopOk(c, e, first, t, trace, stop)
    case AnswerSave(stop) => StopOk(c, e, first, t, trace, stop)
    case ClearSave(stop) => StopOk(c, e, first, t, trace, stop)
    case Approving(r) => CallGoesOn(c, t, r) && NeedsHuman(c, t.pending[t.next]) && c.canApprove
    case PreSave(r) => CallGoesOn(c, t, r)
    case Invoking(r) => CallGoesOn(c, t, r)
    case Resuming(r) => CallGoesOn(c, t, r) && c.canResume
    case Done(status) => Ended(c, e, first, t, trace, status)
    case _ => true
  }

  /** In the middle of its calls a turn that can store has stored what it holds. */
  ghost predicate Synced(c: Config, pc: Pc, t: Turn, durable: Option<Checkpoint>) {
    c.hasStore && !t.failed && t.pending != [] && (pc.Head? || pc.NextCall? || InCall(pc)) ==>
      && durable.Some?
      && durable.value.messages == t.messages && durable.value.pending == t.pending
      && durable.value.next == t.next && durable.value.finish == t.finish
  }

  /** Nothing was asked of the host. */
  ghost predicate NoRequests(trace: seq<Event>) {
    forall ev :: ev in trace ==> RequestOf(ev).None?
  }

  ghost predicate StoreOk(c: Config, e: Env, first: seq<Message>, trace: seq<Event>, durable: Option<Checkpoint>) {
    match durable
    case None => c.hasStore ==> NoRequests(trace)
    case Some(k) => Account(c, e, first, ResumedTurn(k), trace)
  }

  ghost predicate Ledger(c: Config, e: Env, first: seq<Message>, t: Turn, trace: seq<Event>,
                         durable: Option<Checkpoint>) {
    && Account(c, e, first, t, trace)
    && StoreOk(c, e, first, trace, durable)
    && (t.failed ==> SaveFailed(trace))
  }

  /** A model call that fails is counted, but leaves no message. */
  ghost predicate FinalLedger(c: Config, e: Env, first: seq<Message>, t: Turn, trace: seq<Event>,
                              durable: Option<Checkpoint>) {
    exists k: nat :: k <= t.iterations <= k + 1 && Ledger(c, e, first, t.(iterations := k), trace, durable)
  }

  ghost predicate Accounted(c: Config, e: Env, first: seq<Message>, s: State) {
    && (if s.pc.Done? then FinalLedger(c, e, first, s.turn, s.trace, s.durable)
        else Ledger(c, e, first, s.turn, s.trace, s.durable))
    && Synced(c, s.pc, s.turn, s.durable)
    && PlaceOk(c, e, |first|, s.pc, s.turn, s.trace)
  }

  lemma AccountUsed(c: Config, e: Env, first: seq<Message>, t: Turn, trace: seq<Event>)
    requires Account(c, e, first, t, trace)
    ensures Used(c, e, |first|, t.messages, t.usage, t.iterations) && |first| <= |t.messages|
  {
  }

  // ---- Events and saves ----

  lemma EventLedger(c: Config, e: Env, first: seq<Message>, t: Turn, trace: seq<Event>, durable: Option<Checkpoint>,
                    ev: Event)
    requires Ledger(c, e, first, t, trace, durable) && RequestOf(ev).None?
    ensures Ledger(c, e, first, t, trace + [ev], durable)
  {
    hide Account;
    EventAccount(c, e, first, t, trace, ev);
    if durable.Some? { EventAccount(c, e, first, ResumedTurn(durable.value), trace, ev); }
    SaveStillFailed(trace, ev);
  }

  lemma SaveStillFailed(trace: seq<Event>, ev: Event)
    ensures SaveFailed(trace) ==> SaveFailed(trace + [ev])
    ensures ev.SavedState? && ev.outcome != Saved ==> SaveFailed(trace + [ev])
  {
    if SaveFailed(trace) {
      var k, o :| SavedState(k, o) in trace && o != Saved;
      assert SavedState(k, o) in trace + [ev];
    }
    if ev.SavedState? && ev.outcome != Saved {
      assert SavedState(ev.checkpoint, ev.outcome) in trace + [ev];
    }
  }

  lemma SnapshotBooks(c: Config, t: Turn, phase: Phase)
    requires IdsOk(t) && (phase.ModelPhase? ==> t.pending == [])
    ensures SameBooks(t, ResumedTurn(Snapshot(c, t, phase)))
  {
  }

  lemma SaveLedger(c: Config, e: Env, first: seq<Message>, s: State, phase: Phase, s': State)
    requires Ledger(c, e, first, s.turn, s.trace, s.durable) && IdsOk(s.turn)
    requires (phase.ModelPhase? ==> s.turn.pending == []) && s' == Save(c, e, s, phase)
    ensures Ledger(c, e, first, s'.turn, s'.trace, s'.durable) && s'.pc == s.pc
    ensures s'.turn == s.turn.(failed := s'.turn.failed)
    ensures c.hasStore && !s'.turn.failed ==> s'.durable == Some(Snapshot(c, s.turn, phase))
  {
    hide Account;
    if !s.turn.failed && c.hasStore {
      var k, outcome := Snapshot(c, s.turn, phase), e.save(s.now);
      var ev := SavedState(k, outcome);
      EventLedger(c, e, first, s.turn, s.trace, s.durable, ev);
      SaveStillFailed(s.trace, ev);
      SameAccount(c, e, first, s.turn, s'.trace, s'.turn);
      SnapshotBooks(c, s.turn, phase);
      SameAccount(c, e, first, s.turn, s'.trace, ResumedTurn(k));
    }
  }

  /** A stop stays true as long as only answers are added. */
  lemma StopStays(c: Config, e: Env, first: nat, ms: seq<Message>, all: seq<Message>, past: seq<Event>, status: Status)
    requires Stopped(c, e, first, ms, past, status) && OneMore(ms, all) && first <= |ms| && all[|ms|].role.Tool?
    ensures Stopped(c, e, first, all, past, status)
  {
    match status
    case TokenBudget =>
      var u, k :| Used(c, e, first, ms, u, k) && Over(c, u);
      UsedStays(c, e, first, ms, all, u, k);
    case CheckpointFailed =>
      if CouldNotResume(first, ms) {
        var n :| first <= n < |ms| && ms[n].content == Answered(CannotResumeSafely);
        assert all[n] == ms[n];
      }
    case _ =>
  }

  // ---- Answers ----

  /** The answer is true of the next pending call, whose reply is this one. */
  ghost predicate CanAnswer(c: Config, e: Env, first: nat, t: Turn, trace: seq<Event>, answer: Answer, success: bool) {
    && t.next < |t.pending|
    && forall n, r :: PendingFrom(c, e, first, t, n, r) ==>
         TrueAnswer(c, e, first, t.messages, trace, r, t.pending[t.next], answer, success)
  }

  /** An answer that says the call was not touched is given to calls for which nothing can have been asked. */
  ghost predicate RuledOut(c: Config, t: Turn) {
    && t.next < |t.pending|
    && ((forall r :: !Becomes(c, t.pending[t.next], r)) || !Whole(t.finish))
  }

  lemma NothingAsked(c: Config, t: Turn, trace: seq<Event>)
    requires OpenRequests(c, t, trace) && RuledOut(c, t)
    ensures Unasked(trace, t.pending[t.next].id)
  {
  }

  lemma AnswerEntry(c: Config, e: Env, first: nat, t: Turn, trace: seq<Event>, answer: Answer, success: bool,
                    m: Message)
    requires t.pending != [] ==> exists n, r :: PendingFrom(c, e, first, t, n, r)
    requires CanAnswer(c, e, first, t, trace, answer, success)
    requires m == Message(Tool, Answered(answer), Some(t.pending[t.next].id), t.pending[t.next].name, !success)
    ensures Entry(c, e, first, t.messages, m, trace)
  {
    var n, r :| PendingFrom(c, e, first, t, n, r);
    var call := t.pending[t.next];
    assert CallAt(c, e, t.messages, n, t.next, r, call);
    assert IsAnswer(c, e, first, t.messages, m, trace, n, t.next, r, call);
  }

  lemma RecordLedger(c: Config, e: Env, first: seq<Message>, s: State, answer: Answer, success: bool,
                     stop: Option<Status>, s': State)
    requires Ledger(c, e, first, s.turn, s.trace, s.durable) && IdsOk(s.turn)
    requires CanAnswer(c, e, |first|, s.turn, s.trace, answer, success)
    requires answer.CutOff? || answer.CouldNotResolve? || answer.BadParameters? ==> RuledOut(c, s.turn)
    requires s' == Record(s, answer, success, stop)
    ensures Ledger(c, e, first, s'.turn, s'.trace, s'.durable)
  {
    hide Written, Used, TrueAnswer, PendingFrom, Becomes;
    var call := s.turn.pending[s.turn.next];
    var m := Message(Tool, Answered(answer), Some(call.id), call.name, !success);
    AnswerEntry(c, e, |first|, s.turn, s.trace, answer, success, m);
    if SaysUntouched(m) { NothingAsked(c, s.turn, s.trace); }
    AnswerAccount(c, e, first, s.turn, s.trace, m, s'.turn);
  }

  /** An answer with the stop that follows it, which is one there was or one the answer tells of. */
  lemma RecordAccounted(c: Config, e: Env, first: seq<Message>, s: State, answer: Answer, success: bool,
                        stop: Option<Status>, s': State)
    requires Ledger(c, e, first, s.turn, s.trace, s.durable) && IdsOk(s.turn)
    requires CanAnswer(c, e, |first|, s.turn, s.trace, answer, success)
    requires answer.CutOff? || answer.CouldNotResolve? || answer.BadParameters? ==> RuledOut(c, s.turn)
    requires StopOk(c, e, |first|, s.turn, s.trace, stop)
             || (stop == Some(CheckpointFailed) && answer == CannotResumeSafely)
    requires s' == Record(s, answer, success, stop)
    ensures Accounted(c, e, first, s')
  {
    hide Account, Used, Stopped, CanAnswer, RuledOut;
    RecordLedger(c, e, first, s, answer, success, stop, s');
    AccountUsed(c, e, first, s.turn, s.trace);
    RecordStop(c, e, |first|, s.turn.messages, s'.turn.messages, s.trace, stop, answer);
    PlaceAccounted(c, e, first, s');
  }

  lemma RecordStop(c: Config, e: Env, first: nat, ms: seq<Message>, all: seq<Message>, past: seq<Event>,
                   stop: Option<Status>, answer: Answer)
    requires OneMore(ms, all) && first <= |ms| && all[|ms|].role.Tool? && all[|ms|].content == Answered(answer)
    requires (stop.Some? ==> Stopped(c, e, first, ms, past, stop.value))
             || (stop == Some(CheckpointFailed) && answer == CannotResumeSafely)
    ensures stop.Some? ==> Stopped(c, e, first, all, past, stop.value)
  {
    if stop.Some? {
      if Stopped(c, e, first, ms, past, stop.value) {
        StopStays(c, e, first, ms, all, past, stop.value);
      } else {
        assert all[|ms|].content == Answered(CannotResumeSafely);
      }
    }
  }

  lemma PlaceAccounted(c: Config, e: Env, first: seq<Message>, s: State)
    requires Ledger(c, e, first, s.turn, s.trace, s.durable) && PlaceOk(c, e, |first|, s.pc, s.turn, s.trace)
    requires Synced(c, s.pc, s.turn, s.durable) && !s.pc.Done?
    ensures Accounted(c, e, first, s)
  {
    hide Account;
  }

  // ---- Steps ----

  lemma HeadAccounted(c: Config, e: Env, first: seq<Message>, s: State, s': State)
    requires Accounted(c, e, first, s) && s.pc.Head? && s' == LoopHead(c, e, s)
    ensures Accounted(c, e, first, s')
  {
    hide Account, Used, SaveFailed;
    assert s'.turn == s.turn && s'.trace == s.trace && s'.durable == s.durable;
    if s'.pc.Done? {
      assert s.turn.(iterations := s.turn.iterations) == s.turn;
      AccountUsed(c, e, first, s.turn, s.trace);
    }
  }

  lemma FailureAccounted(c: Config, e: Env, first: seq<Message>, s: State, aborted: bool, s': State)
    requires Accounted(c, e, first, s) && s.pc.Asking?
    requires e.model(s.turn.messages, s.now) == Failed(aborted) && s' == AskModel(c, e, s)
    ensures Accounted(c, e, first, s')
  {
    hide Account;
    var ev := AskedModel(s.turn.iterations + 1);
    EventLedger(c, e, first, s.turn, s.trace, s.durable, ev);
    assert s'.turn.(iterations := s.turn.iterations) == s.turn;
  }

  lemma ReplyAccounted(c: Config, e: Env, first: seq<Message>, s: State, r: Response, s': State)
    requires Lawful(c) && ValidEnv(e) && Inv(c, s) && Accounted(c, e, first, s) && s.pc.Asking?
    requires e.model(s.turn.messages, s.now) == Reply(r) && s' == AskModel(c, e, s)
    ensures Accounted(c, e, first, s')
  {
    hide Account, EndsInFinal, TakeReply;
    var t' := TakeReply(c, s.turn.(iterations := s.turn.iterations + 1), r);
    AskedModelPc(c, e, s, r, t');
    var ev := AskedModel(s.turn.iterations + 1);
    EventLedger(c, e, first, s.turn, s.trace, s.durable, ev);
    ReplyLedger(c, e, first, s.turn, s'.trace, s.durable, s.now, r, t');
    PlaceAccounted(c, e, first, s');
  }

  lemma ReplyLedger(c: Config, e: Env, first: seq<Message>, t: Turn, trace: seq<Event>, durable: Option<Checkpoint>,
                    at: nat, r: Response, t': Turn)
    requires Lawful(c) && WellFormedResponse(r) && Ledger(c, e, first, t, trace, durable) && IdsOk(t) && t.pending == []
    requires e.model(t.messages, at) == Reply(r) && t' == TakeReply(c, t.(iterations := t.iterations + 1), r)
    ensures Ledger(c, e, first, t', trace, durable)
    ensures r.calls == [] ==> EndsInFinal(c, e, t'.messages)
  {
    hide Account;
    ReplyAccount(c, e, first, t, trace, at, r, t');
    assert t'.failed == t.failed;
  }

  lemma FinalSaveAccounted(c: Config, e: Env, first: seq<Message>, s: State, s': State)
    requires Inv(c, s) && Accounted(c, e, first, s) && s.pc.FinalSave? && s' == Step(c, e, s)
    ensures Accounted(c, e, first, s')
  {
    hide Account;
    var saved := Save(c, e, s, ModelPhase);
    SaveLedger(c, e, first, s, ModelPhase, saved);
    assert s' == saved.(pc := s'.pc);
    assert s'.turn.(iterations := s.turn.iterations) == s'.turn;
  }

  lemma ReplySaveAccounted(c: Config, e: Env, first: seq<Message>, s: State, s': State)
    requires Inv(c, s) && Accounted(c, e, first, s) && s.pc.ReplySave? && s' == Step(c, e, s)
    ensures Accounted(c, e, first, s')
  {
    hide Account;
    SaveLedger(c, e, first, s, ToolsPhase, Save(c, e, s, ToolsPhase));
  }

  lemma AnswerSaveAccounted(c: Config, e: Env, first: seq<Message>, s: State, stop: Option<Status>, s': State)
    requires Inv(c, s) && Accounted(c, e, first, s) && s.pc == AnswerSave(stop) && s' == Step(c, e, s)
    ensures Accounted(c, e, first, s')
  {
    hide Account;
    var saved := Save(c, e, s, ToolsPhase);
    SaveLedger(c, e, first, s, ToolsPhase, saved);
    assert s' == saved.(pc := NextCall(StopAfterSave(saved, stop)));
    SavedStop(c, e, |first|, s, saved, stop);
  }

  lemma SavedStop(c: Config, e: Env, first: nat, s: State, saved: State, stop: Option<Status>)
    requires StopOk(c, e, first, s.turn, s.trace, stop) && saved.turn.messages == s.turn.messages
    requires s.trace <= saved.trace && (saved.turn.failed ==> SaveFailed(saved.trace))
    ensures StopOk(c, e, first, saved.turn, saved.trace, StopAfterSave(saved, stop))
  {
    if stop.Some? { StoppedLater(c, e, first, s.turn.messages, s.trace, saved.trace, stop.value); }
  }

  lemma {:induction false} StoppedLater(c: Config, e: Env, first: nat, ms: seq<Message>, past: seq<Event>,
                                       later: seq<Event>, status: Status)
    requires Stopped(c, e, first, ms, past, status) && past <= later
    ensures Stopped(c, e, first, ms, later, status)
    decreases |later|
  {
    if past != later {
      var front := later[..|later| - 1];
      StoppedLater(c, e, first, ms, past, front, status);
      StillStopped(c, e, first, ms, front, later[|later| - 1], status);
      assert front + [later[|later| - 1]] == later;
    }
  }

  lemma ClearSaveAccounted(c: Config, e: Env, first: seq<Message>, s: State, stop: Option<Status>, s': State)
    requires Inv(c, s) && Accounted(c, e, first, s) && s.pc == ClearSave(stop) && s' == Step(c, e, s)
    ensures Accounted(c, e, first, s')
  {
    hide Account;
    var cleared := s.(turn := Cleared(s.turn));
    var saved := Save(c, e, cleared, ModelPhase);
    ClearedLedger(c, e, first, s.turn, s.trace, s.durable);
    SaveLedger(c, e, first, cleared, ModelPhase, saved);
    assert s' == saved.(pc := s'.pc);
    SavedStop(c, e, |first|, s, saved, stop);
    assert s'.turn.(iterations := s.turn.iterations) == s'.turn;
  }

  lemma ClearedLedger(c: Config, e: Env, first: seq<Message>, t: Turn, trace: seq<Event>, durable: Option<Checkpoint>)
    requires Ledger(c, e, first, t, trace, durable)
    ensures Ledger(c, e, first, Cleared(t), trace, durable)
  {
  }

  // ---- One call ----

  /** What preparation finds out about a call, whatever it is called. */
  lemma PreparedCall(c: Config, call: Call, p: Prepared)
    requires p == Prepare(c, call)
    ensures p.Runnable? ==> Becomes(c, call, p.request) && c.resolve(call).Dispatch? && c.resolve(call).spec == p.spec
    ensures p.NotRunnable? ==> forall r :: !Becomes(c, call, r)
    ensures p.NotRunnable? ==>
              match p.answer
              case CouldNotResolve(problem) => c.resolve(call) == ToolCalls.Unresolved(problem)
              case BadParameters(tool) => BadCall(c, call, tool)
              case _ => false
  {
  }

  lemma BudgetIsOver(c: Config, t: Turn)
    ensures OverBudget(c, t) <==> Over(c, t.usage)
    ensures WasCutOff(t) <==> !Whole(t.finish)
  {
  }

  lemma StopBeforeIsTrue(c: Config, e: Env, first: nat, s: State, stop: Option<Status>, stop': Option<Status>)
    requires StopOk(c, e, first, s.turn, s.trace, stop) && stop' == StopBeforeCall(c, e, s, stop)
    requires Used(c, e, first, s.turn.messages, s.turn.usage, s.turn.iterations)
    ensures StopOk(c, e, first, s.turn, s.trace, stop')
    ensures stop'.None? ==> stop.None? && !Over(c, s.turn.usage)
  {
    BudgetIsOver(c, s.turn);
  }

  lemma NotRunAnswer(c: Config, e: Env, first: nat, t: Turn, trace: seq<Event>, status: Status)
    requires t.next < |t.pending| && Stopped(c, e, first, t.messages, trace, status)
    ensures CanAnswer(c, e, first, t, trace, NotRun(status), false)
  {
  }

  lemma CutOffAnswer(c: Config, e: Env, first: nat, t: Turn, trace: seq<Event>)
    requires t.next < |t.pending| && WasCutOff(t)
    ensures CanAnswer(c, e, first, t, trace, CutOff(t.finish.value), false) && RuledOut(c, t)
  {
    hide ReplyAt, CallAt, Used, Becomes;
    forall n, r | PendingFrom(c, e, first, t, n, r)
      ensures TrueAnswer(c, e, first, t.messages, trace, r, t.pending[t.next], CutOff(t.finish.value), false)
    {
      assert t.finish == Some(r.finish);
    }
  }

  lemma BeginAccounted(c: Config, e: Env, first: seq<Message>, s: State, stop: Option<Status>, s': State)
    requires Inv(c, s) && Accounted(c, e, first, s) && s.pc == NextCall(stop) && s' == BeginCall(c, e, s, stop)
    ensures Accounted(c, e, first, s')
  {
    hide Account, Used, Stopped, CanAnswer, RuledOut;
    if s.turn.next >= |s.turn.pending| {
      PlaceAccounted(c, e, first, s');
    } else {
      var stop' := StopBeforeCall(c, e, s, stop);
      AccountUsed(c, e, first, s.turn, s.trace);
      StopBeforeIsTrue(c, e, |first|, s, stop, stop');
      BeginCallCases(c, e, s, stop, stop');
      BegunAccounted(c, e, first, s, stop', s.(now := s.now + 1), s');
    }
  }

  lemma BegunAccounted(c: Config, e: Env, first: seq<Message>, s: State, stop: Option<Status>, s1: State, s': State)
    requires Inv(c, s) && Accounted(c, e, first, s) && s.pc.NextCall? && s.turn.next < |s.turn.pending|
    requires s1 == s.(now := s.now + 1) && StopOk(c, e, |first|, s.turn, s.trace, stop)
    requires stop.None? ==> s.pc.stop.None? && !Over(c, s.turn.usage)
    requires s' == if stop.Some? then Record(s1, NotRun(stop.value), false, stop)
                   else if WasCutOff(s.turn) then Record(s1, CutOff(s.turn.finish.value), false, None)
                   else StartCall(c, s1, Prepare(c, s.turn.pending[s.turn.next]))
    ensures Accounted(c, e, first, s')
  {
    hide Account;
    BudgetIsOver(c, s.turn);
    if stop.Some? {
      NotRunAnswer(c, e, |first|, s.turn, s.trace, stop.value);
      RecordAccounted(c, e, first, s1, NotRun(stop.value), false, stop, s');
    } else if WasCutOff(s.turn) {
      CutOffAnswer(c, e, |first|, s.turn, s.trace);
      RecordAccounted(c, e, first, s1, CutOff(s.turn.finish.value), false, None, s');
    } else {
      StartAccounted(c, e, first, s1, Prepare(c, s.turn.pending[s.turn.next]), s');
    }
  }

  /** The process waits for the next call, and nothing stops it. */
  lemma StartAccounted(c: Config, e: Env, first: seq<Message>, s: State, p: Prepared, s': State)
    requires Ledger(c, e, first, s.turn, s.trace, s.durable) && IdsOk(s.turn) && s.turn.next < |s.turn.pending|
    requires Synced(c, NextCall(None), s.turn, s.durable) && !Over(c, s.turn.usage) && Whole(s.turn.finish)
    requires p == Prepare(c, s.turn.pending[s.turn.next]) && s' == StartCall(c, s, p)
    ensures Accounted(c, e, first, s')
  {
    hide Account;
    var call := s.turn.pending[s.turn.next];
    PreparedCall(c, call, p);
    if p.NotRunnable? {
      assert RuledOut(c, s.turn) && CanAnswer(c, e, |first|, s.turn, s.trace, p.answer, false);
      RecordAccounted(c, e, first, s, p.answer, false, None, s');
    } else {
      StartRunnable(c, e, first, s, p, call, s');
    }
  }

  lemma NobodyAnswer(c: Config, e: Env, first: nat, t: Turn, trace: seq<Event>, r: Request)
    requires t.next < |t.pending| && Becomes(c, t.pending[t.next], r) && NeedsHuman(c, t.pending[t.next])
    requires !c.canApprove
    ensures CanAnswer(c, e, first, t, trace, NobodyToAsk(c.resolve(t.pending[t.next]).spec.name), false)
  {
  }

  lemma UnsafeAnswer(c: Config, e: Env, first: nat, t: Turn, trace: seq<Event>, r: Request)
    requires t.next < |t.pending| && Becomes(c, t.pending[t.next], r) && !c.canResume
    ensures CanAnswer(c, e, first, t, trace, CannotResumeSafely, false)
  {
  }

  lemma StartRunnable(c: Config, e: Env, first: seq<Message>, s: State, p: Prepared, call: Call, s': State)
    requires Ledger(c, e, first, s.turn, s.trace, s.durable) && IdsOk(s.turn) && s.turn.next < |s.turn.pending|
    requires Synced(c, NextCall(None), s.turn, s.durable) && !Over(c, s.turn.usage) && Whole(s.turn.finish)
    requires call == s.turn.pending[s.turn.next] && s' == StartCall(c, s, p)
    requires p.Runnable? && Becomes(c, call, p.request) && c.resolve(call).Dispatch? && c.resolve(call).spec == p.spec
    ensures Accounted(c, e, first, s')
  {
    hide Account, CanAnswer, Becomes;
    var resuming := s.turn.inFlight == Some(call.id);
    if !resuming && p.spec.NeedsApproval() && !c.canApprove {
      NobodyAnswer(c, e, |first|, s.turn, s.trace, p.request);
      RecordAccounted(c, e, first, s, NobodyToAsk(p.spec.name), false, None, s');
    } else if resuming && !c.canResume {
      UnsafeAnswer(c, e, |first|, s.turn, s.trace, p.request);
      RecordAccounted(c, e, first, s, CannotResumeSafely, false, Some(CheckpointFailed), s');
    } else {
      assert s' == s.(pc := s'.pc) && InCall(s'.pc);
      PlaceAccounted(c, e, first, s');
    }
  }

  // ---- Requests ----

  lemma RequestIsCalls(c: Config, e: Env, first: nat, t: Turn, trace: seq<Event>, ev: Event)
    requires Kept(c, e, first, t, trace) && RequestOf(ev).Some? && CallGoesOn(c, t, RequestOf(ev).value)
    requires ev.AskedApproval? ==> NeedsHuman(c, t.pending[t.next]) && c.canApprove
    requires ev.ResumedInvocation? ==> c.canResume
    ensures Requested(c, e, first, t.messages, ev)
  {
    var n, r :| PendingFrom(c, e, first, t, n, r);
    var call := t.pending[t.next];
    assert CallAt(c, e, t.messages, n, t.next, r, call);
    assert Used(c, e, first, t.messages[..n + 1], t.usage, t.iterations);
    assert RequestFor(c, e, first, t.messages, n, t.next, r, call, ev);
  }

  /** What the invariant of `TurnSafety` says in the middle of a call, as far as it is needed here. */
  ghost predicate MidCall(c: Config, t: Turn, durable: Option<Checkpoint>) {
    && IdsOk(t) && !t.failed && t.next < |t.pending|
    && (durable.Some? ==> c.hasStore && IdsOk(ResumedTurn(durable.value)))
  }

  lemma InvMidCall(c: Config, s: State)
    requires Inv(c, s) && InCall(s.pc)
    ensures MidCall(c, s.turn, s.durable)
  {
  }

  /** What the process goes on with in the middle of a call. */
  ghost predicate Working(c: Config, e: Env, first: seq<Message>, s: State, r: Request) {
    && Ledger(c, e, first, s.turn, s.trace, s.durable)
    && MidCall(c, s.turn, s.durable) && InCall(s.pc) && Synced(c, s.pc, s.turn, s.durable)
    && CallGoesOn(c, s.turn, r)
  }

  lemma IsWorking(c: Config, e: Env, first: seq<Message>, s: State, r: Request)
    requires Inv(c, s) && Accounted(c, e, first, s)
    requires s.pc == Approving(r) || s.pc == PreSave(r) || s.pc == Invoking(r) || s.pc == Resuming(r)
    ensures Working(c, e, first, s, r)
  {
    hide Account;
    InvMidCall(c, s);
  }

  lemma RequestLedger(c: Config, e: Env, first: seq<Message>, s: State, ev: Event)
    requires RequestOf(ev).Some? && Working(c, e, first, s, RequestOf(ev).value)
    requires ev.AskedApproval? ==> NeedsHuman(c, s.turn.pending[s.turn.next]) && c.canApprove
    requires ev.ResumedInvocation? ==> c.canResume
    ensures Ledger(c, e, first, s.turn, s.trace + [ev], s.durable)
  {
    RequestIsCalls(c, e, |first|, s.turn, s.trace, ev);
    RequestAccount(c, e, first, s.turn, s.trace, ev);
    if s.durable.Some? {
      RequestAccount(c, e, first, ResumedTurn(s.durable.value), s.trace, ev);
    }
    SaveStillFailed(s.trace, ev);
  }

  lemma ApprovalAccounted(c: Config, e: Env, first: seq<Message>, s: State, r: Request, s': State)
    requires Inv(c, s) && Accounted(c, e, first, s) && s.pc == Approving(r) && s' == AskApproval(e, s, r)
    ensures Accounted(c, e, first, s')
  {
    hide Account;
    var answer := e.approve(r, s.now);
    var ev := AskedApproval(r, answer);
    var s1 := s.(now := s.now + 1, trace := s.trace + [ev]);
    IsWorking(c, e, first, s, r);
    RequestLedger(c, e, first, s, ev);
    assert ev in s1.trace;
    match answer
    case Granted => PlaceAccounted(c, e, first, s');
    case Refused =>
      RefusedAnswer(c, e, |first|, s.turn, s1.trace, r);
      RecordAccounted(c, e, first, s1, NotApproved(r.name), false, None, s');
    case AbortedWhileAsking =>
      NotRunAnswer(c, e, |first|, s.turn, s1.trace, Aborted);
      RecordAccounted(c, e, first, s1, NotRun(Aborted), false, Some(Aborted), s');
  }

  lemma RefusedAnswer(c: Config, e: Env, first: nat, t: Turn, trace: seq<Event>, r: Request)
    requires CallGoesOn(c, t, r) && AskedApproval(r, Refused) in trace
    ensures CanAnswer(c, e, first, t, trace, NotApproved(r.name), false)
  {
  }

  lemma PreSaveAccounted(c: Config, e: Env, first: seq<Message>, s: State, r: Request, s1: State, s': State)
    requires Working(c, e, first, s, r) && s' == SaveInFlight(c, e, s, r)
    requires s1 == s.(turn := s.turn.(inFlight := Some(s.turn.pending[s.turn.next].id)))
    ensures Accounted(c, e, first, s')
  {
    hide Account;
    var saved := Save(c, e, s1, ToolsPhase);
    MarkedLedger(c, e, first, s.turn, s.trace, s.durable, s1.turn);
    SaveLedger(c, e, first, s1, ToolsPhase, saved);
    if saved.turn.failed {
      UnsavedAnswer(c, e, |first|, s1, r, saved);
      RecordAccounted(c, e, first, saved, CouldNotSaveFirst, false, Some(CheckpointFailed), s');
    } else {
      PlaceAccounted(c, e, first, s');
    }
  }

  lemma MarkedLedger(c: Config, e: Env, first: seq<Message>, t: Turn, trace: seq<Event>, durable: Option<Checkpoint>,
                     t': Turn)
    requires Ledger(c, e, first, t, trace, durable) && IdsOk(t) && t.next < |t.pending|
    requires t' == t.(inFlight := Some(t.pending[t.next].id))
    ensures Ledger(c, e, first, t', trace, durable) && IdsOk(t')
  {
    hide Account;
    SameAccount(c, e, first, t, trace, t');
  }

  lemma UnsavedAnswer(c: Config, e: Env, first: nat, s: State, r: Request, saved: State)
    requires CallGoesOn(c, s.turn, r) && !s.turn.failed && saved == Save(c, e, s, ToolsPhase) && saved.turn.failed
    requires s.turn.inFlight == Some(s.turn.pending[s.turn.next].id)
    ensures CanAnswer(c, e, first, saved.turn, saved.trace, CouldNotSaveFirst, false)
  {
    hide PendingFrom;
    var k, outcome := Snapshot(c, s.turn, ToolsPhase), e.save(s.now);
    assert saved.trace[|s.trace|] == SavedState(k, outcome);
    assert SavedState(k, outcome) in saved.trace && k.inFlight == s.turn.inFlight;
    assert saved.turn == s.turn.(failed := true);
  }

  lemma RanAccounted(c: Config, e: Env, first: seq<Message>, s: State, r: Request, ev: Event, outcome: ToolOutcome,
                     s': State)
    requires Working(c, e, first, s, r) && s' == RunTool(s, ev, outcome)
    requires (ev == Invoked(r) && outcome == e.invoke(r, s.now))
             || (ev == ResumedInvocation(r) && outcome == e.resumeInvocation(r, s.now) && c.canResume)
    ensures Accounted(c, e, first, s')
  {
    hide Account;
    var s1 := s.(now := s.now + 1, trace := s.trace + [ev]);
    RequestLedger(c, e, first, s, ev);
    RanAnswer(c, e, |first|, s.turn, s1.trace, ev, s.now, outcome);
    RecordAccounted(c, e, first, s1, Ran(outcome.text), outcome.success, None, s');
  }

  lemma RanAnswer(c: Config, e: Env, first: nat, t: Turn, trace: seq<Event>, ev: Event, at: nat, outcome: ToolOutcome)
    requires ev.Invoked? || ev.ResumedInvocation?
    requires ev in trace && CallGoesOn(c, t, RequestOf(ev).value)
    requires outcome == if ev.Invoked? then e.invoke(ev.request, at) else e.resumeInvocation(ev.request, at)
    ensures CanAnswer(c, e, first, t, trace, Ran(outcome.text), outcome.success)
  {
    hide PendingFrom, Becomes;
    assert Did(c, e, trace, t.pending[t.next], outcome.text, outcome.success);
  }

  // ---- Every run ----

  lemma CallStepAccounted(c: Config, e: Env, first: seq<Message>, s: State, s': State)
    requires Lawful(c) && ValidEnv(e) && Inv(c, s) && Accounted(c, e, first, s) && InCall(s.pc)
    requires Wf(c, s) && s' == Step(c, e, s)
    ensures Accounted(c, e, first, s')
  {
    hide Account;
    match s.pc
    case Approving(r) => ApprovalAccounted(c, e, first, s, r, s');
    case PreSave(r) =>
      IsWorking(c, e, first, s, r);
      PreSaveAccounted(c, e, first, s, r, s.(turn := s.turn.(inFlight := Some(s.turn.pending[s.turn.next].id))), s');
    case Invoking(r) =>
      IsWorking(c, e, first, s, r);
      RanAccounted(c, e, first, s, r, Invoked(r), e.invoke(r, s.now), s');
    case Resuming(r) =>
      IsWorking(c, e, first, s, r);
      RanAccounted(c, e, first, s, r, ResumedInvocation(r), e.resumeInvocation(r, s.now), s');
  }

  lemma StepAccounted(c: Config, e: Env, first: seq<Message>, s: State, s': State)
    requires Lawful(c) && ValidEnv(e) && Inv(c, s) && Accounted(c, e, first, s) && Wf(c, s) && s' == Step(c, e, s)
    ensures Accounted(c, e, first, s')
  {
    hide Account;
    match s.pc
    case Head => HeadAccounted(c, e, first, s, s');
    case Asking =>
      var answer := e.model(s.turn.messages, s.now);
      match answer {
        case Failed(aborted) => FailureAccounted(c, e, first, s, aborted, s');
        case Reply(r) => ReplyAccounted(c, e, first, s, r, s');
      }
    case FinalSave => FinalSaveAccounted(c, e, first, s, s');
    case ReplySave => ReplySaveAccounted(c, e, first, s, s');
    case AnswerSave(stop) => AnswerSaveAccounted(c, e, first, s, stop, s');
    case ClearSave(stop) => ClearSaveAccounted(c, e, first, s, stop, s');
    case NextCall(stop) => BeginAccounted(c, e, first, s, stop, s');
    case Done(_) =>
    case _ => CallStepAccounted(c, e, first, s, s');
  }

  lemma FreshAccount(c: Config, e: Env, first: seq<Message>, trace: seq<Event>)
    requires NoRequests(trace)
    ensures Account(c, e, first, FreshTurn(first), trace)
  {
  }

  lemma CrashAccounted(c: Config, e: Env, first: seq<Message>, s: State, s': State)
    requires c.hasStore && Accounted(c, e, first, s) && s' == Crash(first, s)
    ensures Accounted(c, e, first, s')
  {
    hide Account;
    HasStoreOk(c, e, first, s);
    StoreSurvives(c, e, first, s.trace, s.durable, s'.turn, s'.trace);
    if s.durable.Some? {
      assert !s'.turn.failed && Synced(c, Head, s'.turn, s.durable);
    }
    PlaceAccounted(c, e, first, s');
  }

  lemma StoreSurvives(c: Config, e: Env, first: seq<Message>, trace: seq<Event>, durable: Option<Checkpoint>, t': Turn,
                      trace': seq<Event>)
    requires StoreOk(c, e, first, trace, durable) && c.hasStore && trace' == trace + [Restarted]
    requires t' == if durable.Some? then ResumedTurn(durable.value) else FreshTurn(first)
    ensures Ledger(c, e, first, t', trace', durable)
  {
    hide Account;
    if durable.Some? {
      EventAccount(c, e, first, ResumedTurn(durable.value), trace, Restarted);
    } else {
      FreshAccount(c, e, first, trace');
    }
  }

  lemma HasStoreOk(c: Config, e: Env, first: seq<Message>, s: State)
    requires Accounted(c, e, first, s)
    ensures StoreOk(c, e, first, s.trace, s.durable)
  {
    hide Account;
  }

  lemma {:induction false} AlwaysAccounted(c: Config, e: Env, messages: seq<Message>, schedule: seq<bool>)
    requires ValidConfig(c) && ValidEnv(e) && (c.hasStore || true !in schedule)
    ensures Accounted(c, e, messages, Exec(c, e, messages, schedule))
    decreases |schedule|
  {
    hide Account;
    ValidIsLawful(c);
    if schedule == [] {
      FreshAccount(c, e, messages, []);
    } else {
      var front := schedule[..|schedule| - 1];
      assert true in front ==> true in schedule;
      AlwaysAccounted(c, e, messages, front);
      AlwaysInv(c, e, messages, front);
      var s := Exec(c, e, messages, front);
      if schedule[|schedule| - 1] {
        CrashAccounted(c, e, messages, s, Crash(messages, s));
      } else {
        StepAccounted(c, e, messages, s, Step(c, e, s));
      }
    }
  }

  // ---- Main results ----

  lemma AccountedParts(c: Config, e: Env, first: seq<Message>, s: State)
    requires Accounted(c, e, first, s)
    ensures first <= s.turn.messages && Written(c, e, |first|, s.turn.messages, s.trace)
  {
    if s.pc.Done? {
      var k: nat :| k <= s.turn.iterations <= k + 1
                    && Ledger(c, e, first, s.turn.(iterations := k), s.trace, s.durable);
    }
  }

  /**
   * Whatever the model, the tools, the user, the store and crashes do, a message after the first
   * ones is the model's reply to those before it, but for ids and the spelling of tool names, or the
   * answer to a call of such a reply; and what an answer says is true.
   */
  lemma EveryMessageIsTrue(c: Config, e: Env, messages: seq<Message>, schedule: seq<bool>, n: nat)
    requires ValidConfig(c) && ValidEnv(e) && (c.hasStore || true !in schedule)
    requires |messages| <= n < |Exec(c, e, messages, schedule).turn.messages|
    ensures var s := Exec(c, e, messages, schedule);
            && messages <= s.turn.messages
            && Entry(c, e, |messages|, s.turn.messages[..n], s.turn.messages[n], s.trace)
  {
    AlwaysAccounted(c, e, messages, schedule);
    AccountedParts(c, e, messages, Exec(c, e, messages, schedule));
  }

  /**
   * Every approval that was asked for and every invocation, resumed ones included, is what a call
   * in the transcript becomes: the tool is the one the call resolves to, the parameters are those
   * validation let through, its reply was not cut off, and there were tokens left after it.
   */
  lemma EveryRequestIsACall(c: Config, e: Env, messages: seq<Message>, schedule: seq<bool>, k: nat)
    requires ValidConfig(c) && ValidEnv(e) && (c.hasStore || true !in schedule)
    requires k < |Exec(c, e, messages, schedule).trace|
    requires RequestOf(Exec(c, e, messages, schedule).trace[k]).Some?
    ensures var s := Exec(c, e, messages, schedule);
            Requested(c, e, |messages|, s.turn.messages, s.trace[k])
  {
    AlwaysAccounted(c, e, messages, schedule);
    var s := Exec(c, e, messages, schedule);
    AccountedParts(c, e, messages, s);
    assert s.trace[k] in s.trace;
  }

  /**
   * For a call that validation refuses or that resolves to no tool, nobody was ever asked: not the
   * user and not the tool, by no process that worked on the turn.
   */
  lemma UntouchedCallsAreUnasked(c: Config, e: Env, messages: seq<Message>, schedule: seq<bool>, n: nat)
    requires ValidConfig(c) && ValidEnv(e) && (c.hasStore || true !in schedule)
    requires |messages| <= n < |Exec(c, e, messages, schedule).turn.messages|
    requires SaysUntouched(Exec(c, e, messages, schedule).turn.messages[n])
    ensures var s := Exec(c, e, messages, schedule);
            s.turn.messages[n].toolCallId.Some? ==> Unasked(s.trace, s.turn.messages[n].toolCallId.value)
  {
    AlwaysAccounted(c, e, messages, schedule);
    AccountedParts(c, e, messages, Exec(c, e, messages, schedule));
  }

  /** The status of a turn that has ended is why it ended. */
  lemma StatusIsTrue(c: Config, e: Env, messages: seq<Message>, schedule: seq<bool>)
    requires ValidConfig(c) && ValidEnv(e) && (c.hasStore || true !in schedule)
    requires Exec(c, e, messages, schedule).pc.Done?
    ensures var s := Exec(c, e, messages, schedule);
            Ended(c, e, |messages|, s.turn, s.trace, s.pc.status) && (s.pc.status.Completed? ==> !FailedSave(s.trace))
  {
    hide Account, FinalLedger, EndsInFinal, Stopped;
    AlwaysAccounted(c, e, messages, schedule);
    AlwaysInv(c, e, messages, schedule);
  }

  /** Usage and iterations count the replies in the transcript; a model is asked only within both limits. */
  lemma UsageIsTrue(c: Config, e: Env, messages: seq<Message>, schedule: seq<bool>)
    requires ValidConfig(c) && ValidEnv(e) && (c.hasStore || true !in schedule)
    requires !Exec(c, e, messages, schedule).pc.Done?
    ensures var s := Exec(c, e, messages, schedule);
            && Used(c, e, |messages|, s.turn.messages, s.turn.usage, s.turn.iterations)
            && (s.pc.Asking? ==> s.turn.pending == [] && s.turn.iterations < c.maxIterations && !Over(c, s.turn.usage))
  {
    AlwaysAccounted(c, e, messages, schedule);
    AlwaysInv(c, e, messages, schedule);
    var s := Exec(c, e, messages, schedule);
    AccountUsed(c, e, messages, s.turn, s.trace);
  }

  // ---- The turn of one call ----

  /** The state in which the next call has been answered. */
  predicate AnsweredWith(s: State, answer: Answer, s': State)
    requires s.turn.next < |s.turn.pending|
  {
    var call := s.turn.pending[s.turn.next];
    && s'.turn.messages == s.turn.messages + [Message(Tool, Answered(answer), Some(call.id), call.name, true)]
    && s'.turn.next == s.turn.next + 1 && s'.turn.pending == s.turn.pending && s'.turn.inFlight.None?
    && s'.turn.usage == s.turn.usage && s'.turn.iterations == s.turn.iterations
    && s'.trace == s.trace && s'.durable == s.durable
  }

  /** What stops a call whose turn it is: an abort, a stop before it, or the token budget, in this order. */
  ghost function StopsCall(c: Config, e: Env, s: State, stop: Option<Status>): Option<Status> {
    if e.aborted(s.now) then Some(Aborted)
    else if stop.Some? then stop
    else if Over(c, s.turn.usage) then Some(TokenBudget)
    else None
  }

  /** A call that is stopped or cut off is answered so and not looked at any further. */
  lemma StoppedCallIsNotRun(c: Config, e: Env, s: State, stop: Option<Status>)
    requires s.pc == NextCall(stop) && s.turn.next < |s.turn.pending|
    ensures var s', why := Step(c, e, s), StopsCall(c, e, s, stop);
            && (why.Some? ==> AnsweredWith(s, NotRun(why.value), s') && s'.pc == AnswerSave(why))
            && (why.None? && !Whole(s.turn.finish) ==>
                  AnsweredWith(s, CutOff(s.turn.finish.value), s') && s'.pc == AnswerSave(None))
  {
    BeginCallCases(c, e, s, stop, StopBeforeCall(c, e, s, stop));
  }

  /**
   * Any other call is answered at once if it resolves to no tool or has bad parameters, if nobody
   * can be asked or its invocation cannot be taken up again; else it goes on to exactly the
   * request it becomes.
   */
  lemma NextCallExactly(c: Config, e: Env, s: State)
    requires s.pc == NextCall(None) && s.turn.next < |s.turn.pending|
    requires StopsCall(c, e, s, None).None? && Whole(s.turn.finish)
    ensures var s', call := Step(c, e, s), s.turn.pending[s.turn.next];
            var taken := s.turn.inFlight == Some(call.id);
            && (forall problem :: c.resolve(call) == ToolCalls.Unresolved(problem) ==>
                  AnsweredWith(s, CouldNotResolve(problem), s') && s'.pc == AnswerSave(None))
            && (forall tool :: BadCall(c, call, tool) ==>
                  AnsweredWith(s, BadParameters(tool), s') && s'.pc == AnswerSave(None))
            && (forall r :: Becomes(c, call, r) ==>
                  if taken then
                    if c.canResume then s' == s.(now := s.now + 1, pc := Resuming(r))
                    else AnsweredWith(s, CannotResumeSafely, s') && s'.pc == AnswerSave(Some(CheckpointFailed))
                  else if NeedsHuman(c, call) then
                    if c.canApprove then s' == s.(now := s.now + 1, pc := Approving(r))
                    else AnsweredWith(s, NobodyToAsk(r.name), s') && s'.pc == AnswerSave(None)
                  else s' == s.(now := s.now + 1, pc := PreSave(r)))
  {
    BeginCallCases(c, e, s, None, StopBeforeCall(c, e, s, None));
  }
}
