/**
 * What holds at every moment of a turn, whatever the model, the tools, the store, the user
 * and crashes do: which invocations may happen, and that no call is ever invoked twice.
 */
module TurnSafety {
  import opened Wrappers
  import opened TurnMachine
  import opened TurnIds

  function InvokedIds(trace: seq<Event>): set<string> {
    if trace == [] then {}
    else
      var last := trace[|trace| - 1];
      InvokedIds(trace[..|trace| - 1]) + if last.Invoked? then {last.request.id} else {}
  }

  /** A save has failed since the current process started. */
  predicate FailedSave(trace: seq<Event>) {
    trace != [] &&
    match trace[|trace| - 1]
    case Restarted => false
    case SavedState(_, outcome) => outcome != Saved || FailedSave(trace[..|trace| - 1])
    case _ => FailedSave(trace[..|trace| - 1])
  }

  /** The request names an allowed tool, and a human agreed to this very request if that tool needs it. */
  ghost predicate Permitted(c: Config, past: seq<Event>, r: Request) {
    exists spec :: && spec in c.tools && spec.name == r.name
                   && (spec.NeedsApproval() ==> AskedApproval(r, Granted) in past)
  }

  /** Some process saved the call as in flight. */
  ghost predicate SavedInFlight(past: seq<Event>, id: string) {
    exists k, o :: SavedState(k, o) in past && k.inFlight == Some(id)
  }

  /** The event just before is a successful save that names the call as in flight. */
  predicate JustSavedInFlight(past: seq<Event>, id: string) {
    && past != []
    && var last := past[|past| - 1];
    && last.SavedState? && last.outcome == Saved && last.checkpoint.inFlight == Some(id)
  }

  /** What must have happened before an event for it to be allowed. */
  ghost predicate Justified(c: Config, past: seq<Event>, ev: Event) {
    match ev
    case Invoked(r) =>
      && r.id !in InvokedIds(past)
      && !FailedSave(past)
      && (c.hasStore ==> JustSavedInFlight(past, r.id))
      && Permitted(c, past, r)
    case ResumedInvocation(r) =>
      && !FailedSave(past)
      && (c.hasStore ==> SavedInFlight(past, r.id))
      && Permitted(c, past, r)
    case _ => true
  }

  ghost predicate AllJustified(c: Config, trace: seq<Event>) {
    forall k :: 0 <= k < |trace| ==> Justified(c, trace[..k], trace[k])
  }

  lemma AppendJustified(c: Config, trace: seq<Event>, ev: Event)
    requires AllJustified(c, trace) && Justified(c, trace, ev)
    ensures AllJustified(c, trace + [ev])
  {
    var longer := trace + [ev];
    forall k | 0 <= k < |longer| ensures Justified(c, longer[..k], longer[k]) {
      if k < |trace| {
        assert longer[..k] == trace[..k];
      } else {
        assert longer[..k] == trace;
      }
    }
  }

  lemma InvokedIdsAppend(trace: seq<Event>, ev: Event)
    ensures InvokedIds(trace + [ev]) == InvokedIds(trace) + if ev.Invoked? then {ev.request.id} else {}
    ensures FailedSave(trace + [ev]) ==
            match ev
            case Restarted => false
            case SavedState(_, outcome) => outcome != Saved || FailedSave(trace)
            case _ => FailedSave(trace)
  {
    assert (trace + [ev])[..|trace|] == trace;
  }

  // ---- The invariant ----

  /**
   * A memory image and the history agree: an id that was already invoked is answered, or is
   * the one call marked in flight; and the call in flight was prepared and permitted.
   */
  ghost predicate Guarded(c: Config, t: Turn, trace: seq<Event>) {
    && t.next <= |t.pending|
    && InvokedIds(trace) <= t.seen
    && (forall i :: t.next <= i < |t.pending| && t.pending[i].id in InvokedIds(trace)
                    ==> i == t.next && t.inFlight == Some(t.pending[i].id))
    && (t.inFlight.Some? ==>
          && t.next < |t.pending|
          && var p := Prepare(c, t.pending[t.next]);
          && p.Runnable? && Permitted(c, trace, p.request))
  }

  ghost predicate PcOk(c: Config, pc: Pc, t: Turn, trace: seq<Event>, durable: Option<Checkpoint>) {
    match pc
    case Approving(r) => InCallOk(c, t, r) && t.inFlight.None? && !t.failed
    case PreSave(r) => InCallOk(c, t, r) && t.inFlight.None? && !t.failed && Permitted(c, trace, r)
    case Invoking(r) =>
      && InCallOk(c, t, r) && t.inFlight == Some(r.id) && !t.failed && Permitted(c, trace, r)
      && r.id !in InvokedIds(trace)
      && (c.hasStore ==>
            && JustSavedInFlight(trace, r.id)
            && durable == Some(Snapshot(c, t, ToolsPhase)))
    case Resuming(r) =>
      && InCallOk(c, t, r) && t.inFlight == Some(r.id) && !t.failed && Permitted(c, trace, r)
      && (c.hasStore ==> SavedInFlight(trace, r.id))
    case NextCall(stop) => (t.failed ==> stop.Some?) && InFlightSaved(c, t, trace)
    case Head => InFlightSaved(c, t, trace)
    case Asking => t.pending == [] && t.iterations < c.maxIterations
    case AnswerSave(stop) => t.inFlight.None? && (t.failed ==> stop.Some?)
    case ClearSave(_) => t.next >= |t.pending|
    case FinalSave => t.pending == []
    case ReplySave => t.inFlight.None?
    case Done(_) => true
  }

  ghost predicate InFlightSaved(c: Config, t: Turn, trace: seq<Event>) {
    t.inFlight.Some? && c.hasStore ==> SavedInFlight(trace, t.inFlight.value)
  }

  /** The process works on exactly this request, and it is what its next pending call resolves to. */
  ghost predicate InCallOk(c: Config, t: Turn, r: Request) {
    && t.next < |t.pending|
    && r.id == t.pending[t.next].id
    && var p := Prepare(c, t.pending[t.next]);
    && p.Runnable? && p.request == r
  }

  ghost predicate DurableOk(c: Config, trace: seq<Event>, durable: Option<Checkpoint>) {
    match durable
    case None => c.hasStore ==> InvokedIds(trace) == {}
    case Some(k) => c.hasStore && ImageOk(c, ResumedTurn(k), trace) && InFlightSaved(c, ResumedTurn(k), trace)
  }

  ghost predicate ImageOk(c: Config, t: Turn, trace: seq<Event>) {
    IdsOk(t) && Guarded(c, t, trace)
  }

  /** The part of the invariant that does not depend on where the process stands. */
  ghost predicate Books(c: Config, t: Turn, trace: seq<Event>, durable: Option<Checkpoint>) {
    && ImageOk(c, t, trace)
    && DurableOk(c, trace, durable)
    && AllJustified(c, trace)
    && (FailedSave(trace) ==> t.failed)
  }

  ghost predicate Inv(c: Config, s: State) {
    && Books(c, s.turn, s.trace, s.durable)
    && PcOk(c, s.pc, s.turn, s.trace, s.durable)
  }

  // ---- Preservation ----

  lemma GuardedGrows(c: Config, t: Turn, trace: seq<Event>, ev: Event)
    requires Guarded(c, t, trace) && !ev.Invoked?
    ensures Guarded(c, t, trace + [ev])
    ensures InFlightSaved(c, t, trace) ==> InFlightSaved(c, t, trace + [ev])
  {
    InvokedIdsAppend(trace, ev);
    if t.inFlight.Some? {
      PermittedGrows(c, trace, ev, Prepare(c, t.pending[t.next]).request);
    }
  }

  lemma PermittedGrows(c: Config, trace: seq<Event>, ev: Event, r: Request)
    requires Permitted(c, trace, r)
    ensures Permitted(c, trace + [ev], r)
  {
    var spec :| spec in c.tools && spec.name == r.name
                && (spec.NeedsApproval() ==> AskedApproval(r, Granted) in trace);
    assert spec.NeedsApproval() ==> AskedApproval(r, Granted) in trace + [ev];
  }

  /** An event that is neither an invocation nor a save leaves the bookkeeping intact. */
  lemma NoteEvent(c: Config, t: Turn, trace: seq<Event>, durable: Option<Checkpoint>, ev: Event)
    requires Books(c, t, trace, durable)
    requires !ev.Invoked? && !ev.SavedState? && Justified(c, trace, ev)
    ensures Books(c, t, trace + [ev], durable)
  {
    InvokedIdsAppend(trace, ev);
    AppendJustified(c, trace, ev);
    GuardedGrows(c, t, trace, ev);
    if durable.Some? { GuardedGrows(c, ResumedTurn(durable.value), trace, ev); }
  }

  lemma RecordKeeps(c: Config, s: State, answer: Answer, success: bool, stop: Option<Status>)
    requires Books(c, s.turn, s.trace, s.durable)
    requires s.turn.next < |s.turn.pending| && (s.turn.failed ==> stop.Some?)
    ensures Inv(c, Record(s, answer, success, stop))
  {
    RecordKeepsIds(s, answer, success, stop);
    var t, t' := s.turn, Record(s, answer, success, stop).turn;
    assert t'.seen == t.seen;
  }

  /** What a checkpoint holds agrees with the history as well as the memory it was taken from. */
  lemma SnapshotOk(c: Config, t: Turn, phase: Phase, trace: seq<Event>, outcome: SaveOutcome)
    requires ImageOk(c, t, trace) && (phase.ModelPhase? ==> t.pending == [])
    ensures var d := ResumedTurn(Snapshot(c, t, phase));
            && ImageOk(c, d, trace)
            && InFlightSaved(c, d, trace + [SavedState(Snapshot(c, t, phase), outcome)])
  {
    var k := Snapshot(c, t, phase);
    var d := ResumedTurn(k);
    assert d.messages == t.messages && d.pending == t.pending && d.seen == t.seen;
    if d.inFlight.Some? {
      assert SavedState(k, outcome) in trace + [SavedState(k, outcome)] && k.inFlight == d.inFlight;
    }
  }

  lemma SavedBooks(c: Config, t: Turn, phase: Phase, trace: seq<Event>, durable: Option<Checkpoint>,
                   outcome: SaveOutcome)
    requires Books(c, t, trace, durable) && !t.failed && c.hasStore
    requires phase.ModelPhase? ==> t.pending == []
    ensures var k := Snapshot(c, t, phase);
            Books(c, t.(failed := outcome != Saved), trace + [SavedState(k, outcome)],
                  if outcome == Lost then durable else Some(k))
  {
    var k := Snapshot(c, t, phase);
    var ev := SavedState(k, outcome);
    InvokedIdsAppend(trace, ev);
    AppendJustified(c, trace, ev);
    GuardedGrows(c, t, trace, ev);
    if durable.Some? { GuardedGrows(c, ResumedTurn(durable.value), trace, ev); }
    SnapshotOk(c, t, phase, trace, outcome);
    GuardedGrows(c, ResumedTurn(k), trace, ev);
  }

  /** A save keeps the bookkeeping and makes the current memory image durable unless it is lost. */
  lemma SaveKeeps(c: Config, e: Env, s: State, phase: Phase)
    requires Books(c, s.turn, s.trace, s.durable)
    requires phase.ModelPhase? ==> s.turn.pending == []
    ensures var s' := Save(c, e, s, phase);
            && s'.turn == s.turn.(failed := s'.turn.failed) && s'.pc == s.pc
            && Books(c, s'.turn, s'.trace, s'.durable)
            && (InFlightSaved(c, s.turn, s.trace) ==> InFlightSaved(c, s'.turn, s'.trace))
  {
    if !s.turn.failed && c.hasStore {
      SavedBooks(c, s.turn, phase, s.trace, s.durable, e.save(s.now));
    }
  }

  lemma TakeReplyKeeps(c: Config, t: Turn, trace: seq<Event>, durable: Option<Checkpoint>, r: Response, t': Turn)
    requires Lawful(c) && WellFormedResponse(r) && Books(c, t, trace, durable) && t.pending == []
    requires t' == TakeReply(c, t, r)
    ensures Books(c, t', trace, durable)
    ensures PcOk(c, if r.calls == [] then FinalSave else ReplySave, t', trace, durable)
  {
    TakeReplyKeepsIds(c, t, r);
    NewIdsAreGuarded(c, t, r, trace);
  }

  lemma AskedBooks(c: Config, t: Turn, t': Turn, trace: seq<Event>, durable: Option<Checkpoint>)
    requires Books(c, t, trace, durable) && t' == t.(iterations := t'.iterations)
    ensures Books(c, t', trace + [AskedModel(t'.iterations)], durable)
  {
    NoteEvent(c, t, trace, durable, AskedModel(t'.iterations));
    assert ImageOk(c, t', trace + [AskedModel(t'.iterations)]);
  }

  lemma AskModelKeeps(c: Config, e: Env, s: State)
    requires Lawful(c) && ValidEnv(e) && Books(c, s.turn, s.trace, s.durable) && s.turn.pending == []
    ensures Inv(c, AskModel(c, e, s))
  {
    var t := s.turn.(iterations := s.turn.iterations + 1);
    AskedBooks(c, s.turn, t, s.trace, s.durable);
    var answer := e.model(t.messages, s.now);
    match answer
    case Failed(aborted) => FailureKeeps(c, e, s, t, aborted);
    case Reply(r) => ReplyKeeps(c, e, s, t, r, TakeReply(c, t, r));
  }

  lemma FailureKeeps(c: Config, e: Env, s: State, t: Turn, aborted: bool)
    requires Books(c, t, s.trace + [AskedModel(t.iterations)], s.durable)
    requires t == s.turn.(iterations := s.turn.iterations + 1) && e.model(t.messages, s.now) == Failed(aborted)
    ensures Inv(c, AskModel(c, e, s))
  {
  }

  lemma ReplyKeeps(c: Config, e: Env, s: State, t: Turn, r: Response, t': Turn)
    requires Lawful(c) && WellFormedResponse(r) && t.pending == []
    requires Books(c, t, s.trace + [AskedModel(t.iterations)], s.durable)
    requires t == s.turn.(iterations := s.turn.iterations + 1) && e.model(t.messages, s.now) == Reply(r)
             && t' == TakeReply(c, t, r)
    ensures Inv(c, AskModel(c, e, s))
  {
    TakeReplyKeeps(c, t, s.trace + [AskedModel(t.iterations)], s.durable, r, t');
    AskedModelPc(c, e, s, r, t');
  }

  lemma AskedModelPc(c: Config, e: Env, s: State, r: Response, t': Turn)
    requires var t := s.turn.(iterations := s.turn.iterations + 1);
             e.model(t.messages, s.now) == Reply(r) && t' == TakeReply(c, t, r)
    ensures AskModel(c, e, s) == State(t', if r.calls == [] then FinalSave else ReplySave, s.now + 1,
                                       s.trace + [AskedModel(s.turn.iterations + 1)], s.durable)
  {
  }

  lemma HeadKeeps(c: Config, e: Env, s: State)
    requires Inv(c, s) && s.pc.Head?
    ensures Inv(c, LoopHead(c, e, s))
  {
    var s' := LoopHead(c, e, s);
    assert s' == s.(now := s.now + 1, pc := s'.pc);
    HeadPcKeeps(c, e, s, s'.pc);
  }

  lemma HeadPcKeeps(c: Config, e: Env, s: State, pc: Pc)
    requires Inv(c, s) && s.pc.Head? && pc == LoopHead(c, e, s).pc
    ensures PcOk(c, pc, s.turn, s.trace, s.durable)
  {
  }

  /** Ids of a new reply were never invoked: they differ from every id seen before. */
  lemma NewIdsAreGuarded(c: Config, t: Turn, r: Response, trace: seq<Event>)
    requires Lawful(c) && WellFormedResponse(r) && IdsOk(t) && t.pending == [] && Guarded(c, t, trace)
    ensures Guarded(c, TakeReply(c, t, r), trace)
  {
    ReplyMessageIds(c, t, r);
    var t' := TakeReply(c, t, r);
    var ids := c.assignIds(CallIds(r.calls), t.seen, t.iterations);
    if r.calls != [] {
      forall i | 0 <= i < |t'.pending| ensures t'.pending[i].id !in InvokedIds(trace) {
        assert t'.pending[i].id == CallIds(t'.pending)[i] == ids[i];
      }
    }
  }

  /** A call that can run names an allowed tool and keeps its id. */
  lemma PreparedIsAllowed(c: Config, call: Call)
    requires Lawful(c)
    ensures var p := Prepare(c, call);
            p.Runnable? ==> p.spec in c.tools && p.request.name == p.spec.name && p.request.id == call.id
  {
  }

  lemma BeginCallKeeps(c: Config, e: Env, s: State, stop: Option<Status>)
    requires Lawful(c) && Inv(c, s) && s.pc == NextCall(stop)
    ensures Inv(c, BeginCall(c, e, s, stop))
  {
    var t := s.turn;
    if t.next < |t.pending| {
      var stop' := StopBeforeCall(c, e, s, stop);
      BeginCallCases(c, e, s, stop, stop');
      if stop'.Some? {
        RecordKeeps(c, s.(now := s.now + 1), NotRun(stop'.value), false, stop');
      } else if WasCutOff(t) {
        RecordKeeps(c, s.(now := s.now + 1), CutOff(t.finish.value), false, None);
      } else {
        StartCallKeeps(c, s.(now := s.now + 1));
      }
    }
  }

  lemma StartCallKeeps(c: Config, s: State)
    requires Lawful(c) && Books(c, s.turn, s.trace, s.durable) && InFlightSaved(c, s.turn, s.trace) && !s.turn.failed
    requires s.turn.next < |s.turn.pending|
    ensures Inv(c, StartCall(c, s, Prepare(c, s.turn.pending[s.turn.next])))
  {
    PreparedIsAllowed(c, s.turn.pending[s.turn.next]);
    StartKeeps(c, s, Prepare(c, s.turn.pending[s.turn.next]));
  }

  lemma StartKeeps(c: Config, s: State, p: Prepared)
    requires Books(c, s.turn, s.trace, s.durable) && InFlightSaved(c, s.turn, s.trace) && !s.turn.failed
    requires s.turn.next < |s.turn.pending| && p == Prepare(c, s.turn.pending[s.turn.next])
    requires p.Runnable? ==> p.spec in c.tools && p.request.name == p.spec.name
                             && p.request.id == s.turn.pending[s.turn.next].id
    ensures Inv(c, StartCall(c, s, p))
  {
    var resuming := s.turn.inFlight == Some(s.turn.pending[s.turn.next].id);
    if p.NotRunnable? {
      RecordKeeps(c, s, p.answer, false, None);
    } else if !resuming && p.spec.NeedsApproval() && !c.canApprove {
      RecordKeeps(c, s, NobodyToAsk(p.spec.name), false, None);
    } else if !resuming {
      assert s.turn.inFlight.None?;
      assert !p.spec.NeedsApproval() ==> Permitted(c, s.trace, p.request);
    } else if !c.canResume {
      RecordKeeps(c, s, CannotResumeSafely, false, Some(CheckpointFailed));
    }
  }

  lemma ApprovalKeeps(c: Config, e: Env, s: State, r: Request)
    requires Lawful(c) && Inv(c, s) && s.pc == Approving(r)
    ensures Inv(c, AskApproval(e, s, r))
  {
    var answer := e.approve(r, s.now);
    var ev := AskedApproval(r, answer);
    NoteEvent(c, s.turn, s.trace, s.durable, ev);
    var s' := s.(now := s.now + 1, trace := s.trace + [ev]);
    match answer
    case Granted => GrantedKeeps(c, s, s', r);
    case Refused => RecordKeeps(c, s', NotApproved(r.name), false, None);
    case AbortedWhileAsking => RecordKeeps(c, s', NotRun(Aborted), false, Some(Aborted));
  }

  lemma GrantedKeeps(c: Config, s: State, s': State, r: Request)
    requires Lawful(c) && Inv(c, s) && s.pc == Approving(r)
    requires s'.turn == s.turn && s'.trace == s.trace + [AskedApproval(r, Granted)]
    requires Books(c, s'.turn, s'.trace, s'.durable)
    ensures Inv(c, s'.(pc := PreSave(r)))
  {
    var call := s.turn.pending[s.turn.next];
    PreparedIsAllowed(c, call);
    var spec := Prepare(c, call).spec;
    assert spec in c.tools && spec.name == r.name && AskedApproval(r, Granted) in s'.trace;
    InvokedIdsAppend(s.trace, AskedApproval(r, Granted));
  }

  lemma SaveInFlightKeeps(c: Config, e: Env, s: State, r: Request)
    requires Inv(c, s) && s.pc == PreSave(r)
    ensures Inv(c, SaveInFlight(c, e, s, r))
  {
    var s1 := s.(turn := s.turn.(inFlight := Some(r.id)));
    assert r.id !in InvokedIds(s.trace);
    assert Books(c, s1.turn, s1.trace, s1.durable);
    SaveKeeps(c, e, s1, ToolsPhase);
    var s2 := Save(c, e, s1, ToolsPhase);
    if s2.turn.failed {
      RecordKeeps(c, s2, CouldNotSaveFirst, false, Some(CheckpointFailed));
    } else if c.hasStore {
      var ev := SavedState(Snapshot(c, s1.turn, ToolsPhase), Saved);
      assert s2.trace == s.trace + [ev];
      PermittedGrows(c, s.trace, ev, r);
      InvokedIdsAppend(s.trace, ev);
    }
  }

  /** Once invoked, an image that marks the call as in flight stays guarded. */
  lemma GuardedAfterInvoke(c: Config, t: Turn, trace: seq<Event>, r: Request)
    requires IdsOk(t) && Guarded(c, t, trace) && t.inFlight == Some(r.id)
    ensures Guarded(c, t, trace + [Invoked(r)])
    ensures InFlightSaved(c, t, trace) ==> InFlightSaved(c, t, trace + [Invoked(r)])
  {
    InvokedIdsAppend(trace, Invoked(r));
    PermittedGrows(c, trace, Invoked(r), Prepare(c, t.pending[t.next]).request);
    if t.inFlight.Some? && c.hasStore && SavedInFlight(trace, r.id) {
      var k, o :| SavedState(k, o) in trace && k.inFlight == Some(r.id);
      assert SavedState(k, o) in trace + [Invoked(r)];
    }
  }

  lemma InvokeKeeps(c: Config, e: Env, s: State, r: Request)
    requires Inv(c, s) && s.pc == Invoking(r)
    ensures Inv(c, RunTool(s, Invoked(r), e.invoke(r, s.now)))
  {
    var ev := Invoked(r);
    InvokedIdsAppend(s.trace, ev);
    AppendJustified(c, s.trace, ev);
    GuardedAfterInvoke(c, s.turn, s.trace, r);
    var s1 := s.(now := s.now + 1, trace := s.trace + [ev]);
    assert DurableOk(c, s1.trace, s1.durable) by {
      if s.durable.Some? && c.hasStore {
        GuardedAfterInvoke(c, ResumedTurn(s.durable.value), s.trace, r);
      } else if s.durable.Some? {
        assert false;
      }
    }
    RecordKeeps(c, s1, Ran(e.invoke(r, s.now).text), e.invoke(r, s.now).success, None);
  }

  lemma ResumeKeeps(c: Config, e: Env, s: State, r: Request)
    requires Inv(c, s) && s.pc == Resuming(r)
    ensures Inv(c, RunTool(s, ResumedInvocation(r), e.resumeInvocation(r, s.now)))
  {
    var ev := ResumedInvocation(r);
    NoteEvent(c, s.turn, s.trace, s.durable, ev);
    var s1 := s.(now := s.now + 1, trace := s.trace + [ev]);
    RecordKeeps(c, s1, Ran(e.resumeInvocation(r, s.now).text), e.resumeInvocation(r, s.now).success, None);
  }

  lemma SaveStepKeeps(c: Config, e: Env, s: State)
    requires Inv(c, s) && (s.pc.FinalSave? || s.pc.ReplySave? || s.pc.AnswerSave?)
    ensures Inv(c, Step(c, e, s))
  {
    SaveKeeps(c, e, s, if s.pc.FinalSave? then ModelPhase else ToolsPhase);
  }

  lemma ClearStepKeeps(c: Config, e: Env, s: State)
    requires Inv(c, s) && s.pc.ClearSave?
    ensures Inv(c, Step(c, e, s))
  {
    ClearedBooks(c, s.turn, s.trace, s.durable);
    SaveKeeps(c, e, s.(turn := Cleared(s.turn)), ModelPhase);
  }

  lemma ClearedBooks(c: Config, t: Turn, trace: seq<Event>, durable: Option<Checkpoint>)
    requires Books(c, t, trace, durable)
    ensures Books(c, Cleared(t), trace, durable)
  {
  }

  lemma ApprovalStepKeeps(c: Config, e: Env, s: State, r: Request)
    requires Lawful(c) && Inv(c, s) && s.pc == Approving(r)
    ensures Inv(c, Step(c, e, s))
  {
    ApprovalKeeps(c, e, s, r);
    assert Step(c, e, s) == AskApproval(e, s, r);
  }

  lemma PreSaveStepKeeps(c: Config, e: Env, s: State, r: Request)
    requires Lawful(c) && Inv(c, s) && s.pc == PreSave(r)
    ensures Inv(c, Step(c, e, s))
  {
    SaveInFlightKeeps(c, e, s, r);
    assert Step(c, e, s) == SaveInFlight(c, e, s, r);
  }

  lemma InvokeStepKeeps(c: Config, e: Env, s: State, r: Request)
    requires Lawful(c) && Inv(c, s) && s.pc == Invoking(r)
    ensures Inv(c, Step(c, e, s))
  {
    InvokeKeeps(c, e, s, r);
    assert Step(c, e, s) == RunTool(s, Invoked(r), e.invoke(r, s.now));
  }

  lemma ResumeStepKeeps(c: Config, e: Env, s: State, r: Request)
    requires Lawful(c) && Inv(c, s) && s.pc == Resuming(r)
    ensures Inv(c, Step(c, e, s))
  {
    ResumeKeeps(c, e, s, r);
    assert Step(c, e, s) == RunTool(s, ResumedInvocation(r), e.resumeInvocation(r, s.now));
  }

  lemma InCallStepKeeps(c: Config, e: Env, s: State)
    requires Lawful(c) && Inv(c, s) && InCall(s.pc)
    ensures Inv(c, Step(c, e, s))
  {
    match s.pc
    case Approving(r) => ApprovalStepKeeps(c, e, s, r);
    case PreSave(r) => PreSaveStepKeeps(c, e, s, r);
    case Invoking(r) => InvokeStepKeeps(c, e, s, r);
    case Resuming(r) => ResumeStepKeeps(c, e, s, r);
  }

  lemma StepKeeps(c: Config, e: Env, s: State)
    requires Lawful(c) && ValidEnv(e) && Inv(c, s)
    ensures Wf(c, s) && Inv(c, Step(c, e, s))
  {
    if InCall(s.pc) {
      InCallStepKeeps(c, e, s);
    } else if s.pc.FinalSave? || s.pc.ReplySave? || s.pc.AnswerSave? {
      SaveStepKeeps(c, e, s);
    } else {
      match s.pc
      case Head => HeadKeeps(c, e, s);
      case Asking => AskModelKeeps(c, e, s);
      case NextCall(stop) => BeginCallKeeps(c, e, s, stop);
      case ClearSave(_) => ClearStepKeeps(c, e, s);
      case Done(_) =>
    }
  }

  lemma CrashKeeps(c: Config, messages: seq<Message>, s: State)
    requires Inv(c, s) && c.hasStore
    ensures Inv(c, Crash(messages, s))
  {
    InvokedIdsAppend(s.trace, Restarted);
    AppendJustified(c, s.trace, Restarted);
    if s.durable.Some? {
      GuardedGrows(c, ResumedTurn(s.durable.value), s.trace, Restarted);
    }
  }

  /** The invariant holds after any schedule of steps and crashes; a host that cannot store has no crashes to resume. */
  lemma {:induction false} AlwaysInv(c: Config, e: Env, messages: seq<Message>, schedule: seq<bool>)
    requires ValidConfig(c) && ValidEnv(e) && (c.hasStore || true !in schedule)
    ensures Inv(c, Exec(c, e, messages, schedule))
    decreases |schedule|
  {
    ValidIsLawful(c);
    if schedule != [] {
      var front := schedule[..|schedule| - 1];
      assert true in front ==> true in schedule;
      AlwaysInv(c, e, messages, front);
      var s := Exec(c, e, messages, front);
      if schedule[|schedule| - 1] {
        CrashKeeps(c, messages, s);
      } else {
        StepKeeps(c, e, s);
      }
    }
  }

  // ---- Main results ----

  /**
   * Every tool run is justified by its past: it is an allowed tool, a human agreed if needed,
   * no save has failed since the process started, an invocation directly follows the save that
   * names its call in flight, and its id was not invoked before by any process.
   */
  lemma EveryRunIsJustified(c: Config, e: Env, messages: seq<Message>, schedule: seq<bool>, k: nat)
    requires ValidConfig(c) && ValidEnv(e) && (c.hasStore || true !in schedule)
    requires k < |Exec(c, e, messages, schedule).trace|
    ensures var trace := Exec(c, e, messages, schedule).trace;
            Justified(c, trace[..k], trace[k])
  {
    AlwaysInv(c, e, messages, schedule);
  }

  /** Across any number of crashes and resumes, no call id reaches `invoke` twice. */
  lemma InvokedAtMostOnce(c: Config, e: Env, messages: seq<Message>, schedule: seq<bool>, i: nat, j: nat)
    requires ValidConfig(c) && ValidEnv(e) && (c.hasStore || true !in schedule)
    requires i < j < |Exec(c, e, messages, schedule).trace|
    ensures var trace := Exec(c, e, messages, schedule).trace;
            trace[i].Invoked? && trace[j].Invoked? ==> trace[i].request.id != trace[j].request.id
  {
    var trace := Exec(c, e, messages, schedule).trace;
    AlwaysInv(c, e, messages, schedule);
    if trace[i].Invoked? && trace[j].Invoked? {
      assert Justified(c, trace[..j], trace[j]);
      InvokedIdsContain(trace[..j], i);
    }
  }

  /** Running to the end is one of the schedules, so all of the above holds of finished turns too. */
  lemma {:induction false} FinishedRunIsScheduled(c: Config, e: Env, messages: seq<Message>, schedule: seq<bool>)
    returns (longer: seq<bool>)
    ensures Exec(c, e, messages, longer) == Run(c, e, Exec(c, e, messages, schedule))
    ensures schedule <= longer && (true in longer <==> true in schedule)
    decreases CallsLeft(c, Exec(c, e, messages, schedule)), WorkLeft(Exec(c, e, messages, schedule))
  {
    var s := Exec(c, e, messages, schedule);
    if s.pc.Done? {
      longer := schedule;
    } else {
      var more := schedule + [false];
      assert more[..|schedule|] == schedule;
      StepMakesProgress(c, e, s);
      longer := FinishedRunIsScheduled(c, e, messages, more);
    }
  }

  lemma {:induction false} InvokedIdsContain(trace: seq<Event>, i: nat)
    requires i < |trace| && trace[i].Invoked?
    ensures trace[i].request.id in InvokedIds(trace)
    decreases |trace|
  {
    if i < |trace| - 1 {
      InvokedIdsContain(trace[..|trace| - 1], i);
    }
  }

  // ---- The first steps of a turn whose model calls one tool ----

  lemma HeadAsks(c: Config, e: Env, s: State)
    requires s.pc == Head && s.turn.pending == [] && s.turn.iterations < c.maxIterations
    requires !OverBudget(c, s.turn) && !e.aborted(s.now)
    ensures Step(c, e, s) == s.(now := s.now + 1, pc := Asking)
  {
  }

  lemma AskOpensCall(c: Config, e: Env, s: State, r: Response)
    requires Lawful(c) && |r.calls| == 1 && e.model(s.turn.messages, s.now) == Reply(r)
    ensures var s' := AskModel(c, e, s);
            && s'.pc == ReplySave && s'.now == s.now + 1 && OneCallOpen(s.turn, r, s'.turn)
  {
    var t := s.turn.(iterations := s.turn.iterations + 1);
    CallOpens(c, t, r);
    AskedModelPc(c, e, s, r, TakeReply(c, t, r));
  }

  lemma ReplyStored(c: Config, e: Env, s: State)
    requires s.pc == ReplySave && e.save(s.now) == Saved && !s.turn.failed && c.hasStore
    ensures Step(c, e, s).pc == Head && Step(c, e, s).turn == s.turn && Step(c, e, s).now == s.now + 1
  {
  }

  /** The turn after a reply with one call. */
  predicate OneCallOpen(t: Turn, r: Response, t': Turn) {
    && |t'.pending| == 1 && t'.next == 0 && t'.failed == t.failed
    && t'.usage == AddUsage(t.usage, r.usage) && t'.iterations == t.iterations + 1
  }

  lemma OneReply(c: Config, e: Env, s: State, r: Response)
    requires Lawful(c) && s.pc == Head && s.turn.pending == [] && s.turn.iterations < c.maxIterations
    requires !OverBudget(c, s.turn) && !s.turn.failed && c.hasStore
    requires !e.aborted(s.now) && e.model(s.turn.messages, s.now + 1) == Reply(r) && e.save(s.now + 2) == Saved
             && |r.calls| == 1
    ensures var s3 := Step(c, e, Step(c, e, Step(c, e, s)));
            s3.pc == Head && s3.now == s.now + 3 && OneCallOpen(s.turn, r, s3.turn)
  {
    HeadAsks(c, e, s);
    var s1 := s.(now := s.now + 1, pc := Asking);
    AskOpensCall(c, e, s1, r);
    ReplyStored(c, e, AskModel(c, e, s1));
  }
}
