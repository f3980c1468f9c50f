/**
 * The transcript promise: every tool call the model emits is followed, in order, by exactly
 * one tool result, so the transcript can always be sent to a provider again.
 */
module TurnTranscript {
  import opened Wrappers
  import ToolCalls
  import opened TurnMachine
  import opened TurnIds
  import opened TurnSafety

  /**
   * Reads one more message: results must answer the calls still open, in order; nothing else
   * may come while calls are open; new calls may open only when none is left.
   */
  function ReadMessage(open: seq<string>, m: Message): Option<seq<string>> {
    var results, uses := ResultsOf(m), UsesOf(m);
    if open != [] && results == [] then None
    else if !(results <= open) then None
    else if open[|results|..] != [] && uses != [] then None
    else Some(open[|results|..] + uses)
  }

  /** The calls still open at the end of a transcript, or None if it breaks the promise somewhere. */
  function OpenCalls(ms: seq<Message>): Option<seq<string>> {
    if ms == [] then Some([])
    else
      match OpenCalls(ms[..|ms| - 1])
      case None => None
      case Some(open) => ReadMessage(open, ms[|ms| - 1])
  }

  /** Every call is answered. */
  predicate Closed(ms: seq<Message>) {
    OpenCalls(ms) == Some([])
  }

  /** The calls still open are exactly the pending ones from `next` on. */
  ghost predicate OpenArePending(messages: seq<Message>, pending: seq<Call>, next: nat) {
    && next <= |pending|
    && OpenCalls(messages) == Some(CallIds(pending)[next..])
  }

  ghost predicate TranscriptOk(t: Turn) {
    OpenArePending(t.messages, t.pending, t.next)
  }

  ghost predicate CheckpointOk(k: Checkpoint) {
    OpenArePending(k.messages, k.pending, k.next)
  }

  ghost predicate AllSavesOk(trace: seq<Event>) {
    forall i :: 0 <= i < |trace| && trace[i].SavedState? ==> CheckpointOk(trace[i].checkpoint)
  }

  ghost predicate ShapeOk(t: Turn, trace: seq<Event>, durable: Option<Checkpoint>) {
    && TranscriptOk(t)
    && AllSavesOk(trace)
    && (durable.Some? ==> CheckpointOk(durable.value))
  }

  ghost predicate Shape(s: State) {
    ShapeOk(s.turn, s.trace, s.durable)
  }

  lemma OpenCallsAppend(ms: seq<Message>, m: Message)
    ensures OpenCalls(ms + [m]) ==
            match OpenCalls(ms) case None => None case Some(open) => ReadMessage(open, m)
  {
    assert (ms + [m])[..|ms|] == ms;
  }

  /** A message that only opens calls, read when none is open. */
  lemma OpensCalls(ms: seq<Message>, m: Message)
    requires Closed(ms) && ResultsOf(m) == []
    ensures OpenCalls(ms + [m]) == Some(UsesOf(m))
  {
    OpenCallsAppend(ms, m);
    assert [] + UsesOf(m) == UsesOf(m);
  }

  /** A message that answers the first open call. */
  lemma AnswersFirst(ms: seq<Message>, m: Message, open: seq<string>)
    requires OpenCalls(ms) == Some(open) && open != []
    requires ResultsOf(m) == [open[0]] && UsesOf(m) == []
    ensures OpenCalls(ms + [m]) == Some(open[1..])
  {
    OpenCallsAppend(ms, m);
    assert [open[0]] <= open;
    assert open[1..] + [] == open[1..];
  }

  lemma TakeReplyShape(c: Config, t: Turn, r: Response, t': Turn)
    requires Lawful(c) && WellFormedResponse(r) && IdsOk(t) && TranscriptOk(t) && t.pending == []
    requires t' == TakeReply(c, t, r)
    ensures TranscriptOk(t')
  {
    ReplyMessageIds(c, t, r);
    var m := t'.messages[|t.messages|];
    assert t'.messages == t.messages + [m];
    assert CallIds(t.pending)[t.next..] == [];
    OpensCalls(t.messages, m);
    if r.calls != [] {
      assert t'.next == 0 && CallIds(t'.pending)[0..] == CallIds(t'.pending);
    } else {
      assert t'.pending == t.pending && t'.next == t.next;
    }
  }

  lemma RecordShape(s: State, answer: Answer, success: bool, stop: Option<Status>)
    requires IdsOk(s.turn) && Shape(s) && s.turn.next < |s.turn.pending|
    ensures Shape(Record(s, answer, success, stop))
  {
    var t := s.turn;
    var call := t.pending[t.next];
    var m := Message(Tool, Answered(answer), Some(call.id), call.name, !success);
    var open := CallIds(t.pending)[t.next..];
    assert ResultsOf(m) == [call.id] && open[0] == call.id;
    AnswersFirst(t.messages, m, open);
    assert open[1..] == CallIds(t.pending)[t.next + 1..];
  }

  lemma SaveShape(c: Config, e: Env, s: State, phase: Phase)
    requires Shape(s) && (phase.ModelPhase? ==> s.turn.pending == [])
    ensures Shape(Save(c, e, s, phase))
  {
    var s' := Save(c, e, s, phase);
    assert CheckpointOk(Snapshot(c, s.turn, phase));
    assert s'.turn == s.turn.(failed := s'.turn.failed);
  }

  lemma AskModelShape(c: Config, e: Env, s: State)
    requires Lawful(c) && ValidEnv(e) && IdsOk(s.turn) && Shape(s) && s.turn.pending == []
    ensures Shape(AskModel(c, e, s))
  {
    var t := s.turn.(iterations := s.turn.iterations + 1);
    var answer := e.model(t.messages, s.now);
    match answer
    case Failed(_) =>
    case Reply(r) =>
      var t' := TakeReply(c, t, r);
      TakeReplyShape(c, t, r, t');
      assert ShapeOk(t', s.trace + [AskedModel(t.iterations)], s.durable);
      AskedModelPc(c, e, s, r, t');
  }

  lemma BeginCallShape(c: Config, e: Env, s: State, stop: Option<Status>)
    requires Inv(c, s) && Shape(s)
    ensures Shape(BeginCall(c, e, s, stop))
  {
    if s.turn.next < |s.turn.pending| {
      var s' := s.(now := s.now + 1);
      var stop' := StopBeforeCall(c, e, s, stop);
      BeginCallCases(c, e, s, stop, stop');
      if stop'.Some? {
        RecordShape(s', NotRun(stop'.value), false, stop');
      } else if WasCutOff(s.turn) {
        RecordShape(s', CutOff(s.turn.finish.value), false, None);
      } else {
        StartCallShape(c, s', Prepare(c, s.turn.pending[s.turn.next]));
      }
    }
  }

  lemma StartCallShape(c: Config, s: State, p: Prepared)
    requires IdsOk(s.turn) && Shape(s) && s.turn.next < |s.turn.pending|
    ensures Shape(StartCall(c, s, p))
  {
    var resuming := s.turn.inFlight == Some(s.turn.pending[s.turn.next].id);
    if p.NotRunnable? {
      RecordShape(s, p.answer, false, None);
    } else if !resuming && p.spec.NeedsApproval() && !c.canApprove {
      RecordShape(s, NobodyToAsk(p.spec.name), false, None);
    } else if resuming && !c.canResume {
      RecordShape(s, CannotResumeSafely, false, Some(CheckpointFailed));
    }
  }

  lemma ApprovalShape(e: Env, s: State, r: Request)
    requires IdsOk(s.turn) && Shape(s) && s.turn.next < |s.turn.pending|
    ensures Shape(AskApproval(e, s, r))
  {
    var answer := e.approve(r, s.now);
    var s' := s.(now := s.now + 1, trace := s.trace + [AskedApproval(r, answer)]);
    assert Shape(s');
    match answer
    case Granted =>
    case Refused => RecordShape(s', NotApproved(r.name), false, None);
    case AbortedWhileAsking => RecordShape(s', NotRun(Aborted), false, Some(Aborted));
  }

  lemma SaveInFlightShape(c: Config, e: Env, s: State, r: Request)
    requires Inv(c, s) && Shape(s) && s.pc == PreSave(r)
    ensures Shape(SaveInFlight(c, e, s, r))
  {
    var s1 := s.(turn := s.turn.(inFlight := Some(r.id)));
    SaveShape(c, e, s1, ToolsPhase);
    assert IdsOk(s1.turn);
    RecordShape(Save(c, e, s1, ToolsPhase), CouldNotSaveFirst, false, Some(CheckpointFailed));
  }

  lemma RunToolShape(c: Config, s: State, ev: Event, outcome: ToolOutcome)
    requires Inv(c, s) && Shape(s) && s.turn.next < |s.turn.pending| && !ev.SavedState?
    ensures Shape(RunTool(s, ev, outcome))
  {
    RecordShape(s.(now := s.now + 1, trace := s.trace + [ev]), Ran(outcome.text), outcome.success, None);
  }

  lemma InvokeShape(c: Config, e: Env, s: State, r: Request)
    requires Inv(c, s) && Shape(s) && (s.pc == Invoking(r) || s.pc == Resuming(r))
    ensures Shape(Step(c, e, s))
  {
    if s.pc == Invoking(r) {
      RunToolShape(c, s, Invoked(r), e.invoke(r, s.now));
      assert Step(c, e, s) == RunTool(s, Invoked(r), e.invoke(r, s.now));
    } else {
      RunToolShape(c, s, ResumedInvocation(r), e.resumeInvocation(r, s.now));
      assert Step(c, e, s) == RunTool(s, ResumedInvocation(r), e.resumeInvocation(r, s.now));
    }
  }

  lemma BeforeInvokeShape(c: Config, e: Env, s: State, r: Request)
    requires Inv(c, s) && Shape(s) && (s.pc == Approving(r) || s.pc == PreSave(r))
    ensures Shape(Step(c, e, s))
  {
    if s.pc == Approving(r) {
      ApprovalShape(e, s, r);
      assert Step(c, e, s) == AskApproval(e, s, r);
    } else {
      SaveInFlightShape(c, e, s, r);
      assert Step(c, e, s) == SaveInFlight(c, e, s, r);
    }
  }

  lemma SaveStepShape(c: Config, e: Env, s: State)
    requires Inv(c, s) && Shape(s) && (s.pc.FinalSave? || s.pc.ReplySave? || s.pc.AnswerSave?)
    ensures Shape(Step(c, e, s))
  {
    var phase := if s.pc.FinalSave? then ModelPhase else ToolsPhase;
    SaveShape(c, e, s, phase);
    assert Step(c, e, s) == Save(c, e, s, phase).(pc := Step(c, e, s).pc);
  }

  lemma ClearedOk(t: Turn)
    requires TranscriptOk(t) && t.next >= |t.pending|
    ensures TranscriptOk(Cleared(t))
  {
    assert CallIds(t.pending)[t.next..] == [] && CallIds([])[0..] == [];
  }

  lemma ClearShape(c: Config, e: Env, s: State)
    requires Inv(c, s) && Shape(s) && s.pc.ClearSave?
    ensures Shape(Step(c, e, s))
  {
    ClearedOk(s.turn);
    var cleared := s.(turn := Cleared(s.turn));
    SaveShape(c, e, cleared, ModelPhase);
    assert Step(c, e, s) == Save(c, e, cleared, ModelPhase).(pc := Step(c, e, s).pc);
  }

  lemma BeforeCallShape(c: Config, e: Env, s: State)
    requires Lawful(c) && ValidEnv(e) && Inv(c, s) && Shape(s) && (s.pc.Head? || s.pc.Asking? || s.pc.NextCall?)
    ensures Shape(Step(c, e, s))
  {
    match s.pc
    case Head => HeadShape(c, e, s);
    case Asking => AskModelShape(c, e, s);
    case NextCall(stop) => BeginCallShape(c, e, s, stop);
  }

  lemma HeadShape(c: Config, e: Env, s: State)
    requires Shape(s) && s.pc.Head?
    ensures Shape(Step(c, e, s))
  {
    var s' := LoopHead(c, e, s);
    assert s'.turn == s.turn && s'.trace == s.trace && s'.durable == s.durable;
  }

  lemma StepShape(c: Config, e: Env, s: State)
    requires Lawful(c) && ValidEnv(e) && Inv(c, s) && Shape(s)
    ensures Shape(Step(c, e, s))
  {
    match s.pc
    case Approving(r) => BeforeInvokeShape(c, e, s, r);
    case PreSave(r) => BeforeInvokeShape(c, e, s, r);
    case Invoking(r) => InvokeShape(c, e, s, r);
    case Resuming(r) => InvokeShape(c, e, s, r);
    case ClearSave(_) => ClearShape(c, e, s);
    case FinalSave => SaveStepShape(c, e, s);
    case ReplySave => SaveStepShape(c, e, s);
    case AnswerSave(_) => SaveStepShape(c, e, s);
    case Done(_) =>
    case _ => BeforeCallShape(c, e, s);
  }

  lemma {:induction false} AlwaysShaped(c: Config, e: Env, messages: seq<Message>, schedule: seq<bool>)
    requires ValidConfig(c) && ValidEnv(e) && (c.hasStore || true !in schedule) && Closed(messages)
    ensures Shape(Exec(c, e, messages, schedule))
    decreases |schedule|
  {
    ValidIsLawful(c);
    if schedule != [] {
      var front := schedule[..|schedule| - 1];
      assert true in front ==> true in schedule;
      AlwaysShaped(c, e, messages, front);
      AlwaysInv(c, e, messages, front);
      if !schedule[|schedule| - 1] {
        StepShape(c, e, Exec(c, e, messages, front));
      }
    }
  }

  /**
   * In every state and in every checkpoint ever handed to the store, the open calls are the
   * pending ones from `next` on, in order; everything before has exactly one result.
   */
  lemma TranscriptAlwaysReplayable(c: Config, e: Env, messages: seq<Message>, schedule: seq<bool>)
    requires ValidConfig(c) && ValidEnv(e) && (c.hasStore || true !in schedule) && Closed(messages)
    ensures var s := Exec(c, e, messages, schedule);
            && OpenArePending(s.turn.messages, s.turn.pending, s.turn.next)
            && forall i :: 0 <= i < |s.trace| && s.trace[i].SavedState? ==> CheckpointOk(s.trace[i].checkpoint)
  {
    AlwaysShaped(c, e, messages, schedule);
  }

  /** The calls left pending by a step out of the loop head that returns. */
  lemma HeadReturns(c: Config, e: Env, s: State)
    requires s.pc.Head? && LoopHead(c, e, s).pc.Done?
    ensures var t' := LoopHead(c, e, s).turn;
            && t'.pending == s.turn.pending && t'.next == s.turn.next
            && (e.aborted(s.now) || s.turn.pending == [])
  {
  }

  lemma SaveKeepsPending(c: Config, e: Env, s: State, phase: Phase)
    ensures Save(c, e, s, phase).turn.pending == s.turn.pending
  {
  }

  lemma GoesOn(c: Config, e: Env, s: State)
    requires Wf(c, s) && (s.pc.ReplySave? || s.pc.NextCall? || s.pc.AnswerSave? || InCall(s.pc))
    ensures !Step(c, e, s).pc.Done?
  {
  }

  /** Only three places return, and two of them have no pending call left. */
  lemma ReturnsFrom(c: Config, e: Env, s: State)
    requires Inv(c, s) && !s.pc.Done? && Step(c, e, s).pc.Done?
    ensures s.pc.Head? || Step(c, e, s).turn.pending == []
  {
    match s.pc
    case Head =>
    case Asking => assert AskModel(c, e, s).pc.Done? ==> AskModel(c, e, s).turn.pending == s.turn.pending;
    case FinalSave => SaveKeepsPending(c, e, s, ModelPhase);
    case ClearSave(_) => SaveKeepsPending(c, e, s.(turn := Cleared(s.turn)), ModelPhase);
    case _ => GoesOn(c, e, s);
  }

  /**
   * The turn returns with unanswered calls in exactly one case: it was aborted at the loop head
   * while calls were pending.
   */
  lemma ReturnsClosedUnlessAbortedAtHead(c: Config, e: Env, messages: seq<Message>, schedule: seq<bool>)
    requires ValidConfig(c) && ValidEnv(e) && (c.hasStore || true !in schedule) && Closed(messages)
    ensures var s := Exec(c, e, messages, schedule);
            var s' := Step(c, e, s);
            !s.pc.Done? && s'.pc.Done? ==>
              (Closed(s'.turn.messages)
               <==> !(s.pc.Head? && e.aborted(s.now) && s.turn.next < |s.turn.pending|))
  {
    var s := Exec(c, e, messages, schedule);
    var s' := Step(c, e, s);
    AlwaysShaped(c, e, messages, schedule);
    AlwaysInv(c, e, messages, schedule);
    ValidIsLawful(c);
    if !s.pc.Done? && s'.pc.Done? {
      StepShape(c, e, s);
      ReturnClosed(c, e, s, s');
    }
  }

  lemma ReturnClosed(c: Config, e: Env, s: State, s': State)
    requires Inv(c, s) && Shape(s') && s' == Step(c, e, s) && !s.pc.Done? && s'.pc.Done?
    ensures Closed(s'.turn.messages) <==> !(s.pc.Head? && e.aborted(s.now) && s.turn.next < |s.turn.pending|)
  {
    ReturnsFrom(c, e, s);
    if s.pc.Head? {
      HeadReturns(c, e, s);
    }
    OpenCount(s'.turn);
  }

  lemma OpenCount(t: Turn)
    requires TranscriptOk(t)
    ensures Closed(t.messages) <==> t.next == |t.pending|
  {
    assert |CallIds(t.pending)[t.next..]| == |t.pending| - t.next;
  }

  /** The world of a user who goes away right after the model's first reply, which calls one tool. */
  function AbortsAfterReply(): Env {
    var reply := Response("", [ToolUse("a", "list", ToolCalls.JNull)], [Call("a", "list", ToolCalls.JNull)],
                          FinishReason.ToolCalls, NO_USAGE);
    Env(at => at == 3, (ms, at) => Reply(reply), (r, at) => Refused,
        (r, at) => ToolOutcome(false, ""), (r, at) => ToolOutcome(false, ""), at => Saved)
  }

  /**
   * That case does occur, whatever tools are allowed: a turn whose first reply is saved and that is
   * then aborted returns with its call open.
   */
  lemma AbortLeavesCallOpen(c: Config, messages: seq<Message>)
    requires ValidConfig(c) && c.hasStore && c.maxTotalTokens.None? && Closed(messages)
    ensures var e := AbortsAfterReply();
            var s := Exec(c, e, messages, [false, false, false]);
            && ValidEnv(e) && !s.pc.Done?
            && Step(c, e, s).pc == Done(Aborted) && !Closed(Step(c, e, s).turn.messages)
  {
    var e, schedule := AbortsAfterReply(), [false, false, false];
    ReplyIsWellFormed();
    ValidIsLawful(c);
    ExecThree(c, e, messages, [], schedule);
    OneReply(c, e, Start(messages), e.model([], 0).response);
    AbortedWithCall(c, e, messages, schedule, Exec(c, e, messages, schedule));
  }

  lemma ReplyIsWellFormed()
    ensures ValidEnv(AbortsAfterReply())
  {
    var ids := CallIds([Call("a", "list", ToolCalls.JNull)]);
    assert ids == [ids[0]];
    assert UseIds([ToolUse("a", "list", ToolCalls.JNull)]) == ["a"];
  }

  lemma AbortedWithCall(c: Config, e: Env, messages: seq<Message>, schedule: seq<bool>, s: State)
    requires ValidConfig(c) && ValidEnv(e) && c.hasStore && Closed(messages) && s == Exec(c, e, messages, schedule)
    requires s.pc == Head && e.aborted(s.now) && s.turn.next < |s.turn.pending|
    ensures Step(c, e, s).pc == Done(Aborted) && !Closed(Step(c, e, s).turn.messages)
  {
    assert Step(c, e, s) == LoopHead(c, e, s);
    ReturnsClosedUnlessAbortedAtHead(c, e, messages, schedule);
  }
}
