/**
 * `runTurn` as the source writes it: an endless loop over variables it updates in place, with a
 * closure that saves them and a helper that runs one tool. It is proved to perform exactly the
 * effects of the step system and to return its final state.
 */
module RunTurn {
  import opened Wrappers
  import opened TurnMachine
  import opened TurnSafety
  import ToolIds

  /** The host: answers questions, keeps the store, and has a history of what it was asked. */
  class Host {
    const env: Env
    var now: nat
    var trace: seq<Event>
    var durable: Option<Checkpoint>

    constructor (env: Env)
      ensures this.env == env && now == 0 && trace == [] && durable == None
    {
      this.env := env;
      now, trace, durable := 0, [], None;
    }

    method PollAborted() returns (aborted: bool)
      modifies this`now
      ensures aborted == env.aborted(old(now)) && now == old(now) + 1
    {
      aborted := env.aborted(now);
      now := now + 1;
    }

    method AskModel(messages: seq<Message>, iteration: nat) returns (answer: ModelAnswer)
      modifies this
      ensures answer == env.model(messages, old(now)) && now == old(now) + 1
      ensures trace == old(trace) + [AskedModel(iteration)] && durable == old(durable)
    {
      answer := env.model(messages, now);
      now, trace := now + 1, trace + [AskedModel(iteration)];
    }

    method Approve(request: Request) returns (answer: Approval)
      modifies this
      ensures answer == env.approve(request, old(now)) && now == old(now) + 1
      ensures trace == old(trace) + [AskedApproval(request, answer)] && durable == old(durable)
    {
      answer := env.approve(request, now);
      now, trace := now + 1, trace + [AskedApproval(request, answer)];
    }

    method Invoke(request: Request) returns (outcome: ToolOutcome)
      modifies this
      ensures outcome == env.invoke(request, old(now)) && now == old(now) + 1
      ensures trace == old(trace) + [Invoked(request)] && durable == old(durable)
    {
      outcome := env.invoke(request, now);
      now, trace := now + 1, trace + [Invoked(request)];
    }

    method ResumeInvocation(request: Request) returns (outcome: ToolOutcome)
      modifies this
      ensures outcome == env.resumeInvocation(request, old(now)) && now == old(now) + 1
      ensures trace == old(trace) + [ResumedInvocation(request)] && durable == old(durable)
    {
      outcome := env.resumeInvocation(request, now);
      now, trace := now + 1, trace + [ResumedInvocation(request)];
    }

    method Store(k: Checkpoint) returns (outcome: SaveOutcome)
      modifies this
      ensures outcome == env.save(old(now)) && now == old(now) + 1
      ensures trace == old(trace) + [SavedState(k, outcome)]
      ensures durable == if outcome == Lost then old(durable) else Some(k)
    {
      outcome := env.save(now);
      now, trace := now + 1, trace + [SavedState(k, outcome)];
      if outcome != Lost { durable := Some(k); }
    }
  }

  datatype Rejection = WrongRun | NoPendingCalls

  datatype TurnResult =
    | Rejected(why: Rejection)
    | Finished(status: Status, messages: seq<Message>, newMessages: seq<Message>, finalText: string,
               iterations: nat, usage: Usage)

  /** Resume checkpoints that are refused before the turn starts. */
  function Refusal(c: Config, resume: Option<Checkpoint>): Option<Rejection> {
    if resume.None? then None
    else if resume.value.runId != c.runId then Some(WrongRun)
    else if resume.value.phase.ToolsPhase? && resume.value.pending == [] then Some(NoPendingCalls)
    else None
  }

  function InitialTurn(messages: seq<Message>, resume: Option<Checkpoint>): Turn {
    if resume.Some? then ResumedTurn(resume.value) else FreshTurn(messages)
  }

  /** The variables of one `runTurn` call. */
  class TurnLoop {
    const c: Config
    const host: Host
    var messages: seq<Message>
    var usage: Usage
    var iterations: nat
    var pending: seq<Call>
    var next: nat
    var finish: Option<FinishReason>
    var inFlight: Option<string>
    var finalText: string
    var failed: bool
    var seen: set<string>
    /** Where each state of the step system ends up; all that is used of it is that steps do not change it. */
    ghost const end: State -> State

    ghost predicate Stable() {
      StepsKeep(c, host.env, end)
    }

    ghost function Memory(): Turn
      reads this
    {
      Turn(messages, usage, iterations, pending, next, finish, inFlight, finalText, failed, seen)
    }

    /** The state of the step system when this process stands at `pc`. */
    ghost function At(pc: Pc): State
      reads this, host
    {
      State(Memory(), pc, host.now, host.trace, host.durable)
    }

    constructor (c: Config, host: Host, t: Turn, ghost end: State -> State)
      ensures this.c == c && this.host == host && this.end == end && Memory() == t
    {
      this.c, this.host, this.end := c, host, end;
      messages, usage, iterations := t.messages, t.usage, t.iterations;
      pending, next, finish, inFlight := t.pending, t.next, t.finish, t.inFlight;
      finalText, failed, seen := t.finalText, t.failed, t.seen;
    }

    /** The `checkpoint` closure; false once a save has failed. */
    method Checkpoint(phase: Phase) returns (ok: bool)
      modifies this`failed, host
      ensures At(Head) == Save(c, host.env, old(At(Head)), phase)
      ensures ok == !failed
    {
      if failed || !c.hasStore { return !failed; }
      var k := if phase.ToolsPhase? then
          TurnMachine.Checkpoint(c.runId, iterations, messages, usage, ToolsPhase, pending, next, finish, inFlight)
        else
          TurnMachine.Checkpoint(c.runId, iterations, messages, usage, ModelPhase, [], 0, None, None);
      var outcome := host.Store(k);
      failed := outcome != Saved;
      ok := !failed;
    }

    /** Waits for a human; None when the call may go on. */
    method AskHuman(ghost s: State, request: Request) returns (refusal: Option<(Answer, Option<Status>)>)
      requires next < |pending| && s == At(Approving(request))
      modifies host
      ensures refusal.Some? ==>
                AskApproval(host.env, s, request) == Record(At(Head), refusal.value.0, false, refusal.value.1)
      ensures refusal.None? ==> AskApproval(host.env, s, request) == At(PreSave(request))
    {
      var given := host.Approve(request);
      match given
      case AbortedWhileAsking => refusal := Some((NotRun(Aborted), Some(Aborted)));
      case Refused => refusal := Some((NotApproved(request.name), None));
      case Granted => refusal := None;
    }

    /** The `beforeInvoke` closure: marks the call in flight and saves. */
    method BeforeInvoke(ghost s: State, request: Request) returns (ok: bool)
      requires next < |pending| && s == At(PreSave(request))
      modifies this`failed, this`inFlight, host
      ensures ok ==> SaveInFlight(c, host.env, s, request) == At(Invoking(request))
      ensures !ok ==>
                SaveInFlight(c, host.env, s, request)
                  == Record(At(Head), CouldNotSaveFirst, false, Some(CheckpointFailed))
    {
      inFlight := Some(pending[next].id);
      ghost var marked := At(Head);
      ok := Checkpoint(ToolsPhase);
      assert Save(c, host.env, marked.(pc := s.pc), ToolsPhase) == At(s.pc);
    }

    /** Saves the call as in flight and invokes the tool. */
    method SaveAndInvoke(request: Request) returns (answer: Answer, success: bool, stopped: Option<Status>)
      requires next < |pending| && Stable()
      modifies this`failed, this`inFlight, host
      ensures end(Record(At(Head), answer, success, stopped)) == end(old(At(PreSave(request))))
    {
      ghost var saving := At(PreSave(request));
      EndInCall(c, host.env, end, saving);
      var ok := BeforeInvoke(saving, request);
      if !ok { return CouldNotSaveFirst, false, Some(CheckpointFailed); }
      EndInCall(c, host.env, end, At(Invoking(request)));
      var outcome := host.Invoke(request);
      answer, success, stopped := Ran(outcome.text), outcome.success, None;
    }

    /** Takes up the invocation a crashed process may have started. */
    method Resume(request: Request) returns (answer: Answer, success: bool, stopped: Option<Status>)
      requires next < |pending| && Stable()
      modifies host
      ensures end(Record(At(Head), answer, success, stopped)) == end(old(At(Resuming(request))))
    {
      EndInCall(c, host.env, end, At(Resuming(request)));
      var outcome := host.ResumeInvocation(request);
      answer, success, stopped := Ran(outcome.text), outcome.success, None;
    }

    /**
     * `runOneTool` for a call prepared as `p`: recording the answer it returns leads to the same
     * end as starting the call does.
     */
    method RunOneTool(p: Prepared) returns (answer: Answer, success: bool, stopped: Option<Status>)
      requires next < |pending| && Stable()
      modifies this`failed, this`inFlight, host
      ensures end(Record(At(Head), answer, success, stopped)) == end(StartCall(c, old(At(Head)), p))
    {
      if p.NotRunnable? { return p.answer, false, None; }
      var request := p.request;
      if inFlight == Some(pending[next].id) {
        if !c.canResume { return CannotResumeSafely, false, Some(CheckpointFailed); }
        answer, success, stopped := Resume(request);
      } else {
        if p.spec.NeedsApproval() {
          if !c.canApprove { return NobodyToAsk(p.spec.name), false, None; }
          ghost var asking := At(Approving(request));
          EndInCall(c, host.env, end, asking);
          var refusal := AskHuman(asking, request);
          if refusal.Some? { return refusal.value.0, false, refusal.value.1; }
        }
        answer, success, stopped := SaveAndInvoke(request);
      }
    }

    /** Appends an answer, moves past the call and saves. */
    method TakeAnswer(answer: Answer, success: bool, stop: Option<Status>) returns (stop': Option<Status>)
      requires next < |pending|
      modifies this, host
      ensures var saved := Save(c, host.env, Record(old(At(Head)), answer, success, stop), ToolsPhase);
              At(NextCall(stop')) == saved.(pc := NextCall(StopAfterSave(saved, stop)))
      ensures pending == old(pending) && next == old(next) + 1 && iterations == old(iterations) && finish == old(finish)
    {
      ghost var recorded := Record(At(Head), answer, success, stop);
      var call := pending[next];
      messages := messages + [Message(Tool, Answered(answer), Some(call.id), call.name, !success)];
      next := next + 1;
      inFlight := None;
      ghost var before := At(Head);
      assert recorded == before.(pc := AnswerSave(stop));
      var ok := Checkpoint(ToolsPhase);
      assert Save(c, host.env, recorded, ToolsPhase) == At(AnswerSave(stop));
      stop' := if !ok && stop.None? then Some(CheckpointFailed) else stop;
    }

    /** What the next pending call is answered with; the tool runs only here. */
    method AnswerFor(cutOff: bool, stop: Option<Status>)
      returns (answer: Answer, success: bool, stopped: Option<Status>)
      requires next < |pending| && cutOff == WasCutOff(Memory())
      requires Stable()
      modifies this`failed, this`inFlight, host
      ensures end(Record(At(Head), answer, success, stopped)) == end(old(At(NextCall(stop))))
    {
      ghost var begun := At(NextCall(stop));
      EndNextCall(c, host.env, end, begun, stop);
      var aborted := host.PollAborted();
      var stopNow := if aborted then Some(Aborted) else stop;
      if stopNow.None? && c.maxTotalTokens.Some? && usage.input + usage.output >= c.maxTotalTokens.value {
        stopNow := Some(TokenBudget);
      }
      BeginCallCases(c, host.env, begun, stop, stopNow);
      if stopNow.Some? {
        return NotRun(stopNow.value), false, stopNow;
      }
      if cutOff {
        return CutOff(finish.value), false, None;
      }
      var p := Prepare(c, pending[next]);
      BeginIsStart(c, host.env, begun, stop, p);
      answer, success, stopped := RunOneTool(p);
    }

    /** One round of the loop over the pending calls. */
    method AnswerNext(cutOff: bool, stop: Option<Status>) returns (stop': Option<Status>)
      requires next < |pending| && cutOff == WasCutOff(Memory())
      requires Stable()
      modifies this, host
      ensures end(At(NextCall(stop'))) == end(old(At(NextCall(stop))))
      ensures pending == old(pending) && next == old(next) + 1 && iterations == old(iterations) && finish == old(finish)
    {
      var answer, success, stopped := AnswerFor(cutOff, stop);
      EndAnswer(c, host.env, end, Record(At(Head), answer, success, stopped), stopped);
      stop' := TakeAnswer(answer, success, stopped);
    }

    /** The loop over the pending calls and the save that closes it. */
    method AnswerPending() returns (stop: Option<Status>)
      requires pending != []
      requires Stable()
      modifies this, host
      ensures pending == [] && iterations == old(iterations)
      ensures end(At(if stop.Some? then Done(stop.value) else Head))
              == end(old(At(NextCall(if failed then Some(CheckpointFailed) else None))))
    {
      ghost var s0 := At(NextCall(if failed then Some(CheckpointFailed) else None));
      var cutOff := finish == Some(Length) || finish == Some(ContentFilter);
      stop := if failed then Some(CheckpointFailed) else None;
      while next < |pending|
        invariant end(At(NextCall(stop))) == end(s0)
        invariant cutOff == WasCutOff(Memory()) && iterations == old(iterations)
        decreases |pending| - next
      {
        stop := AnswerNext(cutOff, stop);
      }
      stop := ClearPending(stop);
    }

    /** Forgets the answered calls and saves. */
    method ClearPending(stop: Option<Status>) returns (stop': Option<Status>)
      requires next >= |pending| && Stable()
      modifies this, host
      ensures pending == [] && iterations == old(iterations)
      ensures end(At(if stop'.Some? then Done(stop'.value) else Head)) == end(old(At(NextCall(stop))))
    {
      ghost var all := At(NextCall(stop));
      pending, next, finish, inFlight := [], 0, None, None;
      ghost var cleared := At(Head);
      var ok := Checkpoint(ModelPhase);
      stop' := if !ok && stop.None? then Some(CheckpointFailed) else stop;
      EndClear(c, host.env, end, all, cleared, At(Head), stop);
    }

    /** `uniqueToolIds` on a reply. */
    method AssignIds(r: Response) returns (ids: seq<string>, taken: set<string>)
      requires ValidConfig(c)
      ensures ids == c.assignIds(CallIds(r.calls), seen, iterations) && taken == seen + ToolIds.Elements(ids)
    {
      ids, taken := ToolIds.AssignUniqueIds(CallIds(r.calls), seen, iterations);
    }

    /** Stores a reply, whose calls were given these ids, in the variables. */
    method StoreReply(r: Response, ids: seq<string>, taken: set<string>)
      requires ids == c.assignIds(CallIds(r.calls), seen, iterations) && taken == seen + ToolIds.Elements(ids)
      modifies this
      ensures Took(c, old(Memory()), r, ids, Memory())
    {
      messages, usage, seen := messages + [ReplyMessage(c, r, ids)], AddUsage(usage, r.usage), taken;
      if r.content != "" { finalText := r.content; }
      if r.calls != [] {
        pending, next, finish, inFlight := WithIds(r.calls, ids), 0, Some(r.finish), None;
      }
    }

    /** Takes a reply into the turn. */
    method TakeReply(r: Response)
      requires ValidConfig(c)
      modifies this
      ensures Memory() == TurnMachine.TakeReply(c, old(Memory()), r) && iterations == old(iterations)
    {
      ghost var before := Memory();
      var ids, taken := AssignIds(r);
      StoreReply(r, ids, taken);
      TookReply(c, before, r, ids, Memory());
    }

    /** One model call; Some(status) when the turn is over. */
    method Ask() returns (stop: Option<Status>)
      requires ValidConfig(c) && iterations < c.maxIterations
      requires Stable()
      modifies this, host
      ensures iterations == old(iterations) + 1
      ensures end(At(if stop.Some? then Done(stop.value) else Head)) == end(old(At(Asking)))
    {
      ghost var before := At(Asking);
      iterations := iterations + 1;
      var answer := host.AskModel(messages, iterations);
      EndAsking(c, host.env, end, before, answer, At(Head));
      if answer.Failed? { return Some(if answer.aborted then Aborted else ProviderError); }
      var r := answer.response;
      TakeReply(r);
      if r.calls == [] {
        stop := SaveFinalReply();
      } else {
        SaveReply();
        stop := None;
      }
    }

    /** The save after a reply without calls, and the status it leads to. */
    method SaveFinalReply() returns (stop: Option<Status>)
      requires Stable()
      modifies this`failed, host
      ensures stop.Some? && end(At(Done(stop.value))) == end(old(At(FinalSave)))
    {
      ghost var replied := At(Head);
      var ok := Checkpoint(ModelPhase);
      EndFinal(c, host.env, end, replied, At(Head));
      return Some(if ok then Completed else CheckpointFailed);
    }

    /** The save after a reply with calls; a failure is found out later. */
    method SaveReply()
      requires Stable()
      modifies this`failed, host
      ensures end(At(Head)) == end(old(At(ReplySave)))
    {
      ghost var replied := At(Head);
      var ok := Checkpoint(ToolsPhase);
      EndReply(c, host.env, end, replied, At(Head));
    }

    /** The two limits, and the model call if neither is reached. */
    method AskWithinLimits() returns (stop: Option<Status>)
      requires ValidConfig(c) && pending == []
      requires Stable()
      modifies this, host
      ensures end(At(if stop.Some? then Done(stop.value) else Head)) == end(old(At(WhenAnswered(c, Memory()))))
      ensures stop.None? ==> old(iterations) < c.maxIterations && iterations == old(iterations) + 1
    {
      if iterations >= c.maxIterations {
        return Some(MaxIterations);
      }
      if c.maxTotalTokens.Some? && usage.input + usage.output >= c.maxTotalTokens.value {
        return Some(TokenBudget);
      }
      stop := Ask();
    }

    /** One round of the endless loop; Some(status) when it returns. */
    method Round() returns (stop: Option<Status>)
      requires ValidConfig(c)
      requires Stable()
      modifies this, host
      ensures end(At(if stop.Some? then Done(stop.value) else Head)) == end(old(At(Head)))
      ensures stop.None? ==>
                || (old(iterations) < c.maxIterations && iterations == old(iterations) + 1)
                || (old(pending) != [] && pending == [] && iterations == old(iterations))
    {
      ghost var head := At(Head);
      EndHead(c, host.env, end, head);
      var aborted := host.PollAborted();
      if aborted { return Some(Aborted); }
      if pending != [] {
        stop := AnswerPending();
      } else {
        stop := AskWithinLimits();
      }
    }

    /** The endless loop. */
    method Loop() returns (status: Status)
      requires ValidConfig(c)
      requires Stable()
      modifies this, host
      ensures end(At(Done(status))) == end(old(At(Head)))
    {
      ghost var s0 := At(Head);
      while true
        invariant end(At(Head)) == end(s0)
        decreases if iterations < c.maxIterations then c.maxIterations - iterations else 0, |pending|
      {
        var stop := Round();
        if stop.Some? { return stop.value; }
      }
    }
  }

  /** `end` gives a state and the state one step later the same value. */
  ghost predicate StepsKeep(c: Config, e: Env, end: State -> State) {
    forall s {:trigger Looked(s)} :: Looked(s) && Wf(c, s) ==> end(Step(c, e, s)) == end(s)
  }

  /** Always true; names the states at which `StepsKeep` is used. */
  ghost predicate Looked(s: State) {
    true
  }

  lemma EndStep(c: Config, e: Env, end: State -> State, s: State)
    requires StepsKeep(c, e, end) && Wf(c, s)
    ensures end(Step(c, e, s)) == end(s)
  {
    assert Looked(s);
  }

  // What one step does at each place, as the methods need it.

  /** Where the loop head leads when no call is pending. */
  function WhenAnswered(c: Config, t: Turn): Pc {
    if t.iterations >= c.maxIterations then Done(MaxIterations)
    else if OverBudget(c, t) then Done(TokenBudget)
    else Asking
  }

  lemma EndHead(c: Config, e: Env, end: State -> State, s: State)
    requires StepsKeep(c, e, end) && Wf(c, s) && s.pc == Head
    ensures var s' := s.(now := s.now + 1);
            end(s) == end(if e.aborted(s.now) then s'.(pc := Done(Aborted))
                          else if s.turn.pending != [] then
                            s'.(pc := NextCall(if s.turn.failed then Some(CheckpointFailed) else None))
                          else s'.(pc := WhenAnswered(c, s.turn)))
  {
    EndStep(c, e, end, s);
  }

  lemma EndAsking(c: Config, e: Env, end: State -> State, s: State, answer: ModelAnswer, asked: State)
    requires StepsKeep(c, e, end) && Wf(c, s) && s.pc == Asking
    requires var t := s.turn.(iterations := s.turn.iterations + 1);
             && answer == e.model(t.messages, s.now)
             && asked == State(t, Head, s.now + 1, s.trace + [AskedModel(t.iterations)], s.durable)
    ensures match answer
            case Failed(aborted) => end(s) == end(asked.(pc := Done(if aborted then Aborted else ProviderError)))
            case Reply(r) =>
              end(s) == end(asked.(turn := TurnMachine.TakeReply(c, asked.turn, r),
                                   pc := if r.calls == [] then FinalSave else ReplySave))
  {
    EndStep(c, e, end, s);
    if answer.Reply? {
      AskedModelPc(c, e, s, answer.response, TurnMachine.TakeReply(c, asked.turn, answer.response));
    }
  }

  lemma EndNextCall(c: Config, e: Env, end: State -> State, s: State, stop: Option<Status>)
    requires StepsKeep(c, e, end) && Wf(c, s) && s.pc == NextCall(stop)
    ensures end(BeginCall(c, e, s, stop)) == end(s)
  {
    EndStep(c, e, end, s);
  }

  lemma EndInCall(c: Config, e: Env, end: State -> State, s: State)
    requires StepsKeep(c, e, end) && InCall(s.pc) && s.turn.next < |s.turn.pending|
    ensures end(s) == end(match s.pc
                          case Approving(r) => AskApproval(e, s, r)
                          case PreSave(r) => SaveInFlight(c, e, s, r)
                          case Invoking(r) => RunTool(s, Invoked(r), e.invoke(r, s.now))
                          case Resuming(r) => RunTool(s, ResumedInvocation(r), e.resumeInvocation(r, s.now))
                          case _ => s)
  {
    EndStep(c, e, end, s);
  }

  lemma EndAnswer(c: Config, e: Env, end: State -> State, s: State, stop: Option<Status>)
    requires StepsKeep(c, e, end) && s.pc == AnswerSave(stop)
    ensures var saved := Save(c, e, s, ToolsPhase); end(saved.(pc := NextCall(StopAfterSave(saved, stop)))) == end(s)
  {
    EndStep(c, e, end, s);
  }

  lemma EndClear(c: Config, e: Env, end: State -> State, all: State, cleared: State, saved: State, stop: Option<Status>)
    requires StepsKeep(c, e, end)
    requires all.pc == NextCall(stop) && all.turn.next >= |all.turn.pending|
    requires cleared == all.(turn := Cleared(all.turn), pc := Head)
    requires saved == Save(c, e, cleared, ModelPhase)
    ensures var stop' := StopAfterSave(saved, stop);
            end(saved.(pc := if stop'.Some? then Done(stop'.value) else Head)) == end(all)
  {
    EndNextCall(c, e, end, all, stop);
    EndStep(c, e, end, all.(pc := ClearSave(stop)));
    ClearStep(c, e, all, cleared, saved, stop);
  }

  lemma EndFinal(c: Config, e: Env, end: State -> State, replied: State, saved: State)
    requires StepsKeep(c, e, end) && saved == Save(c, e, replied, ModelPhase)
    ensures end(saved.(pc := Done(if saved.turn.failed then CheckpointFailed else Completed)))
            == end(replied.(pc := FinalSave))
  {
    EndStep(c, e, end, replied.(pc := FinalSave));
  }

  lemma EndReply(c: Config, e: Env, end: State -> State, replied: State, saved: State)
    requires StepsKeep(c, e, end) && saved == Save(c, e, replied, ToolsPhase)
    ensures end(saved.(pc := Head)) == end(replied.(pc := ReplySave))
  {
    EndStep(c, e, end, replied.(pc := ReplySave));
  }

  lemma BeginIsStart(c: Config, e: Env, begun: State, stop: Option<Status>, p: Prepared)
    requires begun.pc == NextCall(stop) && begun.turn.next < |begun.turn.pending|
    requires StopBeforeCall(c, e, begun, stop).None? && !WasCutOff(begun.turn)
    requires p == Prepare(c, begun.turn.pending[begun.turn.next])
    ensures StartCall(c, begun.(now := begun.now + 1, pc := Head), p) == BeginCall(c, e, begun, stop)
  {
    StartIgnoresPc(c, begun.(now := begun.now + 1), p);
  }

  lemma StartIgnoresPc(c: Config, s: State, p: Prepared)
    requires s.turn.next < |s.turn.pending|
    ensures StartCall(c, s.(pc := Head), p) == StartCall(c, s, p)
  {
  }

  lemma ClearStep(c: Config, e: Env, all: State, cleared: State, saved: State, stop: Option<Status>)
    requires all.pc == NextCall(stop) && all.turn.next >= |all.turn.pending|
    requires cleared == all.(turn := Cleared(all.turn), pc := Head)
    requires saved == Save(c, e, cleared, ModelPhase)
    ensures BeginCall(c, e, all, stop) == all.(pc := ClearSave(stop))
    ensures var stop' := StopAfterSave(saved, stop);
            Step(c, e, all.(pc := ClearSave(stop))) == saved.(pc := if stop'.Some? then Done(stop'.value) else Head)
  {
  }

  /** The variables after a reply, one by one. */
  ghost predicate Took(c: Config, t: Turn, r: Response, ids: seq<string>, t': Turn) {
    && t'.messages == t.messages + [ReplyMessage(c, r, ids)] && t'.usage == AddUsage(t.usage, r.usage)
    && t'.finalText == (if r.content != "" then r.content else t.finalText) && t'.seen == t.seen + ToolIds.Elements(ids)
    && t'.iterations == t.iterations && t'.failed == t.failed
    && if r.calls == [] then
         t'.pending == t.pending && t'.next == t.next && t'.finish == t.finish && t'.inFlight == t.inFlight
       else t'.pending == WithIds(r.calls, ids) && t'.next == 0 && t'.finish == Some(r.finish) && t'.inFlight == None
  }

  lemma TookReply(c: Config, t: Turn, r: Response, ids: seq<string>, t': Turn)
    requires ids == c.assignIds(CallIds(r.calls), t.seen, t.iterations) && Took(c, t, r, ids, t')
    ensures t' == TurnMachine.TakeReply(c, t, r)
  {
  }

  lemma {:induction false} RunKeepsMessages(c: Config, e: Env, s: State)
    requires Wf(c, s)
    ensures s.turn.messages <= Run(c, e, s).turn.messages
    decreases CallsLeft(c, s), WorkLeft(s)
  {
    if !s.pc.Done? {
      StepMakesProgress(c, e, s);
      StepKeepsMessages(c, e, s);
      RunKeepsMessages(c, e, Step(c, e, s));
    }
  }

  lemma AskKeepsMessages(c: Config, e: Env, s: State)
    ensures s.turn.messages <= AskModel(c, e, s).turn.messages
  {
    var t := s.turn.(iterations := s.turn.iterations + 1);
    var answer := e.model(t.messages, s.now);
    if answer.Reply? {
      AskedModelPc(c, e, s, answer.response, TurnMachine.TakeReply(c, t, answer.response));
    }
  }

  lemma StepKeepsMessages(c: Config, e: Env, s: State)
    requires Wf(c, s)
    ensures s.turn.messages <= Step(c, e, s).turn.messages
  {
    match s.pc
    case Asking => AskKeepsMessages(c, e, s);
    case NextCall(stop) =>
      if s.turn.next < |s.turn.pending| {
        BeginCallCases(c, e, s, stop, StopBeforeCall(c, e, s, stop));
        StartKeepsMessages(c, s.(now := s.now + 1), Prepare(c, s.turn.pending[s.turn.next]));
      }
    case _ =>
  }

  lemma StartKeepsMessages(c: Config, s: State, p: Prepared)
    requires s.turn.next < |s.turn.pending|
    ensures s.turn.messages <= StartCall(c, s, p).turn.messages
  {
  }

  /**
   * A turn refuses an unusable checkpoint before it does anything; otherwise it ends, its effects
   * on the host are those of the step system run to the end, and it returns that final state.
   */
  method RunTurn(c: Config, messages: seq<Message>, resume: Option<Checkpoint>, host: Host) returns (r: TurnResult)
    requires ValidConfig(c)
    modifies host
    ensures resume.Some? && resume.value.runId != c.runId ==> r == Rejected(WrongRun)
    ensures (resume.Some? && resume.value.runId == c.runId && resume.value.phase.ToolsPhase?
             && resume.value.pending == []) ==> r == Rejected(NoPendingCalls)
    ensures r.Rejected? ==>
              && resume.Some?
              && (resume.value.runId != c.runId || (resume.value.phase.ToolsPhase? && resume.value.pending == []))
              && host.now == old(host.now) && host.trace == old(host.trace) && host.durable == old(host.durable)
    ensures r.Finished? ==>
              var first := State(InitialTurn(messages, resume), Head, old(host.now), old(host.trace),
                                 old(host.durable));
              var last := Run(c, host.env, first);
              && host.now == last.now && host.trace == last.trace && host.durable == last.durable
              && r.status == last.pc.status && r.iterations == last.turn.iterations && r.usage == last.turn.usage
              && r.messages == last.turn.messages && r.messages == first.turn.messages + r.newMessages
              && r.finalText == last.turn.finalText
  {
    var refused := Refusal(c, resume);
    if refused.Some? { return Rejected(refused.value); }
    var t := InitialTurn(messages, resume);
    ghost var end := s => if Wf(c, s) then Run(c, host.env, s) else s;
    assert StepsKeep(c, host.env, end) by {
      forall s | Wf(c, s) ensures end(Step(c, host.env, s)) == end(s) {
        RunStep(c, host.env, s);
      }
    }
    var loop := new TurnLoop(c, host, t, end);
    ghost var first := loop.At(Head);
    RunKeepsMessages(c, host.env, first);
    var start := |loop.messages|;
    var status := loop.Loop();
    r := Finished(status, loop.messages, loop.messages[start..], loop.finalText, loop.iterations, loop.usage);
  }
}
