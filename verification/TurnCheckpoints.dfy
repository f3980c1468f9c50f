/**
 * Checkpoints and the turn that takes them up: whatever was stored on the way is accepted, and
 * the turn that resumes from it finishes the interrupted one.
 */
module TurnCheckpoints {
  import opened Wrappers
  import opened TurnMachine
  import opened TurnIds
  import opened TurnSafety
  import opened TurnResume
  import opened RunTurn

  ghost predicate Accepted(c: Config, k: Checkpoint) {
    Refusal(c, Some(k)).None?
  }

  ghost predicate AllAccepted(c: Config, trace: seq<Event>, durable: Option<Checkpoint>) {
    && (forall i :: 0 <= i < |trace| && trace[i].SavedState? ==> Accepted(c, trace[i].checkpoint))
    && (durable.Some? ==> Accepted(c, durable.value))
  }

  /** Calls are pending where the tools phase is saved. */
  ghost predicate Ready(c: Config, s: State) {
    && (s.pc.ReplySave? || s.pc.AnswerSave? ==> s.turn.pending != [])
    && AllAccepted(c, s.trace, s.durable)
  }

  lemma SaveAccepted(c: Config, e: Env, s: State, phase: Phase)
    requires AllAccepted(c, s.trace, s.durable) && (phase.ToolsPhase? ==> s.turn.pending != [])
    ensures var s' := Save(c, e, s, phase); AllAccepted(c, s'.trace, s'.durable)
  {
  }

  lemma EventAccepted(c: Config, trace: seq<Event>, durable: Option<Checkpoint>, ev: Event)
    requires AllAccepted(c, trace, durable) && !ev.SavedState?
    ensures AllAccepted(c, trace + [ev], durable)
  {
  }

  lemma AskModelReady(c: Config, e: Env, s: State)
    requires Lawful(c) && Ready(c, s)
    ensures Ready(c, AskModel(c, e, s))
  {
    var t := s.turn.(iterations := s.turn.iterations + 1);
    var answer := e.model(t.messages, s.now);
    EventAccepted(c, s.trace, s.durable, AskedModel(t.iterations));
    if answer.Reply? {
      var r := answer.response;
      AskedModelPc(c, e, s, r, TakeReply(c, t, r));
      if r.calls != [] { CallsOpen(c, t, r); }
    }
  }

  lemma CallsOpen(c: Config, t: Turn, r: Response)
    requires Lawful(c) && r.calls != []
    ensures TakeReply(c, t, r).pending != []
  {
    WithIdsIds(r.calls, c.assignIds(CallIds(r.calls), t.seen, t.iterations));
    assert |CallIds(TakeReply(c, t, r).pending)| == |r.calls|;
  }

  lemma BeginCallReady(c: Config, e: Env, s: State, stop: Option<Status>)
    requires Ready(c, s)
    ensures Ready(c, BeginCall(c, e, s, stop))
  {
    if s.turn.next < |s.turn.pending| {
      BeginCallCases(c, e, s, stop, StopBeforeCall(c, e, s, stop));
    }
  }

  lemma SaveInFlightReady(c: Config, e: Env, s: State, request: Request)
    requires Ready(c, s) && s.turn.next < |s.turn.pending|
    ensures Ready(c, SaveInFlight(c, e, s, request))
  {
    SaveAccepted(c, e, s.(turn := s.turn.(inFlight := Some(s.turn.pending[s.turn.next].id))), ToolsPhase);
  }

  lemma StepReady(c: Config, e: Env, s: State)
    requires Lawful(c) && Wf(c, s) && Ready(c, s)
    ensures Ready(c, Step(c, e, s))
  {
    match s.pc
    case Asking => AskModelReady(c, e, s);
    case FinalSave => SaveAccepted(c, e, s, ModelPhase);
    case ReplySave => SaveAccepted(c, e, s, ToolsPhase);
    case NextCall(stop) => BeginCallReady(c, e, s, stop);
    case Approving(request) => EventAccepted(c, s.trace, s.durable, AskedApproval(request, e.approve(request, s.now)));
    case PreSave(request) => SaveInFlightReady(c, e, s, request);
    case Invoking(request) => EventAccepted(c, s.trace, s.durable, Invoked(request));
    case Resuming(request) => EventAccepted(c, s.trace, s.durable, ResumedInvocation(request));
    case AnswerSave(_) => SaveAccepted(c, e, s, ToolsPhase);
    case ClearSave(_) => SaveAccepted(c, e, s.(turn := Cleared(s.turn)), ModelPhase);
    case _ =>
  }

  lemma CrashReady(c: Config, messages: seq<Message>, s: State)
    requires Ready(c, s)
    ensures Ready(c, Crash(messages, s))
  {
    EventAccepted(c, s.trace, s.durable, Restarted);
  }

  lemma {:induction false} AlwaysReady(c: Config, e: Env, messages: seq<Message>, schedule: seq<bool>)
    requires Lawful(c)
    ensures Ready(c, Exec(c, e, messages, schedule))
    decreases |schedule|
  {
    if schedule != [] {
      var s := Exec(c, e, messages, schedule[..|schedule| - 1]);
      AlwaysReady(c, e, messages, schedule[..|schedule| - 1]);
      if schedule[|schedule| - 1] {
        CrashReady(c, messages, s);
      } else {
        StepReady(c, e, s);
      }
    }
  }

  /** Whatever the world does, no checkpoint that a turn hands to its store is refused by that turn later. */
  lemma StoredIsAccepted(c: Config, e: Env, messages: seq<Message>, schedule: seq<bool>)
    requires ValidConfig(c)
    ensures var s := Exec(c, e, messages, schedule);
            && Refusal(c, s.durable) == None
            && forall i :: 0 <= i < |s.trace| && s.trace[i].SavedState? ==>
                 Refusal(c, Some(s.trace[i].checkpoint)) == None
  {
    ValidIsLawful(c);
    AlwaysReady(c, e, messages, schedule);
  }

  /**
   * After any crashes before the final reply is stored, `RunTurn` on what the store then holds is
   * not refused, and what it returns is what the uninterrupted turn returns: `first` is the state
   * its contract starts from, on whatever host.
   */
  lemma ResumedTurnFinishes(c: Config, a: Answers, messages: seq<Message>, schedule: seq<bool>,
                            now: nat, trace: seq<Event>, durable: Option<Checkpoint>)
    requires ValidConfig(c) && Setting(c, a) && CrashesBeforeReturn(c, a, messages, schedule)
    requires !FinalStored(Exec(c, World(a), messages, schedule).durable)
    ensures var s := Exec(c, World(a), messages, schedule);
            var first := State(InitialTurn(messages, s.durable), Head, now, trace, durable);
            Refusal(c, s.durable) == None && SameOutcome(c, Whole(c, a, messages), Run(c, World(a), first))
  {
    var s := Exec(c, World(a), messages, schedule);
    StoredIsAccepted(c, World(a), messages, schedule);
    CrashIsTransparentExactly(c, a, messages, schedule);
    RunTwin(c, a, Crash(messages, s), State(InitialTurn(messages, s.durable), Head, now, trace, durable));
  }
}
