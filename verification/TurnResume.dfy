/**
 * Crash transparency: when the model, the user and the tools answer the same question the same
 * way, saves work and nothing is aborted, a turn that crashes and resumes ends exactly as the
 * uninterrupted turn does.
 */
module TurnResume {
  import opened Wrappers
  import opened TurnMachine
  import opened TurnIds
  import opened TurnSafety

  /** Answers that depend on the question only. A resumed invocation yields what the invocation yields. */
  datatype Answers = Answers(model: seq<Message> -> ModelAnswer, approve: Request -> bool, tool: Request -> ToolOutcome)

  function World(a: Answers): Env {
    Env(at => false,
        (ms, at) => a.model(ms),
        (r, at) => if a.approve(r) then Granted else Refused,
        (r, at) => a.tool(r),
        (r, at) => a.tool(r),
        at => Saved)
  }

  ghost predicate Setting(c: Config, a: Answers) {
    Lawful(c) && ValidEnv(World(a)) && c.hasStore && c.canResume
  }

  // ---- Outcomes ----

  /**
   * Same transcript, iterations and usage, and the same status, except that a turn that stopped
   * on its token budget with no model call left may report the iteration limit instead.
   */
  ghost predicate SameOutcome(c: Config, a: State, b: State)
    requires a.pc.Done? && b.pc.Done?
  {
    && a.turn.messages == b.turn.messages
    && a.turn.iterations == b.turn.iterations
    && a.turn.usage == b.turn.usage
    && (|| a.pc == b.pc
        || (&& a.pc.status == TokenBudget && b.pc.status == MaxIterations
            && OverBudget(c, a.turn) && a.turn.iterations >= c.maxIterations))
  }

  /** Equal but for the final text, the clock, the history and the store. */
  ghost predicate Twin(s: State, u: State) {
    s.pc == u.pc && s.turn == u.turn.(finalText := s.turn.finalText)
  }

  lemma SaveTwin(c: Config, a: Answers, s: State, u: State, phase: Phase)
    requires Twin(s, u)
    ensures Twin(Save(c, World(a), s, phase), Save(c, World(a), u, phase))
  {
  }

  lemma TakeReplyTwin(c: Config, t: Turn, u: Turn, r: Response)
    requires t == u.(finalText := t.finalText)
    ensures TakeReply(c, t, r) == TakeReply(c, u, r).(finalText := TakeReply(c, t, r).finalText)
  {
  }

  lemma AskModelTwin(c: Config, a: Answers, s: State, u: State)
    requires Twin(s, u)
    ensures Twin(AskModel(c, World(a), s), AskModel(c, World(a), u))
  {
    var t, v := s.turn.(iterations := s.turn.iterations + 1), u.turn.(iterations := u.turn.iterations + 1);
    var answer := a.model(t.messages);
    if answer.Reply? {
      TakeReplyTwin(c, t, v, answer.response);
      AskedModelPc(c, World(a), s, answer.response, TakeReply(c, t, answer.response));
      AskedModelPc(c, World(a), u, answer.response, TakeReply(c, v, answer.response));
    }
  }

  lemma RecordTwin(s: State, u: State, answer: Answer, success: bool, stop: Option<Status>)
    requires s.turn == u.turn.(finalText := s.turn.finalText) && s.turn.next < |s.turn.pending|
    ensures Twin(Record(s, answer, success, stop), Record(u, answer, success, stop))
  {
  }

  lemma BeginTwin(c: Config, a: Answers, s: State, u: State, stop: Option<Status>)
    requires Twin(s, u)
    ensures Twin(BeginCall(c, World(a), s, stop), BeginCall(c, World(a), u, stop))
  {
    if s.turn.next < |s.turn.pending| {
      var s', u' := s.(now := s.now + 1), u.(now := u.now + 1);
      var stop' := StopBeforeCall(c, World(a), s, stop);
      assert stop' == StopBeforeCall(c, World(a), u, stop);
      if stop'.Some? {
        RecordTwin(s', u', NotRun(stop'.value), false, stop');
      } else if WasCutOff(s.turn) {
        RecordTwin(s', u', CutOff(s.turn.finish.value), false, None);
      } else {
        BeginRunnableTwin(c, a, s, u, stop, Prepare(c, s.turn.pending[s.turn.next]));
      }
    }
  }

  lemma BeginRunnableTwin(c: Config, a: Answers, s: State, u: State, stop: Option<Status>, p: Prepared)
    requires Twin(s, u) && s.turn.next < |s.turn.pending| && p == Prepare(c, s.turn.pending[s.turn.next])
    requires StopBeforeCall(c, World(a), s, stop).None? && !WasCutOff(s.turn)
    ensures Twin(BeginCall(c, World(a), s, stop), BeginCall(c, World(a), u, stop))
  {
    var s', u' := s.(now := s.now + 1), u.(now := u.now + 1);
    var resuming := s.turn.inFlight == Some(s.turn.pending[s.turn.next].id);
    if p.NotRunnable? {
      RecordTwin(s', u', p.answer, false, None);
    } else if !resuming && p.spec.NeedsApproval() && !c.canApprove {
      RecordTwin(s', u', NobodyToAsk(p.spec.name), false, None);
    } else if resuming && !c.canResume {
      RecordTwin(s', u', CannotResumeSafely, false, Some(CheckpointFailed));
    }
  }

  lemma CallTwin(c: Config, a: Answers, s: State, u: State)
    requires Wf(c, s) && Twin(s, u) && InCall(s.pc)
    ensures Twin(Step(c, World(a), s), Step(c, World(a), u))
  {
    if s.pc.PreSave? {
      var id := s.turn.pending[s.turn.next].id;
      SaveTwin(c, a, s.(turn := s.turn.(inFlight := Some(id))), u.(turn := u.turn.(inFlight := Some(id))), ToolsPhase);
    }
  }

  lemma StepTwin(c: Config, a: Answers, s: State, u: State)
    requires Wf(c, s) && Wf(c, u) && Twin(s, u)
    ensures Twin(Step(c, World(a), s), Step(c, World(a), u))
  {
    match s.pc
    case Asking => AskModelTwin(c, a, s, u);
    case NextCall(stop) => BeginTwin(c, a, s, u, stop);
    case FinalSave => SaveTwin(c, a, s, u, ModelPhase);
    case ReplySave => SaveTwin(c, a, s, u, ToolsPhase);
    case AnswerSave(_) => SaveTwin(c, a, s, u, ToolsPhase);
    case ClearSave(_) => SaveTwin(c, a, s.(turn := Cleared(s.turn)), u.(turn := Cleared(u.turn)), ModelPhase);
    case Approving(_) => CallTwin(c, a, s, u);
    case PreSave(_) => CallTwin(c, a, s, u);
    case Invoking(_) => CallTwin(c, a, s, u);
    case Resuming(_) => CallTwin(c, a, s, u);
    case _ =>
  }

  /** The rest of a turn depends on what its memory holds, not on clock, history or store. */
  lemma {:induction false} RunTwin(c: Config, a: Answers, s: State, u: State)
    requires Wf(c, s) && Wf(c, u) && Twin(s, u)
    ensures Twin(Run(c, World(a), s), Run(c, World(a), u))
    decreases CallsLeft(c, s), WorkLeft(s)
  {
    if !s.pc.Done? {
      StepTwin(c, a, s, u);
      StepMakesProgress(c, World(a), s);
      RunTwin(c, a, Step(c, World(a), s), Step(c, World(a), u));
    }
  }

  // ---- What a quiet world keeps ----

  ghost predicate StopOk(c: Config, t: Turn, stop: Option<Status>) {
    stop == None || (stop == Some(TokenBudget) && OverBudget(c, t))
  }

  /** No save fails, nothing is aborted, and a call being worked on is neither cut off nor over budget. */
  ghost predicate Quiet(c: Config, s: State) {
    && !s.turn.failed
    && match s.pc
       case NextCall(stop) => StopOk(c, s.turn, stop)
       case AnswerSave(stop) => StopOk(c, s.turn, stop) && s.turn.pending != []
       case ClearSave(stop) => StopOk(c, s.turn, stop)
       case Approving(_) => !OverBudget(c, s.turn) && !WasCutOff(s.turn)
       case PreSave(_) => !OverBudget(c, s.turn) && !WasCutOff(s.turn)
       case Invoking(_) => !OverBudget(c, s.turn) && !WasCutOff(s.turn)
       case Resuming(_) => !OverBudget(c, s.turn) && !WasCutOff(s.turn)
       case _ => true
  }

  lemma AskModelQuiet(c: Config, a: Answers, s: State)
    requires !s.turn.failed
    ensures Quiet(c, AskModel(c, World(a), s))
  {
    var t := s.turn.(iterations := s.turn.iterations + 1);
    var answer := a.model(t.messages);
    if answer.Reply? {
      AskedModelPc(c, World(a), s, answer.response, TakeReply(c, t, answer.response));
    }
  }

  lemma StepQuiet(c: Config, a: Answers, s: State)
    requires Setting(c, a) && Wf(c, s) && Quiet(c, s)
    ensures Quiet(c, Step(c, World(a), s))
  {
    match s.pc
    case Asking => AskModelQuiet(c, a, s);
    case _ =>
  }

  // ---- Resuming from a checkpoint that was just saved ----

  /** A new process that starts from checkpoint `k`. */
  function Resumed(k: Checkpoint): State {
    State(ResumedTurn(k), Head, 0, [], Some(k))
  }

  /** Resuming from the checkpoint kept in `s.durable` ends as `s` itself ends. */
  ghost predicate Covered(c: Config, a: Answers, s: State)
    requires Wf(c, s) && s.durable.Some?
  {
    SameOutcome(c, Run(c, World(a), s), Run(c, World(a), Resumed(s.durable.value)))
  }

  lemma ReplySaveCovers(c: Config, a: Answers, s: State)
    requires Setting(c, a) && IdsOk(s.turn) && Quiet(c, s) && s.pc.ReplySave?
    ensures Step(c, World(a), s).durable.Some? && Covered(c, a, Step(c, World(a), s))
  {
    var s' := Step(c, World(a), s);
    RunTwin(c, a, s', Resumed(s'.durable.value));
  }

  lemma AnswerSaveCovers(c: Config, a: Answers, s: State, stop: Option<Status>)
    requires Setting(c, a) && IdsOk(s.turn) && Quiet(c, s) && s.pc == AnswerSave(stop) && s.turn.inFlight.None?
    ensures Step(c, World(a), s).durable.Some? && Covered(c, a, Step(c, World(a), s))
  {
    var e := World(a);
    var s' := Step(c, e, s);
    var u := Resumed(s'.durable.value);
    var u1 := Step(c, e, u);
    assert u1.pc == NextCall(None) && u1.turn == s'.turn.(finalText := "");
    RunStep(c, e, u);
    if stop.None? {
      RunTwin(c, a, s', u1);
    } else if s.turn.next < |s.turn.pending| {
      OverBudgetAnyway(c, a, s', u1);
    } else {
      BudgetStopCovers(c, a, s', u1);
    }
  }

  /** Over budget, a call is answered the same way whether or not the stop reason was remembered. */
  lemma OverBudgetAnyway(c: Config, a: Answers, s: State, u: State)
    requires s.pc == NextCall(Some(TokenBudget)) && u.pc == NextCall(None)
    requires u.turn == s.turn.(finalText := "") && OverBudget(c, s.turn) && s.turn.next < |s.turn.pending|
    ensures SameOutcome(c, Run(c, World(a), s), Run(c, World(a), u))
  {
    var e := World(a);
    RunStep(c, e, s);
    RunStep(c, e, u);
    assert Twin(Step(c, e, s), Step(c, e, u));
    RunTwin(c, a, Step(c, e, s), Step(c, e, u));
  }

  /** Over budget with every call answered, both end: on the budget, or on the iteration limit. */
  lemma BudgetStopCovers(c: Config, a: Answers, s: State, u: State)
    requires c.hasStore && !s.turn.failed
    requires s.pc == NextCall(Some(TokenBudget)) && u.pc == NextCall(None)
    requires u.turn == s.turn.(finalText := "") && OverBudget(c, s.turn) && s.turn.next >= |s.turn.pending|
    ensures SameOutcome(c, Run(c, World(a), s), Run(c, World(a), u))
  {
    var e := World(a);
    var s1, u1 := Step(c, e, s), Step(c, e, u);
    RunStep(c, e, s);
    RunStep(c, e, u);
    ClearBudgetCovers(c, a, s1, u1);
  }

  lemma ClearBudgetCovers(c: Config, a: Answers, s: State, u: State)
    requires c.hasStore && !s.turn.failed
    requires s.pc == ClearSave(Some(TokenBudget)) && u.pc == ClearSave(None)
    requires u.turn == s.turn.(finalText := "") && OverBudget(c, s.turn)
    ensures SameOutcome(c, Run(c, World(a), s), Run(c, World(a), u))
  {
    var e := World(a);
    var s1, u1 := Step(c, e, s), Step(c, e, u);
    RunStep(c, e, s);
    RunStep(c, e, u);
    assert s1.pc == Done(TokenBudget) && u1.pc == Head;
    OverBudgetHeadEnds(c, a, u1);
  }

  lemma OverBudgetHeadEnds(c: Config, a: Answers, u: State)
    requires u.pc.Head? && u.turn.pending == [] && OverBudget(c, u.turn)
    ensures var r := Run(c, World(a), u);
            && r.turn == u.turn
            && r.pc == Done(if u.turn.iterations >= c.maxIterations then MaxIterations else TokenBudget)
  {
    RunStep(c, World(a), u);
    assert Step(c, World(a), u) == LoopHead(c, World(a), u);
  }

  /** The checkpoint stored before an invocation. */
  lemma PreSaveStores(c: Config, a: Answers, s: State, r: Request)
    requires Setting(c, a) && Wf(c, s) && Quiet(c, s) && s.pc == PreSave(r) && r.id == s.turn.pending[s.turn.next].id
    ensures var s' := Step(c, World(a), s);
            && s'.pc == Invoking(r) && s'.turn == s.turn.(inFlight := Some(r.id))
            && s'.durable == Some(Snapshot(c, s'.turn, ToolsPhase))
  {
  }

  lemma PreSaveCovers(c: Config, a: Answers, s: State, r: Request)
    requires Setting(c, a) && Inv(c, s) && Quiet(c, s) && s.pc == PreSave(r)
    ensures Step(c, World(a), s).durable.Some? && Covered(c, a, Step(c, World(a), s))
  {
    PreSaveStores(c, a, s, r);
    InFlightCovers(c, a, Step(c, World(a), s), r);
  }

  /** From a checkpoint with a call in flight the new process gets to the same recorded result. */
  lemma InFlightCovers(c: Config, a: Answers, s: State, r: Request)
    requires Setting(c, a) && IdsOk(s.turn) && !s.turn.failed && s.pc == Invoking(r)
    requires InCallOk(c, s.turn, r) && s.turn.inFlight == Some(r.id)
    requires !OverBudget(c, s.turn) && !WasCutOff(s.turn)
    requires s.durable == Some(Snapshot(c, s.turn, ToolsPhase))
    ensures Covered(c, a, s)
  {
    var e := World(a);
    var u := Resumed(s.durable.value);
    var u1 := Step(c, e, u);
    assert u1.pc == NextCall(None) && u1.turn == s.turn.(finalText := "");
    var u2 := Step(c, e, u1);
    ResumesInFlight(c, a, u1, r);
    RunStep(c, e, u);
    RunStep(c, e, u1);
    ResumeMatchesInvoke(c, a, s, u2, r);
  }

  lemma ResumeMatchesInvoke(c: Config, a: Answers, s: State, u: State, r: Request)
    requires Wf(c, s) && s.pc == Invoking(r) && u.pc == Resuming(r)
    requires s.turn == u.turn.(finalText := s.turn.finalText)
    ensures Twin(Run(c, World(a), s), Run(c, World(a), u))
  {
    var e := World(a);
    RunStep(c, e, s);
    RunStep(c, e, u);
    assert Twin(Step(c, e, s), Step(c, e, u));
    RunTwin(c, a, Step(c, e, s), Step(c, e, u));
  }

  /** The call marked in flight is taken up again with the same request and without asking again. */
  lemma ResumesInFlight(c: Config, a: Answers, s: State, r: Request)
    requires c.canResume && s.pc == NextCall(None) && InCallOk(c, s.turn, r) && s.turn.inFlight == Some(r.id)
    requires !OverBudget(c, s.turn) && !WasCutOff(s.turn)
    ensures var s' := Step(c, World(a), s); s'.pc == Resuming(r) && s'.turn == s.turn
  {
  }

  lemma ClearSaveCovers(c: Config, a: Answers, s: State, stop: Option<Status>)
    requires Setting(c, a) && IdsOk(s.turn) && Quiet(c, s) && s.pc == ClearSave(stop)
    ensures Step(c, World(a), s).durable.Some? && Covered(c, a, Step(c, World(a), s))
  {
    var e := World(a);
    var s' := Step(c, e, s);
    var u := Resumed(s'.durable.value);
    assert u.turn == s'.turn.(finalText := "");
    if stop.None? {
      RunTwin(c, a, s', u);
    } else {
      OverBudgetHeadEnds(c, a, u);
    }
  }

  /** Every save but the one after the final reply leaves a checkpoint from which the turn ends the same. */
  lemma SaveCovers(c: Config, a: Answers, s: State)
    requires Setting(c, a) && Inv(c, s) && Quiet(c, s) && !s.pc.FinalSave?
    ensures var s' := Step(c, World(a), s);
            s'.durable == s.durable || (s'.durable.Some? && Covered(c, a, s'))
  {
    match s.pc
    case ReplySave => ReplySaveCovers(c, a, s);
    case AnswerSave(stop) => AnswerSaveCovers(c, a, s, stop);
    case PreSave(r) => PreSaveCovers(c, a, s, r);
    case ClearSave(stop) => ClearSaveCovers(c, a, s, stop);
    case _ =>
  }

  // ---- Whole schedules ----

  /**
   * The store holds the checkpoint saved after a final reply: the last message is the model's, and no
   * call is pending.
   */
  predicate FinalStored(durable: Option<Checkpoint>) {
    durable.Some? && durable.value.phase.ModelPhase? && LastRole(durable.value.messages) == Some(Assistant)
  }

  function LastRole(messages: seq<Message>): Option<Role> {
    if messages == [] then None else Some(messages[|messages| - 1].role)
  }

  /** No crash hits a turn whose final reply is stored. */
  ghost predicate CrashesBeforeReturn(c: Config, a: Answers, messages: seq<Message>, schedule: seq<bool>) {
    forall i :: 0 <= i < |schedule| && schedule[i] ==> !FinalStored(Exec(c, World(a), messages, schedule[..i]).durable)
  }

  lemma NoCrashes(c: Config, a: Answers, messages: seq<Message>, schedule: seq<bool>)
    requires true !in schedule
    ensures CrashesBeforeReturn(c, a, messages, schedule)
  {
  }

  /** So is the schedule one entry before. */
  lemma OneEntryLess(c: Config, a: Answers, messages: seq<Message>, schedule: seq<bool>)
    requires schedule != [] && CrashesBeforeReturn(c, a, messages, schedule)
    ensures var n := |schedule| - 1;
            && CrashesBeforeReturn(c, a, messages, schedule[..n])
            && (schedule[n] ==> !FinalStored(Exec(c, World(a), messages, schedule[..n]).durable))
  {
    var front := schedule[..|schedule| - 1];
    forall i | 0 <= i < |front| && front[i] ensures !FinalStored(Exec(c, World(a), messages, front[..i]).durable) {
      assert front[..i] == schedule[..i];
    }
  }

  // ---- What the store tells ----

  /** Once a pending call is answered, the last message is an answer. */
  predicate AnswersLast(messages: seq<Message>, next: nat) {
    next > 0 ==> LastRole(messages) == Some(Tool)
  }

  /**
   * The store holds a final reply exactly when the turn has completed; until then an answer or a call
   * ends what is stored.
   */
  ghost predicate Told(s: State) {
    && AnswersLast(s.turn.messages, s.turn.next)
    && (s.durable.Some? ==> AnswersLast(s.durable.value.messages, s.durable.value.next))
    && (s.pc.NextCall? || s.pc.ClearSave? ==> s.turn.pending != [])
    && (s.pc.FinalSave? ==> LastRole(s.turn.messages) == Some(Assistant))
    && (FinalStored(s.durable) <==> s.pc == Done(Completed))
  }

  lemma AskModelTold(c: Config, a: Answers, s: State)
    requires Told(s) && s.turn.next == 0 && s.pc == Asking
    ensures Told(AskModel(c, World(a), s))
  {
    var t := s.turn.(iterations := s.turn.iterations + 1);
    var answer := a.model(t.messages);
    if answer.Reply? {
      AskedModelPc(c, World(a), s, answer.response, TakeReply(c, t, answer.response));
    }
  }

  lemma BeginCallTold(c: Config, a: Answers, s: State, stop: Option<Status>)
    requires Told(s) && s.pc == NextCall(stop)
    ensures Told(BeginCall(c, World(a), s, stop))
  {
    if s.turn.next < |s.turn.pending| {
      BeginCallCases(c, World(a), s, stop, StopBeforeCall(c, World(a), s, stop));
      StartCallTold(c, s.(now := s.now + 1), Prepare(c, s.turn.pending[s.turn.next]));
    }
  }

  lemma StartCallTold(c: Config, s: State, p: Prepared)
    requires Told(s) && s.pc.NextCall? && s.turn.next < |s.turn.pending|
    ensures Told(StartCall(c, s, p))
  {
  }

  lemma InCallTold(c: Config, a: Answers, s: State)
    requires c.hasStore && !s.turn.failed && Told(s) && InCall(s.pc) && s.turn.next < |s.turn.pending|
    ensures Told(Step(c, World(a), s))
  {
  }

  lemma SaveTold(c: Config, a: Answers, s: State)
    requires c.hasStore && !s.turn.failed && Told(s)
    requires s.pc.FinalSave? || s.pc.ReplySave? || s.pc.AnswerSave? || s.pc.ClearSave?
    requires s.pc.AnswerSave? ==> s.turn.pending != []
    requires s.pc.ClearSave? ==> s.turn.next >= |s.turn.pending| && s.pc.stop != Some(Completed)
    ensures Told(Step(c, World(a), s))
  {
  }

  lemma StepTold(c: Config, a: Answers, s: State)
    requires Setting(c, a) && Inv(c, s) && Quiet(c, s) && Told(s)
    ensures Told(Step(c, World(a), s))
  {
    if InCall(s.pc) {
      InCallTold(c, a, s);
    } else {
      match s.pc
      case Head => assert LoopHead(c, World(a), s).turn == s.turn && LoopHead(c, World(a), s).durable == s.durable;
      case Asking => AskModelTold(c, a, s);
      case NextCall(stop) => BeginCallTold(c, a, s, stop);
      case Done(_) =>
      case _ => SaveTold(c, a, s);
    }
  }

  /** The uninterrupted turn. */
  ghost function Whole(c: Config, a: Answers, messages: seq<Message>): State {
    Run(c, World(a), Start(messages))
  }

  ghost predicate OnCourse(c: Config, a: Answers, messages: seq<Message>, s: State) {
    && Inv(c, s) && Quiet(c, s)
    && SameOutcome(c, Whole(c, a, messages), Run(c, World(a), s))
    && (s.durable.Some? && s.pc != Done(Completed) ==>
          SameOutcome(c, Whole(c, a, messages), Run(c, World(a), Resumed(s.durable.value))))
  }

  lemma StepOnCourse(c: Config, a: Answers, messages: seq<Message>, s: State)
    requires Setting(c, a) && OnCourse(c, a, messages, s)
    ensures OnCourse(c, a, messages, Step(c, World(a), s))
  {
    StepKeeps(c, World(a), s);
    StepQuiet(c, a, s);
    RunStep(c, World(a), s);
    if !s.pc.FinalSave? {
      SaveCovers(c, a, s);
    } else {
      assert Step(c, World(a), s).pc == Done(Completed);
    }
  }

  lemma CrashOnCourse(c: Config, a: Answers, messages: seq<Message>, s: State)
    requires Setting(c, a) && OnCourse(c, a, messages, s) && s.pc != Done(Completed)
    ensures OnCourse(c, a, messages, Crash(messages, s))
  {
    CrashKeeps(c, messages, s);
    var s' := Crash(messages, s);
    if s.durable.Some? {
      RunTwin(c, a, s', Resumed(s.durable.value));
    } else {
      RunTwin(c, a, s', Start(messages));
    }
  }

  lemma {:induction false} AlwaysOnCourse(c: Config, a: Answers, messages: seq<Message>, schedule: seq<bool>)
    requires Setting(c, a) && CrashesBeforeReturn(c, a, messages, schedule)
    ensures var s := Exec(c, World(a), messages, schedule); OnCourse(c, a, messages, s) && Told(s)
    decreases |schedule|
  {
    if schedule != [] {
      var n := |schedule| - 1;
      var front := schedule[..n];
      OneEntryLess(c, a, messages, schedule);
      AlwaysOnCourse(c, a, messages, front);
      if schedule[n] {
        CrashOnCourse(c, a, messages, Exec(c, World(a), messages, front));
      } else {
        StepOnCourse(c, a, messages, Exec(c, World(a), messages, front));
        StepTold(c, a, Exec(c, World(a), messages, front));
      }
    }
  }

  /**
   * However often the process crashed on the way and wherever it stands, letting it run to the
   * end gives the outcome of the uninterrupted turn.
   */
  lemma CrashesAreTransparent(c: Config, a: Answers, messages: seq<Message>, schedule: seq<bool>)
    requires Setting(c, a) && CrashesBeforeReturn(c, a, messages, schedule)
    ensures SameOutcome(c, Whole(c, a, messages), Run(c, World(a), Exec(c, World(a), messages, schedule)))
  {
    AlwaysOnCourse(c, a, messages, schedule);
  }

  /** Without a token budget the outcome is the same in every part, the status included. */
  lemma CrashesAreTransparentWithoutBudget(c: Config, a: Answers, messages: seq<Message>, schedule: seq<bool>)
    requires Setting(c, a) && CrashesBeforeReturn(c, a, messages, schedule) && c.maxTotalTokens.None?
    ensures var whole, resumed := Whole(c, a, messages), Run(c, World(a), Exec(c, World(a), messages, schedule));
            && whole.pc == resumed.pc
            && whole.turn.messages == resumed.turn.messages
            && whole.turn.iterations == resumed.turn.iterations
            && whole.turn.usage == resumed.turn.usage
  {
    AlwaysOnCourse(c, a, messages, schedule);
  }

  // ---- After the final reply ----

  lemma {:induction false} IterationsNeverDrop(c: Config, a: Answers, s: State)
    requires Wf(c, s)
    ensures Run(c, World(a), s).turn.iterations >= s.turn.iterations
    decreases CallsLeft(c, s), WorkLeft(s)
  {
    if !s.pc.Done? {
      StepMakesProgress(c, World(a), s);
      StepIterations(c, a, s);
      IterationsNeverDrop(c, a, Step(c, World(a), s));
    }
  }

  lemma StepIterations(c: Config, a: Answers, s: State)
    requires Wf(c, s)
    ensures Step(c, World(a), s).turn.iterations >= s.turn.iterations
  {
  }

  lemma AskedIterations(c: Config, a: Answers, s: State)
    ensures AskModel(c, World(a), s).turn.iterations == s.turn.iterations + 1
  {
  }

  /** The model is asked again when a process starts from the checkpoint of a finished turn. */
  lemma FinalCheckpointAsksAgain(c: Config, a: Answers, s: State)
    requires s.pc.Head? && s.turn.pending == []
    ensures var r := Run(c, World(a), s);
            r.turn.iterations > s.turn.iterations || r.pc.status in {MaxIterations, TokenBudget}
  {
    var e := World(a);
    RunStep(c, e, s);
    var s1 := Step(c, e, s);
    if s1.pc.Asking? {
      RunStep(c, e, s1);
      AskedIterations(c, a, s1);
      IterationsNeverDrop(c, a, Step(c, e, s1));
    }
  }

  /** What is stored when the turn completes. */
  ghost predicate CompletedStores(s: State) {
    s.pc == Done(Completed) ==>
      && s.durable.Some?
      && s.durable.value.pending == [] && s.durable.value.iteration == s.turn.iterations
  }

  lemma {:induction false} AlwaysStores(c: Config, a: Answers, messages: seq<Message>, schedule: seq<bool>)
    requires Setting(c, a) && CrashesBeforeReturn(c, a, messages, schedule)
    ensures CompletedStores(Exec(c, World(a), messages, schedule))
    decreases |schedule|
  {
    if schedule != [] {
      var n := |schedule| - 1;
      var front := schedule[..n];
      OneEntryLess(c, a, messages, schedule);
      AlwaysStores(c, a, messages, front);
      AlwaysOnCourse(c, a, messages, front);
      var s := Exec(c, World(a), messages, front);
      if !schedule[n] {
        StepStores(c, a, s);
      }
    }
  }

  lemma StepStores(c: Config, a: Answers, s: State)
    requires Setting(c, a) && Wf(c, s) && Quiet(c, s) && CompletedStores(s)
    ensures CompletedStores(Step(c, World(a), s))
  {
    match s.pc
    case Asking => AskModelQuiet(c, a, s);
    case _ =>
  }

  lemma TransparentUnlessCompleted(c: Config, a: Answers, messages: seq<Message>, s: State)
    requires Setting(c, a) && OnCourse(c, a, messages, s) && CompletedStores(s)
    ensures SameOutcome(c, Whole(c, a, messages), Run(c, World(a), Crash(messages, s))) <==> s.pc != Done(Completed)
  {
    if s.pc != Done(Completed) {
      CrashOnCourse(c, a, messages, s);
    } else {
      FinalCheckpointAsksAgain(c, a, Crash(messages, s));
      assert Run(c, World(a), s) == s;
    }
  }

  /**
   * One crash more is transparent exactly when the store does not end with the model's final
   * reply. Whoever resumes can tell that from the checkpoint, but the turn asks the model again.
   */
  lemma CrashIsTransparentExactly(c: Config, a: Answers, messages: seq<Message>, schedule: seq<bool>)
    requires Setting(c, a) && CrashesBeforeReturn(c, a, messages, schedule)
    ensures var s := Exec(c, World(a), messages, schedule);
            && (SameOutcome(c, Whole(c, a, messages), Run(c, World(a), Crash(messages, s))) <==>
                  !FinalStored(s.durable))
            && (FinalStored(s.durable) <==> s.pc == Done(Completed))
  {
    AlwaysOnCourse(c, a, messages, schedule);
    AlwaysStores(c, a, messages, schedule);
    TransparentUnlessCompleted(c, a, messages, Exec(c, World(a), messages, schedule));
  }

  /** A model that is done at once, and says so whenever it is asked. */
  function AnswersAtOnce(): Answers {
    Answers(ms => Reply(Response("done", [], [], Stop, NO_USAGE)), r => false, r => ToolOutcome(false, ""))
  }

  /**
   * The other case does occur: this turn completes with one model call, and when it is resumed its
   * model is called again, or the iteration limit is reported if no call is left.
   */
  lemma CompletedTurnAsksAgain(c: Config, messages: seq<Message>)
    requires ValidConfig(c) && c.maxTotalTokens.None? && c.hasStore && c.canResume
    ensures var a, schedule := AnswersAtOnce(), [false, false, false];
            var s := Exec(c, World(a), messages, schedule);
            var resumed := Run(c, World(a), Crash(messages, s));
            && Setting(c, a) && CrashesBeforeReturn(c, a, messages, schedule)
            && s == Whole(c, a, messages) && s.pc == Done(Completed) && s.turn.iterations == 1
            && (if c.maxIterations >= 2 then resumed.turn.iterations == 2 else resumed.pc == Done(MaxIterations))
            && !SameOutcome(c, s, resumed)
  {
    var a := AnswersAtOnce();
    AnswersSuit(c);
    ExecThree(c, World(a), messages, [], [false, false, false]);
    CompletesInThree(c, a, Start(messages));
    ResumedAfterCompletion(c, a, messages, Exec(c, World(a), messages, [false, false, false]));
  }

  lemma AnswersSuit(c: Config)
    requires ValidConfig(c) && c.hasStore && c.canResume
    ensures Setting(c, AnswersAtOnce())
  {
    ValidIsLawful(c);
  }

  lemma ResumedAfterCompletion(c: Config, a: Answers, messages: seq<Message>, s: State)
    requires a == AnswersAtOnce() && c.maxIterations >= 1 && c.maxTotalTokens.None? && c.hasStore
    requires s.pc == Done(Completed) && s.turn.iterations == 1 && s.durable == Some(Snapshot(c, s.turn, ModelPhase))
    ensures var resumed := Run(c, World(a), Crash(messages, s));
            && (if c.maxIterations >= 2 then resumed.turn.iterations == 2 else resumed.pc == Done(MaxIterations))
            && !SameOutcome(c, s, resumed)
  {
    var u := Crash(messages, s);
    if c.maxIterations >= 2 {
      CompletesInThree(c, a, u);
    } else {
      RunStep(c, World(a), u);
    }
  }

  lemma CompletesInThree(c: Config, a: Answers, s: State)
    requires a == AnswersAtOnce() && c.maxTotalTokens.None? && c.hasStore
    requires s.pc == Head && s.turn.pending == [] && s.turn.iterations < c.maxIterations && !s.turn.failed
    ensures var e := World(a);
            var s3 := Step(c, e, Step(c, e, Step(c, e, s)));
            && Run(c, e, s) == s3 && s3.pc == Done(Completed) && s3.turn.iterations == s.turn.iterations + 1
            && s3.durable == Some(Snapshot(c, s3.turn, ModelPhase))
  {
    var e := World(a);
    var s1 := Step(c, e, s);
    assert s1 == s.(now := s.now + 1, pc := Asking);
    var s2 := Step(c, e, s1);
    assert s2.pc == FinalSave && s2.turn.iterations == s.turn.iterations + 1 && !s2.turn.failed;
    var s3 := Step(c, e, s2);
    assert s3.pc == Done(Completed) && Run(c, e, s3) == s3;
    RunStep(c, e, s);
    RunStep(c, e, s1);
    RunStep(c, e, s2);
  }
}
