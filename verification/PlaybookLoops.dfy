/** Loop exactness: how many passes a loop makes, what it records of them, and what it leaves alone. */
module PlaybookLoops {
  import opened Wrappers
  import opened Texts
  import opened Playbook
  import opened PlaybookRuns
  import ToolIds

  /** What the walker waits for an answer about the loop, if anything. */
  function PendingKind(pending: Option<Decision>, loop: string): Option<DecisionKind> {
    if pending.Some? && pending.value.nodeId == loop then Some(pending.value.kind) else None
  }

  /**
   * The record of an active loop agrees with the passes that were started since it was entered:
   * one more than the finished ones during a pass, as many while a stop question is open.
   */
  ghost predicate CountOk(config: Config, it: LoopIter, asked: Option<DecisionKind>, started: nat) {
    match asked
    case Some(CountDecision) => it.iteration == 0
    case Some(StopDecision) =>
      && it.iteration >= 1 && started == it.iteration
      && config.hasCondition && (config.loopMode.AskOrchestrator? ==> it.resolvedMax.Some?)
    case _ =>
      && started == it.iteration + 1
      && (config.loopMode.AskOrchestrator? ==> it.resolvedMax.Some?)
  }

  function Started(passes: map<string, nat>, loop: string): nat {
    if loop in passes then passes[loop] else 0
  }

  ghost predicate LoopCounted(d: Definition, loops: map<string, LoopIter>, pending: Option<Decision>,
                              passes: map<string, nat>, loop: string)
    requires loop in loops
  {
    && GetNode(d, loop).Some?
    && CountOk(GetNode(d, loop).value.config, loops[loop], PendingKind(pending, loop), Started(passes, loop))
  }

  ghost predicate AllCounted(d: Definition, loops: map<string, LoopIter>, pending: Option<Decision>,
                             passes: map<string, nat>) {
    forall l :: l in loops ==> LoopCounted(d, loops, pending, passes, l)
  }

  ghost predicate CountsOk(d: Definition, w: World) {
    AllCounted(d, w.state.loops, w.state.pending, w.passes)
  }

  function ItemsAtEntry(entered: map<string, seq<Item>>, loop: string): seq<Item> {
    if loop in entered then entered[loop] else []
  }

  function CountAnswered(answered: map<string, nat>, loop: string): nat {
    if loop in answered then answered[loop] else 0
  }

  /** The record of an active loop holds the items merged upstream at its entry, or the count that was answered. */
  ghost predicate InputsOk(d: Definition, loop: string, it: LoopIter, entered: map<string, seq<Item>>,
                           answered: map<string, nat>) {
    && GetNode(d, loop).Some?
    && (GetNode(d, loop).value.config.loopMode.ForEach? ==> it.items == ItemsAtEntry(entered, loop))
    && (it.resolvedMax.Some? ==> it.resolvedMax == Some(CountAnswered(answered, loop)))
  }

  ghost predicate AllInputsOk(d: Definition, loops: map<string, LoopIter>, entered: map<string, seq<Item>>,
                              answered: map<string, nat>) {
    forall l :: l in loops ==> InputsOk(d, l, loops[l], entered, answered)
  }

  ghost predicate RecordsOk(d: Definition, w: World) {
    AllInputsOk(d, w.state.loops, w.entered, w.answered)
  }

  /** The record with which a pass starts: a new one, the one of the pass just finished, or the one asked about. */
  ghost predicate PassFrom(d: Definition, w: World, m: Move, ch: Change)
    requires ch.BeginPass? && GetNode(d, ch.loop).Some?
  {
    var l, it := ch.loop, ch.it;
    if l !in w.state.loops then
      && m.Next? && it.iteration == 0 && it.resolvedMax.None?
      && var mode := GetNode(d, l).value.config.loopMode;
      && !mode.AskOrchestrator?
      && (mode.ForEach? ==> it.items == FirstMerged(UpstreamOutputs(d, l, w.state.outputs)))
    else
      match PendingKind(w.state.pending, l)
      case Some(CountDecision) =>
        && m.Decide? && it.iteration == 0 && it.resolvedMax == Some(CountIn(m.text))
        && it.items == w.state.loops[l].items
      case Some(_) => w.state.pending.value.kind.StopDecision? && it == w.state.loops[l]
      case None => it == FinishPass(w.state.loops[l], w.state.outputs)
  }

  /** Why a loop ends. */
  ghost predicate ExitFrom(d: Definition, w: World, m: Move, ch: Change)
    requires ch.EndLoop? && ch.loop in w.state.loops && GetNode(d, ch.loop).Some?
  {
    var l, it := ch.loop, ch.it;
    var config := GetNode(d, l).value.config;
    match PendingKind(w.state.pending, l)
    case Some(CountDecision) =>
      ch.reason == OrchestratorZero && it == w.state.loops[l] && m.Decide? && CountIn(m.text) == 0
    case Some(_) => ch.reason == ConditionMet && config.hasCondition && it == w.state.loops[l]
    case None =>
      && it == FinishPass(w.state.loops[l], w.state.outputs)
      && (|| (it.iteration >= PassLimit(config, it) && ch.reason == LimitReason(config.loopMode))
          || (config.hasCondition && ch.reason == ConditionMet))
  }

  /** What a loop asks about. */
  ghost predicate AskFrom(d: Definition, w: World, ch: Change)
    requires ch.AskLoop?
  {
    var l := ch.decision.nodeId;
    if l !in w.state.loops then ch.decision.kind.CountDecision? && ch.it.resolvedMax.None?
    else
      && ch.decision.kind.StopDecision? && ch.it == FinishPass(w.state.loops[l], w.state.outputs)
      && GetNode(d, l).Some? && GetNode(d, l).value.config.hasCondition
  }

  ghost predicate LoopStep(d: Definition, w: World, m: Move, ch: Change) {
    && (ch.BeginPass? ==> GetNode(d, ch.loop).Some? && PassFrom(d, w, m, ch))
    && (ch.EndLoop? ==> ch.loop in w.state.loops && GetNode(d, ch.loop).Some? && ExitFrom(d, w, m, ch))
    && (ch.AskLoop? ==> AskFrom(d, w, ch))
  }

  lemma EnterLoopStep(d: Definition, w: World, node: Node, stop: bool, body: set<string>, ch: Change)
    requires GetNode(d, node.id) == Some(node) && node.id !in w.state.loops && ch == EnterLoop(d, w.state, node, body)
    ensures LoopStep(d, w, Next(stop), ch)
  {
  }

  lemma ReenterLoopStep(d: Definition, w: World, node: Node, stop: bool, ch: Change)
    requires w.state.pending.None? && GetNode(d, node.id) == Some(node)
    requires node.id in w.state.loops && ch == ReenterLoop(w.state, node, stop)
    ensures LoopStep(d, w, Next(stop), ch)
  {
  }

  lemma HandleLoopStep(d: Definition, w: World, node: Node, stop: bool, body: set<string>, ch: Change)
    requires w.state.pending.None? && GetNode(d, node.id) == Some(node)
             && ch == HandleLoop(d, w.state, node, body, stop)
    ensures LoopStep(d, w, Next(stop), ch)
  {
    if Starts(d, node.id) != [] {
      if node.id in w.state.loops {
        ReenterLoopStep(d, w, node, stop, ch);
      } else {
        EnterLoopStep(d, w, node, stop, body, ch);
      }
    }
  }

  lemma PlainStep(d: Definition, w: World, m: Move, node: Node, body: set<string>, stop: bool, inside: bool, ch: Change)
    requires node.subtype != Loop && ch == ProcessNode(d, w.state, node, body, stop, inside)
    ensures LoopStep(d, w, m, ch)
  {
  }

  lemma ProcessFirstStep(d: Definition, w: World, id: string, stop: bool)
    requires w.state.pending.None?
    ensures LoopStep(d, w, Next(stop), ProcessFirst(d, w.state, id, stop))
  {
    var node := GetNode(d, id);
    if node.Some? {
      var body, ch := Body(d, id), ProcessFirst(d, w.state, id, stop);
      if node.value.subtype == Loop {
        HandleLoopStep(d, w, node.value, stop, body, ch);
      } else {
        PlainStep(d, w, Next(stop), node.value, body, stop, InsideParallelBranch(d, id), ch);
      }
    }
  }

  lemma OutcomeStep(d: Definition, lower: string -> string, w: World, m: Move)
    requires WorldOk(d, w) && CountsOk(d, w) && Allowed(w, m)
    ensures LoopStep(d, w, m, Outcome(d, lower, w, m))
  {
    match m
    case Next(stop) =>
      if w.state.pending.None? {
        NextCases(d, w.state, stop);
        var ready := ReadyNodes(d, w.state, w.state.current);
        if ready != [] { ProcessFirstStep(d, w, ready[0], stop); }
      }
    case Complete(_, _) =>
    case Decide(text) => DecideStep(d, lower, w, text);
  }

  lemma DecideStep(d: Definition, lower: string -> string, w: World, text: string)
    requires WorldOk(d, w) && CountsOk(d, w) && w.state.pending.Some? && AnswerableDecision(w.state)
    ensures LoopStep(d, w, Decide(text), ResolveDecision(d, lower, w.state, text))
  {
    var p := w.state.pending.value;
    if p.kind.RouterDecision? {
      RouterOk(d, lower, w.state, text);
    } else if p.kind.StopDecision? || p.kind.CountDecision? {
      assert LoopCounted(d, w.state.loops, w.state.pending, w.passes, p.nodeId);
      LoopAnswerStep(d, w, p, IsYes(lower, text), text);
    }
  }

  lemma LoopAnswerStep(d: Definition, w: World, p: Decision, yes: bool, text: string)
    requires w.state.pending == Some(p) && PendingOk(d, w.state) && (p.kind.StopDecision? || p.kind.CountDecision?)
    requires p.nodeId in w.state.loops && LoopCounted(d, w.state.loops, w.state.pending, w.passes, p.nodeId)
    ensures p.kind.StopDecision? ==> LoopStep(d, w, Decide(text), ResolveStop(w.state, p.nodeId, yes))
    ensures p.kind.CountDecision? ==> LoopStep(d, w, Decide(text), ResolveCount(w.state, p.nodeId, CountIn(text)))
  {
  }

  // ---- The counts are kept ----

  /** The part of a change that matters for the counts. */
  lemma AfterParts(d: Definition, w: World, m: Move, ch: Change)
    ensures var w' := After(d, w, m, ch);
            && w'.passes == CountPass(w.passes, ch)
            && w'.state.loops == (match ch
                                  case BeginPass(loop, it) => w.state.loops[loop := it]
                                  case EndLoop(loop, _, _) => w.state.loops - {loop}
                                  case AskLoop(p, it) => w.state.loops[p.nodeId := it]
                                  case _ => w.state.loops)
            && w'.state.pending == (match ch
                                    case Finish(_, _, _) => None
                                    case BeginPass(_, _) => None
                                    case EndLoop(_, _, _) => None
                                    case Forget => None
                                    case AskAbout(_, p) => Some(p)
                                    case AskLoop(p, _) => Some(p)
                                    case _ => w.state.pending)
  {
  }

  /** A pass that begins is the next one of its loop. */
  lemma BegunCounted(d: Definition, w: World, m: Move, ch: Change)
    requires ch.BeginPass? && LoopStep(d, w, m, ch)
    requires w.state.pending.Some? ==> w.state.pending.value.nodeId == ch.loop
    requires ch.loop in w.state.loops ==> LoopCounted(d, w.state.loops, w.state.pending, w.passes, ch.loop)
    ensures CountOk(GetNode(d, ch.loop).value.config, ch.it, None, Started(CountPass(w.passes, ch), ch.loop))
  {
  }

  lemma BeginKeepsCounts(d: Definition, w: World, m: Move, ch: Change, loops: map<string, LoopIter>)
    requires CountsOk(d, w) && ch.BeginPass? && LoopStep(d, w, m, ch)
    requires w.state.pending.Some? ==> w.state.pending.value.nodeId == ch.loop
    requires loops == w.state.loops[ch.loop := ch.it]
    ensures AllCounted(d, loops, None, CountPass(w.passes, ch))
  {
    BegunCounted(d, w, m, ch);
    forall l | l in loops ensures LoopCounted(d, loops, None, CountPass(w.passes, ch), l) {
      if l != ch.loop {
        assert LoopCounted(d, w.state.loops, w.state.pending, w.passes, l);
        assert Started(CountPass(w.passes, ch), l) == Started(w.passes, l);
      }
    }
  }

  lemma AskKeepsCounts(d: Definition, w: World, m: Move, ch: Change, loops: map<string, LoopIter>)
    requires CountsOk(d, w) && ch.AskLoop? && w.state.pending.None? && LoopStep(d, w, m, ch)
    requires IterOk(d, ch.decision.nodeId, ch.it) && (ch.decision.kind.CountDecision? ==> ch.it.iteration == 0)
    requires loops == w.state.loops[ch.decision.nodeId := ch.it]
    ensures AllCounted(d, loops, Some(ch.decision), w.passes)
  {
    forall l | l in loops ensures LoopCounted(d, loops, Some(ch.decision), w.passes, l) {
      assert l in w.state.loops ==> LoopCounted(d, w.state.loops, w.state.pending, w.passes, l);
    }
  }

  /** Closing a question about another node, or about none of the loops, changes no count. */
  lemma ClearKeepsCounts(d: Definition, w: World, loops: map<string, LoopIter>, pending: Option<Decision>)
    requires CountsOk(d, w) && LoopsOk(d, w.state) && loops.Keys <= w.state.loops.Keys
    requires forall l :: l in loops ==> loops[l] == w.state.loops[l]
    requires forall l :: l in loops ==> PendingKind(pending, l) == PendingKind(w.state.pending, l)
    ensures AllCounted(d, loops, pending, w.passes)
  {
    forall l | l in loops ensures LoopCounted(d, loops, pending, w.passes, l) {
      assert LoopCounted(d, w.state.loops, w.state.pending, w.passes, l);
    }
  }

  /** A question about one of the loops stays as it is. */
  lemma QuestionStays(d: Definition, s: State, ch: Change, s': State, l: string)
    requires PendingOk(d, s) && ChangeOk(d, s, ch) && !ch.BeginPass? && !ch.AskLoop?
    requires Subject(ch).Some? && s.pending.Some? ==> s.pending.value.nodeId == Subject(ch).value
    requires ch == Forget ==> s.pending.Some? && s.pending.value.kind.RouterDecision?
    requires l in s.loops && HasSubtype(d, l, Loop) && (ch.EndLoop? ==> l != ch.loop)
    requires s'.pending == (match ch
                            case AskAbout(_, p) => Some(p)
                            case Finish(_, _, _) => None
                            case EndLoop(_, _, _) => None
                            case Forget => None
                            case _ => s.pending)
    ensures PendingKind(s'.pending, l) == PendingKind(s.pending, l)
  {
  }

  lemma OtherKeepsCounts(d: Definition, w: World, m: Move, ch: Change)
    requires WorldOk(d, w) && CountsOk(d, w) && ChangeOk(d, w.state, ch)
    requires !ch.BeginPass? && !ch.AskLoop?
    requires Subject(ch).Some? && w.state.pending.Some? ==> w.state.pending.value.nodeId == Subject(ch).value
    requires ch == Forget ==> w.state.pending.Some? && w.state.pending.value.kind.RouterDecision?
    ensures CountsOk(d, After(d, w, m, ch))
  {
    AfterParts(d, w, m, ch);
    var s' := After(d, w, m, ch).state;
    forall l | l in s'.loops ensures PendingKind(s'.pending, l) == PendingKind(w.state.pending, l) {
      assert IterOk(d, l, w.state.loops[l]);
      QuestionStays(d, w.state, ch, s', l);
    }
    ClearKeepsCounts(d, w, s'.loops, s'.pending);
  }

  lemma ForgetIsRouter(d: Definition, lower: string -> string, w: World, m: Move)
    requires Allowed(w, m) && Outcome(d, lower, w, m) == Forget && WorldOk(d, w)
    ensures w.state.pending.Some? && w.state.pending.value.kind.RouterDecision?
  {
    hide ReadyNodes, Batch, Missing, ProcessFirst, WorldOk, Playbook.Ready;
    match m
    case Next(stop) =>
      if w.state.pending.None? {
        NextCases(d, w.state, stop);
        var ready := ReadyNodes(d, w.state, w.state.current);
        if ready != [] { FirstIsOneNode(d, w.state, ready[0], stop, ProcessFirst(d, w.state, ready[0], stop)); }
      }
    case _ =>
  }

  lemma PlayKeepsCounts(d: Definition, lower: string -> string, w: World, m: Move)
    requires WorldOk(d, w) && CountsOk(d, w)
    ensures CountsOk(d, Play(d, lower, w, m))
  {
    if Allowed(w, m) {
      var ch := Outcome(d, lower, w, m);
      OutcomeOk(d, lower, w, m);
      OutcomeStep(d, lower, w, m);
      if ch == Forget { ForgetIsRouter(d, lower, w, m); }
      if ch.BeginPass? {
        AfterParts(d, w, m, ch);
        BeginKeepsCounts(d, w, m, ch, After(d, w, m, ch).state.loops);
      } else if ch.AskLoop? {
        AfterParts(d, w, m, ch);
        AskKeepsCounts(d, w, m, ch, After(d, w, m, ch).state.loops);
      } else {
        OtherKeepsCounts(d, w, m, ch);
      }
    }
  }

  // ---- The records keep what they were given ----

  /** The items are noted anew only for a loop that was not active. */
  lemma NotedItems(d: Definition, w: World, m: Move, ch: Change, loop: string)
    requires loop in w.state.loops
    ensures ItemsAtEntry(NoteItems(d, w, m, ch), loop) == ItemsAtEntry(w.entered, loop)
  {
  }

  lemma BeginKeepsRecords(d: Definition, w: World, m: Move, ch: Change, loops: map<string, LoopIter>)
    requires RecordsOk(d, w) && ch.BeginPass? && LoopStep(d, w, m, ch)
    requires w.state.pending.Some? ==> w.state.pending.value.nodeId == ch.loop
    requires loops == w.state.loops[ch.loop := ch.it]
    ensures AllInputsOk(d, loops, NoteItems(d, w, m, ch), NoteAnswer(w, m))
  {
    forall l | l in loops ensures InputsOk(d, l, loops[l], NoteItems(d, w, m, ch), NoteAnswer(w, m)) {
      if l in w.state.loops {
        assert InputsOk(d, l, w.state.loops[l], w.entered, w.answered);
        NotedItems(d, w, m, ch, l);
        if l == ch.loop { RestartKeepsInputs(d, w, m, ch); }
      }
    }
  }

  lemma RestartKeepsInputs(d: Definition, w: World, m: Move, ch: Change)
    requires ch.BeginPass? && ch.loop in w.state.loops && LoopStep(d, w, m, ch)
    requires w.state.pending.Some? ==> w.state.pending.value.nodeId == ch.loop
    requires InputsOk(d, ch.loop, w.state.loops[ch.loop], w.entered, w.answered)
    ensures InputsOk(d, ch.loop, ch.it, w.entered, NoteAnswer(w, m))
  {
  }

  lemma AskKeepsRecords(d: Definition, w: World, m: Move, ch: Change, loops: map<string, LoopIter>)
    requires RecordsOk(d, w) && ch.AskLoop? && w.state.pending.None? && LoopStep(d, w, m, ch)
    requires IterOk(d, ch.decision.nodeId, ch.it)
    requires ch.decision.kind.CountDecision? ==> GetNode(d, ch.decision.nodeId).value.config.loopMode.AskOrchestrator?
    requires loops == w.state.loops[ch.decision.nodeId := ch.it]
    ensures AllInputsOk(d, loops, w.entered, w.answered)
  {
    forall l | l in loops ensures InputsOk(d, l, loops[l], w.entered, w.answered) {
      assert l in w.state.loops ==> InputsOk(d, l, w.state.loops[l], w.entered, w.answered);
    }
  }

  /** An answered count concerns the loop that asked, which begins its passes or ends. */
  lemma OtherKeepsRecords(d: Definition, w: World, m: Move, loops: map<string, LoopIter>)
    requires RecordsOk(d, w) && loops.Keys <= w.state.loops.Keys
    requires forall l :: l in loops ==> loops[l] == w.state.loops[l]
    requires m.Decide? && w.state.pending.Some? && w.state.pending.value.kind.CountDecision? ==>
               w.state.pending.value.nodeId !in loops
    ensures AllInputsOk(d, loops, w.entered, NoteAnswer(w, m))
  {
    forall l | l in loops ensures InputsOk(d, l, loops[l], w.entered, NoteAnswer(w, m)) {
      assert InputsOk(d, l, w.state.loops[l], w.entered, w.answered);
    }
  }

  lemma PlayKeepsRecords(d: Definition, lower: string -> string, w: World, m: Move)
    requires WorldOk(d, w) && CountsOk(d, w) && RecordsOk(d, w)
    ensures RecordsOk(d, Play(d, lower, w, m))
  {
    if Allowed(w, m) {
      var ch := Outcome(d, lower, w, m);
      OutcomeOk(d, lower, w, m);
      OutcomeStep(d, lower, w, m);
      AfterParts(d, w, m, ch);
      var loops := After(d, w, m, ch).state.loops;
      if ch.BeginPass? {
        BeginKeepsRecords(d, w, m, ch, loops);
      } else if ch.AskLoop? {
        AskKeepsRecords(d, w, m, ch, loops);
      } else {
        if m.Decide? && w.state.pending.value.kind.CountDecision? { AnswerEndsLoop(d, lower, w, m.text); }
        OtherKeepsRecords(d, w, m, loops);
      }
    }
  }

  lemma AnswerEndsLoop(d: Definition, lower: string -> string, w: World, text: string)
    requires PendingOk(d, w.state) && w.state.pending.Some? && AnswerableDecision(w.state)
    requires w.state.pending.value.kind.CountDecision?
    ensures var ch, id := ResolveDecision(d, lower, w.state, text), w.state.pending.value.nodeId;
            ch == ResolveCount(w.state, id, CountIn(text)) && (ch.BeginPass? || (ch.EndLoop? && ch.loop == id))
  {
  }

  lemma {:induction false} AlwaysCounted(d: Definition, lower: string -> string, w: World, moves: seq<Move>)
    requires WorldOk(d, w) && w.state.loops == map[]
    ensures var w' := PlayAll(d, lower, w, moves); WorldOk(d, w') && CountsOk(d, w') && RecordsOk(d, w')
    decreases |moves|
  {
    PlayAllKeeps(d, lower, w, moves);
    if moves != [] {
      AlwaysCounted(d, lower, w, moves[..|moves| - 1]);
      PlayKeepsCounts(d, lower, PlayAll(d, lower, w, moves[..|moves| - 1]), moves[|moves| - 1]);
      PlayKeepsRecords(d, lower, PlayAll(d, lower, w, moves[..|moves| - 1]), moves[|moves| - 1]);
    }
  }

  // ---- Main results ----

  function AtLeastOne(n: int): int {
    if n < 1 then 1 else n
  }

  /**
   * The passes of a loop that no stop condition ends: one per item merged upstream at its entry,
   * the count that was answered, or the configured count, which means one pass at least.
   */
  function ExpectedPasses(d: Definition, loop: string, w: World): int
    requires GetNode(d, loop).Some?
  {
    var config := GetNode(d, loop).value.config;
    match config.loopMode
    case ForEach => |ItemsAtEntry(w.entered, loop)|
    case AskOrchestrator => CountAnswered(w.answered, loop)
    case Iterations => AtLeastOne(config.maxIterations)
  }

  /**
   * When a loop ends, on any run: its summary counts exactly the passes that were started and holds
   * one result per pass with indexes 0, 1, 2, …. These are as many as the run's inputs ask for
   * unless a stop condition was met, and never more. An answered count of zero, and nothing
   * else, ends the loop without a pass. A stop condition that was met was answered with "true" or
   * "yes", or came out true without being asked.
   */
  lemma LoopExitIsExact(d: Definition, lower: string -> string, w0: World, moves: seq<Move>, m: Move)
    requires WorldOk(d, w0) && w0.state.loops == map[]
    requires Allowed(PlayAll(d, lower, w0, moves), m) && Outcome(d, lower, PlayAll(d, lower, w0, moves), m).EndLoop?
    ensures var w := PlayAll(d, lower, w0, moves);
            var ch := Outcome(d, lower, w, m);
            var summary := Apply(d, w.state, ch).outputs[ch.loop].result;
            && summary == LoopSummary(ch.it.iteration, ch.reason, ch.it.results)
            && |summary.passes| == summary.total
            && (forall i :: 0 <= i < |summary.passes| ==> summary.passes[i].index == i)
            && GetNode(d, ch.loop).Some?
            && InputsOk(d, ch.loop, ch.it, w.entered, w.answered)
            && (ch.reason == OrchestratorZero <==> summary.total == 0)
            && (ch.reason == OrchestratorZero ==> m.Decide? && CountIn(m.text) == 0)
            && (ch.reason != OrchestratorZero ==>
                  && summary.total == Started(w.passes, ch.loop)
                  && summary.total <= ExpectedPasses(d, ch.loop, w)
                  && (ch.reason == ConditionMet ==>
                        && GetNode(d, ch.loop).value.config.hasCondition
                        && (m.Next? ==> m.stop && !GetNode(d, ch.loop).value.config.askModel)
                        && (m.Decide? ==> lower(Trim(m.text)) == "true" || lower(Trim(m.text)) == "yes"))
                  && (ch.reason != ConditionMet ==> summary.total == ExpectedPasses(d, ch.loop, w)))
  {
    AlwaysCounted(d, lower, w0, moves);
    var w := PlayAll(d, lower, w0, moves);
    var ch := Outcome(d, lower, w, m);
    OutcomeOk(d, lower, w, m);
    OutcomeStep(d, lower, w, m);
    ExitCounts(d, w, m, ch);
    if ch.reason == ConditionMet { ConditionIsMet(d, lower, w, m); }
  }

  /** A loop that stops because of its condition was told so, by an answer or by the condition itself. */
  lemma ConditionIsMet(d: Definition, lower: string -> string, w: World, m: Move)
    requires Allowed(w, m)
    requires var ch := Outcome(d, lower, w, m); ch.EndLoop? && ch.reason == ConditionMet && GetNode(d, ch.loop).Some?
    ensures var config := GetNode(d, Outcome(d, lower, w, m).loop).value.config;
            && (m.Next? ==> m.stop && !config.askModel)
            && (m.Decide? ==> lower(Trim(m.text)) == "true" || lower(Trim(m.text)) == "yes")
  {
    match m
    case Next(stop) =>
      NextCases(d, w.state, stop);
      var ready := ReadyNodes(d, w.state, w.state.current);
      var node := GetNode(d, ready[0]).value;
      ConditionStops(d, w.state, node, Body(d, node.id), stop, InsideParallelBranch(d, node.id));
    case _ =>
  }

  lemma ConditionStops(d: Definition, s: State, node: Node, body: set<string>, stop: bool, inside: bool)
    ensures var ch := ProcessNode(d, s, node, body, stop, inside);
            ch.EndLoop? && ch.reason == ConditionMet ==> stop && !node.config.askModel && ch.loop == node.id
  {
    hide HandleLoop;
    if node.subtype == Loop {
      LoopStops(d, s, node, body, stop);
    }
  }

  lemma LoopStops(d: Definition, s: State, node: Node, body: set<string>, stop: bool)
    ensures var ch := HandleLoop(d, s, node, body, stop);
            ch.EndLoop? && ch.reason == ConditionMet ==> stop && !node.config.askModel && ch.loop == node.id
  {
    hide FinishPass, Starts;
  }

  /** What a loop's record says about its passes, whatever its body is. */
  ghost predicate RecordOk(config: Config, it: LoopIter) {
    && Listed(it)
    && (it.iteration == 0 || it.iteration < PassLimit(config, it))
    && (it.resolvedMax.Some? ==> config.loopMode.AskOrchestrator? && it.resolvedMax.value >= 1)
    && (config.loopMode.ForEach? ==> it.items != [])
  }

  ghost predicate Listed(it: LoopIter) {
    |it.results| == it.iteration && forall i :: 0 <= i < |it.results| ==> it.results[i].index == i
  }

  lemma IterIsRecord(d: Definition, loop: string, it: LoopIter)
    requires IterOk(d, loop, it)
    ensures RecordOk(GetNode(d, loop).value.config, it)
  {
  }

  lemma FinishedRecord(config: Config, it: LoopIter, outputs: Outputs)
    requires RecordOk(config, it)
    ensures var it' := FinishPass(it, outputs);
            && Listed(it') && it'.iteration == it.iteration + 1 && it'.iteration <= AtLeastOne(PassLimit(config, it))
            && it'.items == it.items && it'.resolvedMax == it.resolvedMax
            && PassLimit(config, it') == PassLimit(config, it)
  {
  }

  /** The limit in a record that holds its inputs is the one the inputs ask for. */
  lemma LimitIsExpected(d: Definition, w: World, loop: string, it: LoopIter)
    requires InputsOk(d, loop, it, w.entered, w.answered) && RecordOk(GetNode(d, loop).value.config, it)
    requires GetNode(d, loop).value.config.loopMode.AskOrchestrator? ==> it.resolvedMax.Some?
    ensures ExpectedPasses(d, loop, w) == AtLeastOne(PassLimit(GetNode(d, loop).value.config, it))
  {
  }

  ghost predicate ExitExact(d: Definition, w: World, m: Move, ch: Change)
    requires ch.EndLoop?
  {
    && GetNode(d, ch.loop).Some?
    && Listed(ch.it) && InputsOk(d, ch.loop, ch.it, w.entered, w.answered)
    && (ch.reason == OrchestratorZero <==> ch.it.iteration == 0)
    && (ch.reason == OrchestratorZero ==> m.Decide? && CountIn(m.text) == 0)
    && (ch.reason != OrchestratorZero ==>
          && ch.it.iteration == Started(w.passes, ch.loop)
          && ch.it.iteration <= ExpectedPasses(d, ch.loop, w)
          && (ch.reason == ConditionMet ==> GetNode(d, ch.loop).value.config.hasCondition)
          && (ch.reason != ConditionMet ==> ch.it.iteration == ExpectedPasses(d, ch.loop, w)))
  }

  /** The facts about the loop that ends, taken out of the invariants. */
  ghost predicate ExitFacts(d: Definition, w: World, m: Move, ch: Change, it: LoopIter) {
    && ch.EndLoop? && ch.loop in w.state.loops && it == w.state.loops[ch.loop] && GetNode(d, ch.loop).Some?
    && ExitFrom(d, w, m, ch)
    && RecordOk(GetNode(d, ch.loop).value.config, it) && InputsOk(d, ch.loop, it, w.entered, w.answered)
    && LoopCounted(d, w.state.loops, w.state.pending, w.passes, ch.loop)
  }

  lemma AskedExit(d: Definition, w: World, m: Move, ch: Change, it: LoopIter)
    requires ExitFacts(d, w, m, ch, it) && PendingKind(w.state.pending, ch.loop).Some?
    requires w.state.pending.value.kind.CountDecision? || w.state.pending.value.kind.StopDecision?
    ensures ExitExact(d, w, m, ch)
  {
    if w.state.pending.value.kind.StopDecision? { LimitIsExpected(d, w, ch.loop, it); }
  }

  lemma FinishedExit(d: Definition, w: World, m: Move, ch: Change, it: LoopIter)
    requires ExitFacts(d, w, m, ch, it) && PendingKind(w.state.pending, ch.loop).None?
    ensures ExitExact(d, w, m, ch)
  {
    LimitIsExpected(d, w, ch.loop, it);
    FinishedRecord(GetNode(d, ch.loop).value.config, it, w.state.outputs);
  }

  lemma ExitCounts(d: Definition, w: World, m: Move, ch: Change)
    requires WorldOk(d, w) && CountsOk(d, w) && RecordsOk(d, w)
    requires ch.EndLoop? && LoopStep(d, w, m, ch)
    ensures ExitExact(d, w, m, ch)
  {
    var it := w.state.loops[ch.loop];
    IterIsRecord(d, ch.loop, it);
    assert ExitFacts(d, w, m, ch, it);
    if PendingKind(w.state.pending, ch.loop).Some? {
      LoopAsks(d, w.state, ch.loop);
      AskedExit(d, w, m, ch, it);
    } else {
      FinishedExit(d, w, m, ch, it);
    }
  }

  /** What is asked about a loop is whether to stop or how often to run. */
  lemma LoopAsks(d: Definition, s: State, loop: string)
    requires PendingOk(d, s) && s.pending.Some? && s.pending.value.nodeId == loop && HasSubtype(d, loop, Loop)
    ensures s.pending.value.kind.CountDecision? || s.pending.value.kind.StopDecision?
  {
  }

  /**
   * During a pass of a for-each loop, that is while nothing is asked about the loop itself, the
   * current item is the one that has the pass's place among the items merged upstream at the
   * loop's entry.
   */
  lemma CurrentItemInStep(d: Definition, lower: string -> string, w0: World, moves: seq<Move>, loop: string)
    requires WorldOk(d, w0) && w0.state.loops == map[]
    requires loop in PlayAll(d, lower, w0, moves).state.loops
    ensures var w := PlayAll(d, lower, w0, moves);
            var it := w.state.loops[loop];
            && GetNode(d, loop).Some?
            && (GetNode(d, loop).value.config.loopMode.ForEach? ==>
                  && loop in w.entered && it.items == w.entered[loop]
                  && (PendingKind(w.state.pending, loop).None? ==>
                        && 1 <= Started(w.passes, loop) <= |w.entered[loop]|
                        && it.currentItem == Some(w.entered[loop][Started(w.passes, loop) - 1])))
  {
    AlwaysCounted(d, lower, w0, moves);
    var w := PlayAll(d, lower, w0, moves);
    assert IterOk(d, loop, w.state.loops[loop]) && LoopCounted(d, w.state.loops, w.state.pending, w.passes, loop);
    assert InputsOk(d, loop, w.state.loops[loop], w.entered, w.answered);
  }

  predicate HoldsMerge(e: Edge, outputs: Outputs) {
    e.source in outputs && outputs[e.source].result.Merged?
  }

  lemma AlongTail(edges: seq<Edge>, outputs: Outputs)
    requires edges != [] && !HoldsMerge(edges[0], outputs)
    ensures FirstMerged(OutputsAlong(edges, outputs)) == FirstMerged(OutputsAlong(edges[1..], outputs))
  {
    var rest := OutputsAlong(edges[1..], outputs);
    if edges[0].source in outputs {
      assert ([outputs[edges[0].source]] + rest)[1..] == rest;
    } else {
      assert [] + rest == rest;
    }
  }

  /** The items are those of the first incoming edge whose source put out a merge. */
  lemma {:induction false} MergedUpstream(edges: seq<Edge>, outputs: Outputs, i: nat)
    requires i < |edges| && HoldsMerge(edges[i], outputs) && forall j :: 0 <= j < i ==> !HoldsMerge(edges[j], outputs)
    ensures FirstMerged(OutputsAlong(edges, outputs)) == outputs[edges[i].source].result.items
    decreases i
  {
    if i > 0 {
      AlongTail(edges, outputs);
      MergedUpstream(edges[1..], outputs, i - 1);
    }
  }

  /** There are none without such an edge. */
  lemma {:induction false} NothingMergedUpstream(edges: seq<Edge>, outputs: Outputs)
    requires forall e :: e in edges ==> !HoldsMerge(e, outputs)
    ensures FirstMerged(OutputsAlong(edges, outputs)) == []
  {
    if edges != [] {
      AlongTail(edges, outputs);
      NothingMergedUpstream(edges[1..], outputs);
    }
  }

  predicate HasNoDigit(text: string) {
    forall i :: 0 <= i < |text| ==> !('0' <= text[i] <= '9')
  }

  /** A number written out is read back, whatever words stand around it. */
  lemma {:induction false} CountReadsNumber(before: string, n: nat, after: string)
    requires HasNoDigit(before) && HasNoDigit(after)
    ensures CountIn(before + ToolIds.Decimal(n) + after) == n
    decreases |after|, n
  {
    var text, last := before + ToolIds.Decimal(n) + after, |after| - 1;
    if after != [] {
      assert text[..|text| - 1] == before + ToolIds.Decimal(n) + after[..last] && text[|text| - 1] == after[last];
      CountReadsNumber(before, n, after[..last]);
    } else if n >= 10 {
      assert text[..|text| - 1] == before + ToolIds.Decimal(n / 10) + []
             && text[|text| - 1] == ToolIds.Decimal(n)[|ToolIds.Decimal(n)| - 1];
      CountReadsNumber(before, n / 10, []);
    } else {
      assert text[..|text| - 1] == before && text[|text| - 1] == ToolIds.Decimal(n)[0];
      CountsNothing(before);
    }
  }

  lemma {:induction false} CountsNothing(text: string)
    requires HasNoDigit(text)
    ensures CountIn(text) == 0
  {
    if text != "" { CountsNothing(text[..|text| - 1]); }
  }

  /** A move removes no completion and no output but those of the body of the loop it is about. */
  lemma OutsideBodyIsKept(d: Definition, lower: string -> string, w: World, m: Move, id: string)
    requires WorldOk(d, w) && Allowed(w, m) && id in w.state.completed
    ensures var ch := Outcome(d, lower, w, m);
            var s' := Apply(d, w.state, ch);
            || (id in s'.completed && id in w.state.outputs && id in s'.outputs
                && s'.outputs[id] == w.state.outputs[id])
            || ((ch.BeginPass? || ch.EndLoop?) && id in Body(d, ch.loop))
  {
    OutcomeOk(d, lower, w, m);
    ChangeKeepsOutside(d, w.state, Outcome(d, lower, w, m), id);
  }

  lemma ChangeKeepsOutside(d: Definition, s: State, ch: Change, id: string)
    requires StateOk(d, s) && ChangeOk(d, s, ch) && id in s.completed
    ensures var s' := Apply(d, s, ch);
            || (id in s'.completed && id in s.outputs && id in s'.outputs && s'.outputs[id] == s.outputs[id])
            || ((ch.BeginPass? || ch.EndLoop?) && id in Body(d, ch.loop))
  {
    assert id in AsSet(s.completed);
    if Subject(ch).Some? { assert Subject(ch).value in AsSet(s.current); }
    if ch.BeginPass? && id !in ch.it.body {
      assert id in AsSet(Without(s.completed, ch.it.body));
    } else if ch.EndLoop? && id !in ch.it.body {
      assert id in AsSet(Without(s.completed, ch.it.body));
    }
  }

  /** A pass starts with nothing of its body completed. */
  lemma PassStartsClean(d: Definition, s: State, ch: Change, id: string)
    requires StateOk(d, s) && ch.BeginPass? && ChangeOk(d, s, ch) && id in Body(d, ch.loop)
    ensures id !in Apply(d, s, ch).completed && id !in Apply(d, s, ch).outputs
  {
    var s' := Apply(d, s, ch);
    assert id in s'.completed ==> id in AsSet(s'.completed);
  }

  /**
   * When a started loop comes up again, every node that feeds it, its entry aside, has completed;
   * one inside the body has done so in this very pass, and its output is in the pass's result.
   */
  lemma PassEndsWithItsFeeders(d: Definition, lower: string -> string, w: World, stop: bool, e: Edge)
    requires WorldOk(d, w) && Allowed(w, Next(stop)) && w.state.pending.None?
    requires var ch := Outcome(d, lower, w, Next(stop));
             Subject(ch).Some? && Subject(ch).value in w.state.loops
             && e in Incoming(d, Subject(ch).value) && e.targetHandle != LOOP_ENTRY
    ensures var loop := Subject(Outcome(d, lower, w, Next(stop))).value;
            var it := w.state.loops[loop];
            && e.source in w.state.completed
            && (e.source in it.body ==>
                  && e.source in w.state.outputs
                  && var pass := FinishPass(it, w.state.outputs).results[it.iteration];
                  && e.source in pass.bodyOutputs && pass.bodyOutputs[e.source] == w.state.outputs[e.source])
  {
    OutcomeOk(d, lower, w, Next(stop));
    var loop := Subject(Outcome(d, lower, w, Next(stop))).value;
    LoopFeeders(d, w.state, loop, e);
  }

  lemma LoopFeeders(d: Definition, s: State, loop: string, e: Edge)
    requires StateOk(d, s) && loop in s.loops && Ready(d, loop, s.completed, true)
    requires e in Incoming(d, loop) && e.targetHandle != LOOP_ENTRY
    ensures var it := s.loops[loop];
            && e.source in s.completed
            && (e.source in it.body ==>
                  && e.source in s.outputs
                  && var pass := FinishPass(it, s.outputs).results[it.iteration];
                  && e.source in pass.bodyOutputs && pass.bodyOutputs[e.source] == s.outputs[e.source])
  {
    assert IterOk(d, loop, s.loops[loop]);
    assert e.source in AsSet(s.completed);
  }
}
