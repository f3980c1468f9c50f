/**
 * Runs of the playbook: the driver asks for the next step, completes nodes it was handed and
 * answers pending decisions, in any order the walker allows.
 */
module PlaybookRuns {
  import opened Wrappers
  import opened Graphs
  import opened Playbook

  /**
   * `out` are the nodes handed out and not completed yet. The rest is the history of the loops: the
   * passes each one made since it was entered, the items its upstream merge held when its first
   * pass began, and the count the orchestrator answered to it.
   */
  datatype World = World(state: State, out: set<string>, passes: map<string, nat>,
                         entered: map<string, seq<Item>>, answered: map<string, nat>)

  datatype Move = Next(stop: bool) | Complete(id: string, value: Value) | Decide(text: string)

  /** Nodes the driver has to complete with `completeSubAgent` after this action. */
  function HandedOut(a: Action): set<string> {
    match a
    case SpawnSubAgent(id) => {id}
    case SpawnParallelAgents(ids) => AsSet(ids)
    case SpawnSubWorkflow(id) => {id}
    case WaitFor(id) => {id}
    case ExecuteToolCall(id) => {id}
    case ExecuteFunction(id) => {id}
    case PromptOrchestrator(id) => {id}
    case _ => {}
  }

  /** Only handed-out nodes are completed, and none while a decision is pending. */
  predicate Allowed(w: World, m: Move) {
    && w.state.status == Running
    && match m
       case Next(_) => true
       case Complete(id, _) => id in w.out && w.state.pending.None?
       case Decide(_) => w.state.pending.Some? && AnswerableDecision(w.state)
  }

  function CountPass(passes: map<string, nat>, ch: Change): map<string, nat> {
    if ch.BeginPass? then
      passes[ch.loop := (if ch.it.iteration == 0 || ch.loop !in passes then 0 else passes[ch.loop]) + 1]
    else passes
  }

  /** Written down from the state before the move, whatever record the walker makes. */
  function NoteItems(d: Definition, w: World, m: Move, ch: Change): map<string, seq<Item>> {
    if m.Next? && ch.BeginPass? && ch.loop !in w.state.loops then
      w.entered[ch.loop := FirstMerged(UpstreamOutputs(d, ch.loop, w.state.outputs))]
    else w.entered
  }

  function NoteAnswer(w: World, m: Move): map<string, nat> {
    if m.Decide? && w.state.pending.Some? && w.state.pending.value.kind.CountDecision? then
      w.answered[w.state.pending.value.nodeId := CountIn(m.text)]
    else w.answered
  }

  /** What the walker decides when the move is made. */
  ghost function Outcome(d: Definition, lower: string -> string, w: World, m: Move): Change
    requires Allowed(w, m)
  {
    match m
    case Next(stop) => NextStep(d, w.state, stop)
    case Complete(id, value) => CompleteSubAgent(d, id, value)
    case Decide(text) => ResolveDecision(d, lower, w.state, text)
  }

  function After(d: Definition, w: World, m: Move, ch: Change): World {
    World(Apply(d, w.state, ch),
          match m
          case Next(_) => w.out + (if ch.Stay? then HandedOut(ch.action) else {})
          case Complete(id, _) => w.out - {id}
          case Decide(_) => w.out,
          CountPass(w.passes, ch), NoteItems(d, w, m, ch), NoteAnswer(w, m))
  }

  /** One move; moves that are not allowed are not made. */
  ghost function Play(d: Definition, lower: string -> string, w: World, m: Move): World {
    if Allowed(w, m) then After(d, w, m, Outcome(d, lower, w, m)) else w
  }

  ghost function PlayAll(d: Definition, lower: string -> string, w: World, moves: seq<Move>): World {
    if moves == [] then w
    else Play(d, lower, PlayAll(d, lower, w, moves[..|moves| - 1]), moves[|moves| - 1])
  }

  // ---- The invariant ----

  /** The completed nodes are exactly those with an output, and none of them is in the frontier. */
  ghost predicate BooksOk(s: State) {
    && AsSet(s.completed) == s.outputs.Keys
    && NoDup(s.current)
    && AsSet(s.current) !! AsSet(s.completed)
  }

  /** The node is one that other parties work on and complete later. */
  predicate Delegated(n: Node) {
    match n.subtype
    case Agent => true
    case IntegrationCall => true
    case ToolCall => true
    case DesktopNotification => true
    case Function => true
    case OrchestratorPrompt => true
    case Wait => true
    case SubWorkflow => n.config.workflowId != ""
    case _ => false
  }

  ghost predicate PendingOk(d: Definition, s: State) {
    s.pending.Some? ==>
      var p := s.pending.value;
      && p.nodeId in s.current && p.nodeId in NodeIds(d) && !Delegated(GetNode(d, p.nodeId).value)
      && (p.kind.RouterDecision? ==> p.routes != [] && HasSubtype(d, p.nodeId, Router))
      && (p.kind.ConditionDecision? ==> HasSubtype(d, p.nodeId, Condition))
      && (!p.kind.StopDecision? && !p.kind.CountDecision? ==> !HasSubtype(d, p.nodeId, Loop))
      && (p.kind.StopDecision? || p.kind.CountDecision? ==> p.nodeId in s.loops && HasSubtype(d, p.nodeId, Loop))
      && (p.kind.CountDecision? ==> s.loops[p.nodeId].iteration == 0 && s.loops[p.nodeId].resolvedMax.None?
                                    && GetNode(d, p.nodeId).value.config.loopMode.AskOrchestrator?)
  }

  /** The record of one active loop. */
  ghost predicate IterOk(d: Definition, loop: string, it: LoopIter) {
    && HasSubtype(d, loop, Loop)
    && var config := GetNode(d, loop).value.config;
    && it.body == Body(d, loop) && it.starts == Starts(d, loop) && it.starts != []
    && |it.results| == it.iteration
    && (forall i :: 0 <= i < |it.results| ==> it.results[i].index == i)
    && (it.iteration == 0 || it.iteration < PassLimit(config, it))
    && (it.resolvedMax.Some? ==> config.loopMode.AskOrchestrator? && it.resolvedMax.value >= 1)
    && (config.loopMode.ForEach? ==> it.iteration < |it.items| && it.currentItem == Some(it.items[it.iteration]))
    && (!config.loopMode.ForEach? ==> it.items == [])
  }

  ghost predicate LoopsOk(d: Definition, s: State) {
    forall l :: l in s.loops ==> IterOk(d, l, s.loops[l]) && l !in s.completed
  }

  ghost predicate StateOk(d: Definition, s: State) {
    BooksOk(s) && PendingOk(d, s) && LoopsOk(d, s)
  }

  ghost predicate OutOk(d: Definition, s: State, out: set<string>) {
    s.status == Running ==>
      forall id :: id in out ==> id in s.current && GetNode(d, id).Some? && Delegated(GetNode(d, id).value)
  }

  ghost predicate WorldOk(d: Definition, w: World) {
    StateOk(d, w.state) && OutOk(d, w.state, w.out)
  }

  /** The part of it that the walker's own decisions rest on. */
  ghost predicate WalkOk(d: Definition, w: World) {
    PendingOk(d, w.state) && LoopsOk(d, w.state) && OutOk(d, w.state, w.out)
  }

  // ---- Completing a node ----

  lemma FrontierSet(current: seq<string>, id: string, downstream: seq<string>, completed: seq<string>)
    ensures var f := Frontier(current, id, downstream, completed);
            && NoDup(f)
            && AsSet(f) == (AsSet(current) - {id}) + (AsSet(downstream) - AsSet(completed))
  {
  }

  lemma AdvanceBooks(d: Definition, s: State, id: string, value: Value, handle: string)
    requires BooksOk(s) && id !in s.completed
    ensures var s' := Advance(d, s, id, value, handle);
            && BooksOk(s')
            && AsSet(s'.completed) == AsSet(s.completed) + {id}
            && AsSet(s'.current)
               == (AsSet(s.current) - {id}) + (AsSet(Downstream(d, [id], handle)) - AsSet(s.completed) - {id})
  {
    var completed, s' := s.completed + [id], Advance(d, s, id, value, handle);
    assert AsSet(completed) == AsSet(s.completed) + {id};
    FrontierSet(s.current, id, Downstream(d, [id], handle), completed);
    AdvancedBooks(s, s', id, AsSet(Downstream(d, [id], handle)));
  }

  lemma AdvancedBooks(s: State, s': State, id: string, down: set<string>)
    requires BooksOk(s) && s'.outputs.Keys == s.outputs.Keys + {id} && NoDup(s'.current)
    requires AsSet(s'.completed) == AsSet(s.completed) + {id}
    requires AsSet(s'.current) == (AsSet(s.current) - {id}) + (down - (AsSet(s.completed) + {id}))
    ensures BooksOk(s') && AsSet(s'.current) == (AsSet(s.current) - {id}) + (down - AsSet(s.completed) - {id})
  {
  }

  lemma AdvanceLoops(d: Definition, s: State, id: string, value: Value, handle: string)
    requires LoopsOk(d, s) && id !in s.loops
    ensures LoopsOk(d, Advance(d, s, id, value, handle))
  {
  }

  /** Completing a node that is neither completed nor an active loop. */
  lemma AdvanceKeeps(d: Definition, s: State, id: string, value: Value, handle: string)
    requires BooksOk(s) && LoopsOk(d, s) && id !in s.completed && id !in s.loops
    ensures StateOk(d, Advance(d, s, id, value, handle))
  {
    AdvanceBooks(d, s, id, value, handle);
    AdvanceLoops(d, s, id, value, handle);
  }

  /** The frontier only loses the completed node. */
  lemma AdvanceOut(d: Definition, s: State, id: string, value: Value, handle: string, out: set<string>)
    requires BooksOk(s) && id !in s.completed && OutOk(d, s, out) && s.status == Running
    ensures OutOk(d, Advance(d, s, id, value, handle), out - {id})
  {
    AdvanceBooks(d, s, id, value, handle);
    forall x | x in out - {id} ensures x in Advance(d, s, id, value, handle).current {
      assert x in AsSet(s.current);
      assert x in AsSet(Advance(d, s, id, value, handle).current);
    }
  }

  // ---- Loops ----

  lemma StartsInBody(d: Definition, loop: string, x: string)
    requires x in Starts(d, loop) && x != loop
    ensures x in Body(d, loop)
  {
    DownstreamIsTarget(d, loop, LOOP_START, x);
    ReachesSelf(BodyGraph(d, loop), x);
  }

  lemma DownstreamIsTarget(d: Definition, id: string, handle: string, x: string)
    requires x in Downstream(d, [id], handle)
    ensures exists e :: e in d.edges && e.source == id && e.target == x && Follows(e, handle) && id in NodeIds(d)
  {
    assert [id][..0] == [];
    assert Downstream(d, [id], handle) == AddAll([], Targets(Outgoing(d, id), handle));
    assert x in AsSet(Targets(Outgoing(d, id), handle));
  }

  lemma StartPassBooks(d: Definition, s: State, loop: string, it: LoopIter)
    requires BooksOk(s) && IterOk(d, loop, it) && loop !in s.completed
    ensures var s' := StartPass(s, loop, it);
            && BooksOk(s')
            && AsSet(s'.completed) == AsSet(s.completed) - it.body
            && AsSet(s'.current) == (AsSet(s.current) - {loop}) + AsSet(it.starts)
  {
    var s' := StartPass(s, loop, it);
    assert s'.outputs.Keys == s.outputs.Keys - it.body;
    forall x | x in it.starts && x != loop ensures x in it.body {
      StartsInBody(d, loop, x);
    }
  }

  /** A loop node starts a pass: it leaves the frontier, the body is reset. */
  lemma StartPassKeeps(d: Definition, s: State, loop: string, it: LoopIter)
    requires BooksOk(s) && LoopsOk(d, s) && IterOk(d, loop, it) && loop !in s.completed && s.pending.None?
    ensures StateOk(d, StartPass(s, loop, it))
  {
    StartPassBooks(d, s, loop, it);
    var s' := StartPass(s, loop, it);
    forall l | l in s'.loops ensures IterOk(d, l, s'.loops[l]) && l !in s'.completed {
      assert l in s'.completed ==> l in AsSet(s'.completed);
    }
  }

  lemma StartPassOut(d: Definition, s: State, loop: string, it: LoopIter, out: set<string>)
    requires BooksOk(s) && IterOk(d, loop, it) && loop !in s.completed && OutOk(d, s, out) && s.status == Running
    ensures OutOk(d, StartPass(s, loop, it), out)
  {
    StartPassBooks(d, s, loop, it);
    forall x | x in out ensures x in StartPass(s, loop, it).current {
      assert x in AsSet(s.current) && x != loop;
      assert x in AsSet(StartPass(s, loop, it).current);
    }
  }

  lemma CloseLoopKeeps(d: Definition, s: State, loop: string, body: set<string>)
    requires BooksOk(s) && LoopsOk(d, s) && loop !in s.completed
    ensures var c := CloseLoop(s, loop, body);
            && BooksOk(c) && LoopsOk(d, c) && loop !in c.completed && loop !in c.loops
            && AsSet(c.completed) == AsSet(s.completed) - body
  {
    var c := CloseLoop(s, loop, body);
    assert c.outputs.Keys == s.outputs.Keys - body;
    assert loop in c.completed ==> loop in AsSet(c.completed);
    forall l | l in c.loops ensures l !in c.completed {
      assert l in c.completed ==> l in AsSet(c.completed);
    }
  }

  /** Within its limit, a loop record stays well formed when a pass ends. */
  lemma FinishPassOk(d: Definition, loop: string, it: LoopIter, outputs: Outputs)
    requires IterOk(d, loop, it)
    ensures var it' := FinishPass(it, outputs);
            && it'.iteration == it.iteration + 1 && it'.items == it.items && it'.resolvedMax == it.resolvedMax
            && it'.body == it.body && it'.starts == it.starts
            && |it'.results| == it'.iteration
            && (forall i :: 0 <= i < |it'.results| ==> it'.results[i].index == i)
            && (it'.iteration < PassLimit(GetNode(d, loop).value.config, it') ==> IterOk(d, loop, it'))
  {
  }

  // ---- Changes ----

  /** The node a change is about. */
  function Subject(ch: Change): Option<string> {
    match ch
    case AskAbout(_, decision) => Some(decision.nodeId)
    case Finish(id, _, _) => Some(id)
    case BeginPass(loop, _) => Some(loop)
    case EndLoop(loop, _, _) => Some(loop)
    case AskLoop(decision, _) => Some(decision.nodeId)
    case _ => None
  }

  /** What every change the walker decides on satisfies. */
  ghost predicate ChangeOk(d: Definition, s: State, ch: Change) {
    && (Subject(ch).Some? ==> Subject(ch).value in s.current && Subject(ch).value in NodeIds(d))
    && match ch
       case AskAbout(_, p) =>
         && !p.kind.StopDecision? && !p.kind.CountDecision? && !HasSubtype(d, p.nodeId, Loop)
         && !Delegated(GetNode(d, p.nodeId).value)
         && (p.kind.RouterDecision? ==> p.routes != [] && HasSubtype(d, p.nodeId, Router))
         && (p.kind.ConditionDecision? ==> HasSubtype(d, p.nodeId, Condition))
       case Finish(id, value, _) => id !in s.loops && (HasSubtype(d, id, Loop) ==> !value.LoopSummary?)
       case BeginPass(loop, it) => IterOk(d, loop, it)
       case EndLoop(loop, it, _) => HasSubtype(d, loop, Loop) && it.body == Body(d, loop) && loop in s.loops
       case CloseRun => s.pending.None?
       case AskLoop(p, it) =>
         && s.pending.None? && IterOk(d, p.nodeId, it)
         && (p.kind.StopDecision? || p.kind.CountDecision?)
         && (p.kind.CountDecision? ==> it.iteration == 0 && it.resolvedMax.None?
                                       && GetNode(d, p.nodeId).value.config.loopMode.AskOrchestrator?)
       case _ => true
  }

  lemma EndLoopKeeps(d: Definition, s: State, loop: string, it: LoopIter, reason: ExitReason)
    requires StateOk(d, s) && loop !in s.completed
    ensures StateOk(d, Apply(d, s, EndLoop(loop, it, reason)))
  {
    CloseLoopKeeps(d, s, loop, it.body);
    AdvanceKeeps(d, CloseLoop(s, loop, it.body), loop, LoopSummary(it.iteration, reason, it.results), LOOP_EXIT);
  }

  lemma AskKeeps(d: Definition, s: State, ch: Change)
    requires StateOk(d, s) && ChangeOk(d, s, ch) && (ch.AskAbout? || ch.AskLoop?)
    requires Subject(ch).value !in s.completed
    ensures StateOk(d, Apply(d, s, ch))
  {
  }

  lemma ApplyKeeps(d: Definition, s: State, ch: Change)
    requires StateOk(d, s) && ChangeOk(d, s, ch)
    ensures StateOk(d, Apply(d, s, ch))
  {
    if Subject(ch).Some? {
      assert Subject(ch).value in AsSet(s.current);
    }
    match ch
    case Finish(id, value, handle) => AdvanceKeeps(d, s, id, value, handle);
    case BeginPass(loop, it) => StartPassKeeps(d, s.(pending := None), loop, it);
    case EndLoop(loop, it, reason) => EndLoopKeeps(d, s, loop, it, reason);
    case AskAbout(_, _) => AskKeeps(d, s, ch);
    case AskLoop(_, _) => AskKeeps(d, s, ch);
    case _ =>
  }

  /** Nodes handed out stay in the frontier unless they are the one that is completed. */
  lemma ApplyKeepsOut(d: Definition, s: State, ch: Change, out: set<string>)
    requires StateOk(d, s) && ChangeOk(d, s, ch) && OutOk(d, s, out) && s.status == Running
    ensures OutOk(d, Apply(d, s, ch), if Subject(ch).Some? then out - {Subject(ch).value} else out)
  {
    if Subject(ch).Some? {
      assert Subject(ch).value in AsSet(s.current);
    }
    match ch
    case Finish(id, value, handle) => AdvanceOut(d, s, id, value, handle, out);
    case BeginPass(loop, it) => StartPassOut(d, s.(pending := None), loop, it, out - {loop});
    case EndLoop(loop, it, reason) =>
      CloseLoopKeeps(d, s, loop, it.body);
      AdvanceOut(d, CloseLoop(s, loop, it.body), loop, LoopSummary(it.iteration, reason, it.results), LOOP_EXIT, out);
    case _ =>
  }

  // ---- The walker's decisions ----

  lemma EnterLoopOk(d: Definition, s: State, node: Node)
    requires s.pending.None? && GetNode(d, node.id) == Some(node) && node.subtype == Loop && node.id in s.current
    requires Starts(d, node.id) != [] && node.id !in s.loops
    ensures var ch := EnterLoop(d, s, node, Body(d, node.id));
            ChangeOk(d, s, ch) && Subject(ch) == Some(node.id)
  {
  }

  lemma ReenterLoopOk(d: Definition, s: State, node: Node, stop: bool)
    requires LoopsOk(d, s) && s.pending.None? && GetNode(d, node.id) == Some(node) && node.subtype == Loop
             && node.id in s.current
    requires node.id in s.loops
    ensures var ch := ReenterLoop(s, node, stop);
            ChangeOk(d, s, ch) && Subject(ch) == Some(node.id)
  {
    FinishPassOk(d, node.id, s.loops[node.id], s.outputs);
  }

  lemma HandleLoopOk(d: Definition, s: State, node: Node, stop: bool)
    requires LoopsOk(d, s) && s.pending.None? && GetNode(d, node.id) == Some(node) && node.subtype == Loop
             && node.id in s.current
    ensures var ch := HandleLoop(d, s, node, Body(d, node.id), stop);
            ChangeOk(d, s, ch) && Subject(ch) == Some(node.id)
  {
    if Starts(d, node.id) == [] {
      assert node.id in s.loops ==> IterOk(d, node.id, s.loops[node.id]);
    } else if node.id !in s.loops {
      EnterLoopOk(d, s, node);
    } else {
      ReenterLoopOk(d, s, node, stop);
    }
  }

  /** What a step hands out are ready nodes that others work on. */
  ghost predicate HandsOutOk(d: Definition, s: State, ids: set<string>) {
    forall id :: id in ids ==>
      && id in s.current && GetNode(d, id).Some? && Delegated(GetNode(d, id).value)
      && Ready(d, id, s.completed, id in s.loops)
  }

  lemma ProcessNodeOk(d: Definition, s: State, node: Node, stop: bool, inside: bool)
    requires LoopsOk(d, s) && s.pending.None? && GetNode(d, node.id) == Some(node) && node.id in s.current
    ensures var ch := ProcessNode(d, s, node, Body(d, node.id), stop, inside);
            && ChangeOk(d, s, ch) && ch != CloseRun
            && (Subject(ch).Some? ==> Subject(ch) == Some(node.id) && !Delegated(node))
            && (ch.Stay? ==> HandedOut(ch.action) == if Delegated(node) then {node.id} else {})
  {
    if node.subtype == Loop {
      HandleLoopOk(d, s, node, stop);
    } else {
      assert node.id in s.loops ==> IterOk(d, node.id, s.loops[node.id]);
      PlainNodeOk(d, s, node, Body(d, node.id), stop, inside, ProcessNode(d, s, node, Body(d, node.id), stop, inside));
    }
  }

  lemma PlainNodeOk(d: Definition, s: State, node: Node, body: set<string>, stop: bool, inside: bool, ch: Change)
    requires s.pending.None? && GetNode(d, node.id) == Some(node) && node.id in s.current
    requires node.subtype != Loop && node.id !in s.loops && ch == ProcessNode(d, s, node, body, stop, inside)
    ensures ChangeOk(d, s, ch) && ch != CloseRun
    ensures Subject(ch).Some? ==> Subject(ch) == Some(node.id) && !Delegated(node)
    ensures ch.Stay? ==> HandedOut(ch.action) == if Delegated(node) then {node.id} else {}
  {
    hide IterOk, Body, UpstreamOutputs, UpstreamItems, UpstreamResults;
  }

  /** A change that processing one node can come to: it forgets no decision, starts no batch and does not wait. */
  predicate OneNode(ch: Change) {
    ch != Forget && !(ch.Stay? && (ch.action.SpawnParallelAgents? || ch.action.WaitingForSubAgents?))
  }

  lemma LoopIsOneNode(d: Definition, s: State, node: Node, body: set<string>, stop: bool, ch: Change)
    requires ch == HandleLoop(d, s, node, body, stop)
    ensures OneNode(ch)
  {
  }

  lemma PlainIsOneNode(d: Definition, s: State, node: Node, body: set<string>, stop: bool, inside: bool, ch: Change)
    requires node.subtype != Loop && ch == ProcessNode(d, s, node, body, stop, inside)
    ensures OneNode(ch)
  {
  }

  lemma FirstIsOneNode(d: Definition, s: State, id: string, stop: bool, ch: Change)
    requires ch == ProcessFirst(d, s, id, stop)
    ensures OneNode(ch)
  {
    var node := GetNode(d, id);
    if node.Some? {
      if node.value.subtype == Loop {
        LoopIsOneNode(d, s, node.value, Body(d, id), stop, ch);
      } else {
        PlainIsOneNode(d, s, node.value, Body(d, id), stop, InsideParallelBranch(d, id), ch);
      }
    }
  }

  lemma ProcessFirstOk(d: Definition, s: State, id: string, stop: bool)
    requires LoopsOk(d, s) && s.pending.None? && id in s.current && Ready(d, id, s.completed, id in s.loops)
    ensures var ch := ProcessFirst(d, s, id, stop);
            && ChangeOk(d, s, ch) && ch != CloseRun
            && (ch.Stay? ==> HandsOutOk(d, s, HandedOut(ch.action)))
            && (Subject(ch).Some? ==> Subject(ch) == Some(id) && !Delegated(GetNode(d, id).value))
  {
    var node := GetNode(d, id);
    if node.Some? {
      ProcessNodeOk(d, s, node.value, stop, InsideParallelBranch(d, id));
    }
  }

  /** A step is about a ready node, hands out ready nodes, or closes a run in which nothing is missing. */
  ghost predicate NextJustified(d: Definition, s: State, ch: Change) {
    && (ch.Stay? ==> HandsOutOk(d, s, HandedOut(ch.action)))
    && (Subject(ch).Some? ==>
          var id := Subject(ch).value;
          && s.pending.None? && Ready(d, id, s.completed, id in s.loops)
          && GetNode(d, id).Some? && !Delegated(GetNode(d, id).value))
    && (ch == CloseRun ==> s.pending.None? && ReadyNodes(d, s, s.current) == []
                           && Missing(d, s.current, s.completed) == {})
  }

  lemma NextCases(d: Definition, s: State, stop: bool)
    requires s.status == Running && s.pending.None?
    ensures var ready := ReadyNodes(d, s, s.current);
            NextStep(d, s, stop) ==
              if ready == [] then
                if Missing(d, s.current, s.completed) != {}
                then Stay(WaitingForSubAgents(s.current, Missing(d, s.current, s.completed))) else CloseRun
              else if |Batch(d, ready)| > 1 then Stay(SpawnParallelAgents(Batch(d, ready)))
              else ProcessFirst(d, s, ready[0], stop)
  {
  }

  lemma BatchOk(d: Definition, s: State, ready: seq<string>, ch: Change)
    requires forall id :: id in ready ==> id in s.current && Ready(d, id, s.completed, id in s.loops)
    requires ch == Stay(SpawnParallelAgents(Batch(d, ready)))
    ensures ChangeOk(d, s, ch) && NextJustified(d, s, ch)
  {
    forall id | id in HandedOut(ch.action)
      ensures id in s.current && GetNode(d, id).Some? && Delegated(GetNode(d, id).value)
              && Ready(d, id, s.completed, id in s.loops)
    {
      assert id in ready;
    }
  }

  lemma FirstOk(d: Definition, s: State, id: string, stop: bool, ch: Change)
    requires LoopsOk(d, s) && s.pending.None? && id in s.current && Ready(d, id, s.completed, id in s.loops)
    requires ch == ProcessFirst(d, s, id, stop)
    ensures ChangeOk(d, s, ch) && NextJustified(d, s, ch)
  {
    ProcessFirstOk(d, s, id, stop);
  }

  lemma NextOk(d: Definition, s: State, stop: bool)
    requires LoopsOk(d, s) && s.status == Running
    ensures ChangeOk(d, s, NextStep(d, s, stop)) && NextJustified(d, s, NextStep(d, s, stop))
  {
    if s.pending.None? {
      NextCases(d, s, stop);
      NextIsOk(d, s, stop, ReadyNodes(d, s, s.current), NextStep(d, s, stop));
    }
  }

  lemma NextIsOk(d: Definition, s: State, stop: bool, ready: seq<string>, ch: Change)
    requires LoopsOk(d, s) && s.pending.None? && ready == ReadyNodes(d, s, s.current)
    requires ch == if ready == [] then
                     if Missing(d, s.current, s.completed) != {}
                     then Stay(WaitingForSubAgents(s.current, Missing(d, s.current, s.completed))) else CloseRun
                   else if |Batch(d, ready)| > 1 then Stay(SpawnParallelAgents(Batch(d, ready)))
                   else ProcessFirst(d, s, ready[0], stop)
    ensures ChangeOk(d, s, ch) && NextJustified(d, s, ch)
  {
    if ready == [] {
      IdleOk(d, s, ch);
    } else if |Batch(d, ready)| > 1 {
      BatchOk(d, s, ready, ch);
    } else {
      assert ready[0] in ready;
      FirstOk(d, s, ready[0], stop, ch);
    }
  }

  lemma IdleOk(d: Definition, s: State, ch: Change)
    requires s.pending.None? && ReadyNodes(d, s, s.current) == []
    requires ch == if Missing(d, s.current, s.completed) != {}
                   then Stay(WaitingForSubAgents(s.current, Missing(d, s.current, s.completed))) else CloseRun
    ensures ChangeOk(d, s, ch) && NextJustified(d, s, ch)
  {
    if ch != CloseRun {
      WaitOk(d, s, ch);
    }
  }

  lemma WaitOk(d: Definition, s: State, ch: Change)
    requires ch.Stay? && ch.action.WaitingForSubAgents?
    ensures ChangeOk(d, s, ch) && NextJustified(d, s, ch)
  {
  }

  lemma DecideOk(d: Definition, lower: string -> string, s: State, text: string)
    requires LoopsOk(d, s) && PendingOk(d, s) && s.pending.Some? && AnswerableDecision(s)
    ensures var ch := ResolveDecision(d, lower, s, text);
            && ChangeOk(d, s, ch) && ch != CloseRun && !ch.AskLoop?
            && (Subject(ch).Some? ==> Subject(ch).value == s.pending.value.nodeId)
  {
    match s.pending.value.kind
    case RouterDecision => RouterOk(d, lower, s, text);
    case StopDecision => StopAnswerOk(d, s, s.pending.value.nodeId, IsYes(lower, text));
    case CountDecision => CountAnswerOk(d, s, s.pending.value.nodeId, CountIn(text));
    case _ =>
  }

  lemma StopAnswerOk(d: Definition, s: State, id: string, yes: bool)
    requires LoopsOk(d, s) && id in s.loops && id in s.current
    ensures var ch := ResolveStop(s, id, yes);
            ChangeOk(d, s, ch) && (ch.BeginPass? || ch.EndLoop?) && Subject(ch) == Some(id)
  {
    assert IterOk(d, id, s.loops[id]);
  }

  lemma CountAnswerOk(d: Definition, s: State, id: string, count: nat)
    requires LoopsOk(d, s) && id in s.loops && id in s.current
    requires s.loops[id].iteration == 0 && GetNode(d, id).Some? && GetNode(d, id).value.config.loopMode.AskOrchestrator?
    ensures var ch := ResolveCount(s, id, count);
            ChangeOk(d, s, ch) && (ch.BeginPass? || ch.EndLoop?) && Subject(ch) == Some(id)
  {
    assert IterOk(d, id, s.loops[id]);
  }

  lemma RouterOk(d: Definition, lower: string -> string, s: State, text: string)
    requires LoopsOk(d, s) && PendingOk(d, s) && s.pending.Some? && s.pending.value.kind.RouterDecision?
    ensures var ch := ResolveRouter(lower, s.pending.value, text);
            && ChangeOk(d, s, ch) && (ch.Finish? || ch.Forget? || ch.AskAbout?)
            && (Subject(ch).Some? ==> Subject(ch).value == s.pending.value.nodeId)
  {
    var p := s.pending.value;
    assert p.nodeId in s.loops ==> IterOk(d, p.nodeId, s.loops[p.nodeId]);
  }

  /** Why a node may change: it is ready, it was handed out, or its decision is pending. */
  ghost predicate Entitled(d: Definition, w: World, m: Move, id: string) {
    match m
    case Next(_) =>
      && w.state.pending.None? && Ready(d, id, w.state.completed, id in w.state.loops)
      && GetNode(d, id).Some? && !Delegated(GetNode(d, id).value)
    case Complete(x, _) => id == x && id in w.out
    case Decide(_) => w.state.pending.Some? && id == w.state.pending.value.nodeId
  }

  /** Every decision of the walker is a proper change, about a node that may change now. */
  lemma OutcomeOk(d: Definition, lower: string -> string, w: World, m: Move)
    requires WalkOk(d, w) && Allowed(w, m)
    ensures var ch := Outcome(d, lower, w, m);
            && ChangeOk(d, w.state, ch)
            && (Subject(ch).Some? ==> Entitled(d, w, m, Subject(ch).value))
            && (m.Next? ==> NextJustified(d, w.state, ch))
            && (ch.AskLoop? || ch == CloseRun ==> m.Next?)
            && (m.Complete? ==> ch == Finish(m.id, m.value, ""))
  {
    match m
    case Next(stop) => NextOk(d, w.state, stop);
    case Complete(id, value) =>
      assert id in w.state.loops ==> IterOk(d, id, w.state.loops[id]);
    case Decide(text) => DecideOk(d, lower, w.state, text);
  }

  // ---- Every run ----

  /** Nobody else was handed the node that changes. */
  lemma SubjectNotOut(d: Definition, w: World, m: Move, id: string)
    requires WalkOk(d, w) && Allowed(w, m) && Entitled(d, w, m, id) && !m.Complete?
    ensures w.out - {id} == w.out
  {
  }

  lemma PlayKeepsOut(d: Definition, w: World, m: Move, ch: Change)
    requires WorldOk(d, w) && Allowed(w, m) && ChangeOk(d, w.state, ch)
    requires Subject(ch).Some? ==> Entitled(d, w, m, Subject(ch).value)
    requires ch.Stay? && m.Next? ==> HandsOutOk(d, w.state, HandedOut(ch.action))
    requires m.Complete? ==> ch == Finish(m.id, m.value, "")
    ensures OutOk(d, After(d, w, m, ch).state, After(d, w, m, ch).out)
  {
    ApplyKeepsOut(d, w.state, ch, w.out);
    if Subject(ch).Some? && !m.Complete? {
      SubjectNotOut(d, w, m, Subject(ch).value);
    }
    assert w.out + {} == w.out;
  }

  lemma PlayKeeps(d: Definition, lower: string -> string, w: World, m: Move)
    requires WorldOk(d, w)
    ensures WorldOk(d, Play(d, lower, w, m))
  {
    if Allowed(w, m) {
      OutcomeOk(d, lower, w, m);
      ApplyKeeps(d, w.state, Outcome(d, lower, w, m));
      PlayKeepsOut(d, w, m, Outcome(d, lower, w, m));
    }
  }

  lemma {:induction false} PlayAllKeeps(d: Definition, lower: string -> string, w: World, moves: seq<Move>)
    requires WorldOk(d, w)
    ensures WorldOk(d, PlayAll(d, lower, w, moves))
    decreases |moves|
  {
    if moves != [] {
      PlayAllKeeps(d, lower, w, moves[..|moves| - 1]);
      PlayKeeps(d, lower, PlayAll(d, lower, w, moves[..|moves| - 1]), moves[|moves| - 1]);
    }
  }

  /** A fresh run of a workflow. */
  function Fresh(s: State): World {
    World(s, {}, map[], map[], map[])
  }

  ghost predicate NoTriggerFeedsTrigger(d: Definition) {
    forall e :: e in d.edges && e.source in TriggerIds(d.nodes) ==> e.target !in TriggerIds(d.nodes)
  }

  lemma DownstreamLast(d: Definition, sources: seq<string>, handle: string, x: string)
    requires sources != []
    ensures var n := |sources| - 1;
            x in Downstream(d, sources, handle) <==>
              x in Downstream(d, sources[..n], handle) || x in Targets(Outgoing(d, sources[n]), handle)
  {
    var n := |sources| - 1;
    var before, last := Downstream(d, sources[..n], handle), Targets(Outgoing(d, sources[n]), handle);
    assert x in AddAll(before, last) <==> x in AsSet(AddAll(before, last));
  }

  ghost predicate Leads(d: Definition, source: string, handle: string, x: string) {
    source in NodeIds(d) && exists e :: e in d.edges && e.source == source && e.target == x && Follows(e, handle)
  }

  lemma TargetsLead(d: Definition, source: string, handle: string, x: string)
    ensures x in Targets(Outgoing(d, source), handle) <==> Leads(d, source, handle, x)
  {
  }

  ghost predicate SomeLeads(d: Definition, sources: seq<string>, handle: string, x: string) {
    exists s {:trigger Leads(d, s, handle, x)} :: s in sources && Leads(d, s, handle, x)
  }

  lemma LastLeads(d: Definition, sources: seq<string>, handle: string, x: string)
    requires sources != []
    ensures var n := |sources| - 1;
            SomeLeads(d, sources, handle, x) <==>
              SomeLeads(d, sources[..n], handle, x) || Leads(d, sources[n], handle, x)
  {
    var n := |sources| - 1;
    assert sources == sources[..n] + [sources[n]];
    if SomeLeads(d, sources[..n], handle, x) {
      var s :| s in sources[..n] && Leads(d, s, handle, x);
      assert s in sources;
    }
    if Leads(d, sources[n], handle, x) {
      assert sources[n] in sources;
    }
  }

  lemma {:induction false} DownstreamLeads(d: Definition, sources: seq<string>, handle: string, x: string)
    ensures x in Downstream(d, sources, handle) <==> SomeLeads(d, sources, handle, x)
    decreases |sources|
  {
    if sources != [] {
      var n := |sources| - 1;
      DownstreamLeads(d, sources[..n], handle, x);
      DownstreamLast(d, sources, handle, x);
      TargetsLead(d, sources[n], handle, x);
      LastLeads(d, sources, handle, x);
    }
  }

  lemma DownstreamOfMany(d: Definition, sources: seq<string>, handle: string, x: string)
    ensures x in Downstream(d, sources, handle) <==>
            exists e :: e in d.edges && e.source in sources && e.source in NodeIds(d)
                        && e.target == x && Follows(e, handle)
  {
    DownstreamLeads(d, sources, handle, x);
    if SomeLeads(d, sources, handle, x) {
      var s :| s in sources && Leads(d, s, handle, x);
      var e :| e in d.edges && e.source == s && e.target == x && Follows(e, handle);
      assert e.source in sources;
    }
    if e :| e in d.edges && e.source in sources && e.source in NodeIds(d) && e.target == x && Follows(e, handle) {
      assert Leads(d, e.source, handle, x);
    }
  }

  /** A fresh run keeps its books from the start exactly when no trigger feeds a trigger. */
  lemma FreshExactly(d: Definition, payload: string)
    requires CreateState(d, payload).Some?
    ensures var s := CreateState(d, payload).value;
            && AsSet(s.completed) == s.outputs.Keys
            && (AsSet(s.current) !! AsSet(s.completed) <==> NoTriggerFeedsTrigger(d))
            && (NoTriggerFeedsTrigger(d) ==> WorldOk(d, Fresh(s)))
  {
    var s := CreateState(d, payload).value;
    var triggers := TriggerIds(d.nodes);
    forall x ensures x in s.current <==> exists e :: e in d.edges && e.source in triggers && e.target == x {
      DownstreamOfMany(d, triggers, "", x);
    }
    if NoTriggerFeedsTrigger(d) {
      assert forall x :: x in AsSet(s.current) ==> x !in AsSet(s.completed);
    } else {
      var e :| e in d.edges && e.source in triggers && e.target in triggers;
      assert e.target in AsSet(s.current) && e.target in AsSet(s.completed);
    }
  }

  lemma AdvanceKeepsKeys(d: Definition, s: State, id: string, value: Value, handle: string)
    requires AsSet(s.completed) == s.outputs.Keys
    ensures var s' := Advance(d, s, id, value, handle); AsSet(s'.completed) == s'.outputs.Keys
  {
    assert AsSet(s.completed + [id]) == AsSet(s.completed) + {id};
  }

  /** Whatever the walker decides, completions and outputs go together. */
  lemma ApplyKeepsKeys(d: Definition, s: State, ch: Change)
    requires AsSet(s.completed) == s.outputs.Keys
    ensures var s' := Apply(d, s, ch); AsSet(s'.completed) == s'.outputs.Keys
  {
    hide Advance, AddAll, Dedup;
    match ch
    case Finish(id, value, handle) => AdvanceKeepsKeys(d, s, id, value, handle);
    case BeginPass(loop, it) => assert (s.outputs - it.body).Keys == s.outputs.Keys - it.body;
    case EndLoop(loop, it, reason) =>
      assert (s.outputs - it.body).Keys == s.outputs.Keys - it.body;
      AdvanceKeepsKeys(d, CloseLoop(s, loop, it.body), loop, LoopSummary(it.iteration, reason, it.results), LOOP_EXIT);
    case _ =>
  }

  lemma {:induction false} PlayAllKeepsKeys(d: Definition, lower: string -> string, w: World, moves: seq<Move>)
    requires AsSet(w.state.completed) == w.state.outputs.Keys
    ensures var s := PlayAll(d, lower, w, moves).state; AsSet(s.completed) == s.outputs.Keys
    decreases |moves|
  {
    if moves != [] {
      var n := |moves| - 1;
      PlayAllKeepsKeys(d, lower, w, moves[..n]);
      var before := PlayAll(d, lower, w, moves[..n]);
      if Allowed(before, moves[n]) {
        ApplyKeepsKeys(d, before.state, Outcome(d, lower, before, moves[n]));
      }
    }
  }

  /**
   * On every run, loop resets included, the completed nodes are those with an output, and none of
   * them is in the frontier if no trigger feeds a trigger.
   */
  lemma CompletedAreThoseWithOutput(d: Definition, lower: string -> string, payload: string, moves: seq<Move>)
    requires CreateState(d, payload).Some?
    ensures var s := PlayAll(d, lower, Fresh(CreateState(d, payload).value), moves).state;
            && AsSet(s.completed) == s.outputs.Keys
            && (NoTriggerFeedsTrigger(d) ==> AsSet(s.current) !! AsSet(s.completed) && NoDup(s.current))
  {
    FreshExactly(d, payload);
    PlayAllKeepsKeys(d, lower, Fresh(CreateState(d, payload).value), moves);
    if NoTriggerFeedsTrigger(d) {
      PlayAllKeeps(d, lower, Fresh(CreateState(d, payload).value), moves);
    }
  }

  // ---- Without loops every node completes at most once ----

  predicate NoLoops(d: Definition) {
    forall n :: n in d.nodes ==> n.subtype != Loop
  }

  /** `later` extends `first` by nodes that are new, each once. */
  ghost predicate GrewOnce(d: Definition, first: seq<string>, later: seq<string>) {
    && first <= later
    && NoDup(later[|first|..])
    && AsSet(later[|first|..]) <= NodeIds(d) - AsSet(first)
  }

  lemma GrowByOne(d: Definition, first: seq<string>, later: seq<string>, id: string)
    requires GrewOnce(d, first, later) && id in NodeIds(d) && id !in later
    ensures GrewOnce(d, first, later + [id])
  {
    assert (later + [id])[|first|..] == later[|first|..] + [id];
    forall x | x in AsSet(later[|first|..] + [id]) ensures x in NodeIds(d) - AsSet(first) {
      if x != id { assert x in AsSet(later[|first|..]); }
    }
  }

  lemma PlayGrows(d: Definition, lower: string -> string, w: World, m: Move, first: seq<string>)
    requires NoLoops(d) && WorldOk(d, w) && GrewOnce(d, first, w.state.completed)
    ensures GrewOnce(d, first, Play(d, lower, w, m).state.completed)
  {
    if Allowed(w, m) {
      OutcomeOk(d, lower, w, m);
      CompletedByChange(d, w.state, Outcome(d, lower, w, m), first);
    }
  }

  lemma CompletedByChange(d: Definition, s: State, ch: Change, first: seq<string>)
    requires NoLoops(d) && StateOk(d, s) && ChangeOk(d, s, ch) && GrewOnce(d, first, s.completed)
    ensures GrewOnce(d, first, Apply(d, s, ch).completed)
  {
    if ch.Finish? {
      assert ch.id in AsSet(s.current);
      GrowByOne(d, first, s.completed, ch.id);
    }
  }

  /**
   * Without loop nodes, on any graph, cycles included, a run adds each node to the completed list
   * at most once, and so completes at most as many nodes as were not completed at its start.
   */
  lemma {:induction false} EachNodeCompletesOnce(d: Definition, lower: string -> string, w: World, moves: seq<Move>)
    requires NoLoops(d) && WorldOk(d, w)
    ensures var first, later := w.state.completed, PlayAll(d, lower, w, moves).state.completed;
            && GrewOnce(d, first, later)
            && |later| - |first| <= |NodeIds(d) - AsSet(first)|
    decreases |moves|
  {
    var first := w.state.completed;
    if moves == [] {
      assert first[|first|..] == [];
    } else {
      EachNodeCompletesOnce(d, lower, w, moves[..|moves| - 1]);
      PlayAllKeeps(d, lower, w, moves[..|moves| - 1]);
      PlayGrows(d, lower, PlayAll(d, lower, w, moves[..|moves| - 1]), moves[|moves| - 1], first);
    }
    var later := PlayAll(d, lower, w, moves).state.completed;
    NoDupCount(later[|first|..], NodeIds(d) - AsSet(first));
  }

  lemma {:induction false} NoDupCount(s: seq<string>, all: set<string>)
    requires NoDup(s) && AsSet(s) <= all
    ensures |s| <= |all|
    decreases |s|
  {
    if s != [] {
      assert s[0] in AsSet(s);
      forall x | x in AsSet(s[1..]) ensures x in all - {s[0]} {
        assert x in AsSet(s);
      }
      NoDupCount(s[1..], all - {s[0]});
    }
  }
}
