/**
 * The workflow playbook (WorkflowPlaybook.ts): a definition graph and the state transitions of
 * its walker. Prompts, templates and times are left out; results are opaque values except where
 * the walker itself reads them.
 */
module Playbook {
  import opened Wrappers
  import opened Graphs
  import opened Texts
  import Routes

  // ---- Definitions ----

  datatype Subtype =
    | Agent | IntegrationCall | ToolCall | OrchestratorPrompt | Function
    | Router | Condition | Wait | Loop | Parallel | Merge | SubWorkflow
    | UserInput | Response | Transfer | DesktopNotification | Other

  datatype LoopMode = Iterations | ForEach | AskOrchestrator

  /** The configuration fields the walker branches on; `maxIterations` is already defaulted to 10. */
  datatype Config = Config(routes: seq<string>, loopMode: LoopMode, maxIterations: int, hasCondition: bool,
                           askModel: bool, workflowId: string, targetWorkflowId: string)

  datatype Node = Node(id: string, subtype: Subtype, isTrigger: bool, config: Config)

  /** Handles name the port an edge leaves or enters; "" is an edge without a named port. */
  datatype Edge = Edge(source: string, target: string, sourceHandle: string, targetHandle: string)

  datatype Definition = Definition(nodes: seq<Node>, edges: seq<Edge>)

  function NodeIds(d: Definition): set<string> {
    set n | n in d.nodes :: n.id
  }

  function FindNode(nodes: seq<Node>, id: string): (r: Option<Node>)
    ensures r.Some? ==> r.value in nodes && r.value.id == id
    ensures r.None? ==> forall n :: n in nodes ==> n.id != id
  {
    if nodes == [] then None
    else if nodes[0].id == id then Some(nodes[0])
    else FindNode(nodes[1..], id)
  }

  function GetNode(d: Definition, id: string): (r: Option<Node>)
    ensures r.Some? <==> id in NodeIds(d)
    ensures r.Some? ==> r.value in d.nodes && r.value.id == id
  {
    FindNode(d.nodes, id)
  }

  predicate IsTrigger(d: Definition, id: string) {
    GetNode(d, id).Some? && GetNode(d, id).value.isTrigger
  }

  predicate HasSubtype(d: Definition, id: string, subtype: Subtype) {
    GetNode(d, id).Some? && GetNode(d, id).value.subtype == subtype
  }

  function EdgesFrom(edges: seq<Edge>, id: string): (r: seq<Edge>)
    ensures forall e :: e in r <==> e in edges && e.source == id
  {
    if edges == [] then []
    else if edges[0].source == id then [edges[0]] + EdgesFrom(edges[1..], id)
    else EdgesFrom(edges[1..], id)
  }

  function EdgesInto(edges: seq<Edge>, id: string): (r: seq<Edge>)
    ensures forall e :: e in r <==> e in edges && e.target == id
  {
    if edges == [] then []
    else if edges[0].target == id then [edges[0]] + EdgesInto(edges[1..], id)
    else EdgesInto(edges[1..], id)
  }

  /** Outgoing edges as the forward index has them: only nodes of the definition have an entry. */
  function Outgoing(d: Definition, id: string): seq<Edge> {
    if id in NodeIds(d) then EdgesFrom(d.edges, id) else []
  }

  function Incoming(d: Definition, id: string): seq<Edge> {
    if id in NodeIds(d) then EdgesInto(d.edges, id) else []
  }

  /** The graph that searches along the forward index walk. */
  ghost function ForwardGraph(d: Definition): Edges {
    set e | e in d.edges && e.source in NodeIds(d) :: (e.source, e.target)
  }

  /** The graph that searches along the reverse index walk, as source-target pairs. */
  ghost function ReverseGraph(d: Definition): Edges {
    set e | e in d.edges && e.target in NodeIds(d) :: (e.source, e.target)
  }

  ghost function AllEdges(d: Definition): Edges {
    set e | e in d.edges :: (e.source, e.target)
  }

  // ---- Ordered sets, as JavaScript Sets keep them ----

  ghost predicate NoDup(s: seq<string>) {
    forall i, j :: 0 <= i < j < |s| ==> s[i] != s[j]
  }

  function AsSet(s: seq<string>): set<string> {
    set x | x in s
  }

  function Add(s: seq<string>, x: string): (r: seq<string>)
    ensures AsSet(r) == AsSet(s) + {x}
    ensures NoDup(s) ==> NoDup(r)
  {
    if x in s then s else s + [x]
  }

  function AddAll(s: seq<string>, xs: seq<string>): (r: seq<string>)
    ensures AsSet(r) == AsSet(s) + AsSet(xs)
    ensures NoDup(s) ==> NoDup(r)
    decreases |xs|
  {
    if xs == [] then s
    else
      assert AsSet(xs) == {xs[0]} + AsSet(xs[1..]);
      AddAll(Add(s, xs[0]), xs[1..])
  }

  function Dedup(s: seq<string>): (r: seq<string>)
    ensures AsSet(r) == AsSet(s) && NoDup(r)
  {
    AddAll([], s)
  }

  function Without(s: seq<string>, drop: set<string>): (r: seq<string>)
    ensures AsSet(r) == AsSet(s) - drop
    ensures NoDup(s) ==> NoDup(r)
  {
    if s == [] then []
    else
      var rest := Without(s[1..], drop);
      assert AsSet(s) == {s[0]} + AsSet(s[1..]);
      assert AsSet(rest) == AsSet(s[1..]) - drop;
      if s[0] in drop then rest
      else
        assert s[0] in rest ==> s[0] in AsSet(rest);
        assert AsSet([s[0]] + rest) == {s[0]} + AsSet(rest);
        [s[0]] + rest
  }

  function Targets(edges: seq<Edge>, handle: string): (r: seq<string>)
    ensures forall t :: t in r <==> exists e :: e in edges && e.target == t && Follows(e, handle)
  {
    if edges == [] then []
    else if Follows(edges[0], handle) then [edges[0].target] + Targets(edges[1..], handle)
    else Targets(edges[1..], handle)
  }

  /** Without a selected handle every edge is followed; an edge without a handle always is. */
  predicate Follows(e: Edge, handle: string) {
    handle == "" || e.sourceHandle == "" || e.sourceHandle == handle
  }

  function Downstream(d: Definition, sources: seq<string>, handle: string): (r: seq<string>)
    ensures NoDup(r)
    decreases |sources|
  {
    if sources == [] then []
    else
      var n := |sources| - 1;
      AddAll(Downstream(d, sources[..n], handle), Targets(Outgoing(d, sources[n]), handle))
  }

  // ---- State ----

  datatype Value =
    | Text(text: string)
    | Passed(passed: bool)
    | Merged(items: seq<Item>)
    | Collected(results: seq<Value>)
    | LoopSkipped
    | LoopSummary(total: nat, reason: ExitReason, passes: seq<Pass>)

  datatype Item = Item(nodeId: string, result: Value)

  datatype Output = Output(nodeId: string, result: Value)

  type Outputs = map<string, Output>

  /** The outputs of the loop body after one finished pass. */
  datatype Pass = Pass(index: nat, bodyOutputs: map<string, Output>)

  datatype ExitReason = ForEachComplete | MaxIterations | OrchestratorCount | OrchestratorZero | ConditionMet

  datatype DecisionKind =
    | RouterDecision | ConditionDecision | StopDecision | CountDecision | InputDecision | ResponseDecision

  datatype Decision = Decision(nodeId: string, kind: DecisionKind, routes: seq<Routes.Route>, retryCount: nat)

  datatype LoopIter = LoopIter(iteration: nat, results: seq<Pass>, body: set<string>, starts: seq<string>,
                               items: seq<Item>, currentItem: Option<Item>, resolvedMax: Option<nat>)

  datatype Status = Running | Completed | Failed

  datatype State = State(current: seq<string>, completed: seq<string>, outputs: Outputs, status: Status,
                         pending: Option<Decision>, loops: map<string, LoopIter>)

  datatype Action =
    | PromptAgent
    | PromptOrchestrator(nodeId: string)
    | NodeCompleted(nodeId: string)
    | PassStarted(nodeId: string, iteration: nat)
    | SpawnSubAgent(nodeId: string)
    | SpawnParallelAgents(nodeIds: seq<string>)
    | SpawnSubWorkflow(nodeId: string)
    | WorkflowCompleted
    | WorkflowFailed
    | WaitFor(nodeId: string)
    | AwaitUserInput(nodeId: string)
    | ExecuteToolCall(nodeId: string)
    | ExecuteFunction(nodeId: string)
    | TransferWorkflow(nodeId: string)
    | WaitingForSubAgents(blocked: seq<string>, missing: set<string>)

  /**
   * What one call of the walker decides to do to the state. The call returns the action to take
   * (`ActionOf`) and the updated state (`Apply`).
   */
  datatype Change =
    | Stay(action: Action)
    | AskAbout(action: Action, decision: Decision)
    | Finish(id: string, value: Value, handle: string)
    | BeginPass(loop: string, it: LoopIter)
    | EndLoop(loop: string, it: LoopIter, reason: ExitReason)
    | AskLoop(decision: Decision, it: LoopIter)
    | Refuse
    | Forget
    | CloseRun

  // ---- Completing a node ----

  function Frontier(current: seq<string>, id: string, downstream: seq<string>, completed: seq<string>): seq<string> {
    AddAll(Without(Dedup(current), {id}), Without(downstream, AsSet(completed)))
  }

  /** Marks a node completed, stores its output and advances the frontier along the selected handle. */
  function Advance(d: Definition, s: State, id: string, value: Value, handle: string): State {
    var completed := s.completed + [id];
    var current := Frontier(s.current, id, Downstream(d, [id], handle), completed);
    s.(current := current, completed := completed, outputs := s.outputs[id := Output(id, value)],
       pending := None, status := if current == [] then Completed else Running)
  }

  /** Resets the loop body and puts its start nodes in the frontier. */
  function StartPass(s: State, loop: string, it: LoopIter): State {
    s.(current := AddAll(Without(Dedup(s.current), {loop}), it.starts),
       completed := Without(s.completed, it.body),
       outputs := s.outputs - it.body,
       loops := s.loops[loop := it])
  }

  /** The state in which a loop completes: its body is reset and its record gone. */
  function CloseLoop(s: State, loop: string, body: set<string>): State {
    s.(completed := Without(s.completed, body), outputs := s.outputs - body, loops := s.loops - {loop})
  }

  function Apply(d: Definition, s: State, ch: Change): State {
    match ch
    case Stay(_) => s
    case AskAbout(_, decision) => s.(pending := Some(decision))
    case Finish(id, value, handle) => Advance(d, s, id, value, handle)
    case BeginPass(loop, it) => StartPass(s.(pending := None), loop, it)
    case EndLoop(loop, it, reason) =>
      Advance(d, CloseLoop(s, loop, it.body), loop, LoopSummary(it.iteration, reason, it.results), LOOP_EXIT)
    case AskLoop(decision, it) => s.(loops := s.loops[decision.nodeId := it], pending := Some(decision))
    case Refuse => s.(status := Failed)
    case Forget => s.(pending := None)
    case CloseRun => s.(status := Completed, current := [])
  }

  function ActionOf(d: Definition, s: State, ch: Change): Action {
    match ch
    case Stay(action) => action
    case AskAbout(action, _) => action
    case Finish(id, _, _) => if Apply(d, s, ch).current == [] then WorkflowCompleted else NodeCompleted(id)
    case BeginPass(loop, it) => PassStarted(loop, it.iteration)
    case EndLoop(loop, _, _) => if Apply(d, s, ch).current == [] then WorkflowCompleted else NodeCompleted(loop)
    case AskLoop(_, _) => PromptAgent
    case Refuse => WorkflowFailed
    case Forget => WorkflowFailed
    case CloseRun => WorkflowCompleted
  }

  function CompleteSubAgent(d: Definition, id: string, value: Value): Change {
    if id !in NodeIds(d) then Stay(WorkflowFailed) else Finish(id, value, "")
  }

  // ---- Loops ----

  const LOOP_START := "loop-start"
  const LOOP_EXIT := "loop-exit"
  const LOOP_BACK := "loop-back"
  const LOOP_ENTRY := "loop-entry"

  function Starts(d: Definition, loop: string): seq<string> {
    Downstream(d, [loop], LOOP_START)
  }

  ghost function BodyGraph(d: Definition, loop: string): Edges {
    set e | e in d.edges && e.source in NodeIds(d) && e.source != loop && e.target != loop :: (e.source, e.target)
  }

  ghost predicate InBody(d: Definition, loop: string, id: string) {
    id != loop && exists s :: s in Starts(d, loop) && s != loop && Reaches(BodyGraph(d, loop), s, id)
  }

  /** Every id an edge or a node names. */
  function Names(d: Definition): set<string> {
    NodeIds(d) + (set e | e in d.edges :: e.source) + (set e | e in d.edges :: e.target)
  }

  /** The loop body: what the start nodes reach without passing the loop node. */
  ghost function Body(d: Definition, loop: string): set<string> {
    set id | id in Names(d) && InBody(d, loop, id)
  }

  function FirstMerged(outputs: seq<Output>): seq<Item> {
    if outputs == [] then []
    else if outputs[0].result.Merged? then outputs[0].result.items
    else FirstMerged(outputs[1..])
  }

  function UpstreamOutputs(d: Definition, id: string, outputs: Outputs): seq<Output> {
    OutputsAlong(Incoming(d, id), outputs)
  }

  function OutputsAlong(edges: seq<Edge>, outputs: Outputs): seq<Output> {
    if edges == [] then []
    else (if edges[0].source in outputs then [outputs[edges[0].source]] else []) + OutputsAlong(edges[1..], outputs)
  }

  /** First entry of a loop node with a body. */
  function EnterLoop(d: Definition, s: State, node: Node, body: set<string>): Change {
    var it := LoopIter(0, [], body, Starts(d, node.id), [], None, None);
    match node.config.loopMode
    case ForEach =>
      var items := FirstMerged(UpstreamOutputs(d, node.id, s.outputs));
      if items == [] then Finish(node.id, LoopSkipped, LOOP_EXIT)
      else BeginPass(node.id, it.(items := items, currentItem := Some(items[0])))
    case AskOrchestrator => AskLoop(Decision(node.id, CountDecision, [], 0), it)
    case Iterations => BeginPass(node.id, it)
  }

  /** The bookkeeping of a pass that just ended: its body outputs are kept and the counter moves on. */
  function FinishPass(it: LoopIter, outputs: Outputs): LoopIter {
    var it' := it.(results := it.results + [Pass(it.iteration, map id | id in outputs && id in it.body :: outputs[id])],
                   iteration := it.iteration + 1);
    if it'.iteration < |it'.items| then it'.(currentItem := Some(it'.items[it'.iteration])) else it'
  }

  /** A loop without a stop condition ends after this many passes. */
  function PassLimit(config: Config, it: LoopIter): int {
    if config.loopMode.ForEach? then |it.items|
    else if it.resolvedMax.Some? then it.resolvedMax.value
    else config.maxIterations
  }

  function LimitReason(mode: LoopMode): ExitReason {
    match mode
    case ForEach => ForEachComplete
    case AskOrchestrator => OrchestratorCount
    case Iterations => MaxIterations
  }

  /**
   * The loop node comes up again after a pass. `stop` is the answer of the stop condition when
   * it is a template.
   */
  function ReenterLoop(s: State, node: Node, stop: bool): Change
    requires node.id in s.loops
  {
    var it := FinishPass(s.loops[node.id], s.outputs);
    if it.iteration >= PassLimit(node.config, it) then EndLoop(node.id, it, LimitReason(node.config.loopMode))
    else if node.config.hasCondition && node.config.askModel then AskLoop(Decision(node.id, StopDecision, [], 0), it)
    else if node.config.hasCondition && stop then EndLoop(node.id, it, ConditionMet)
    else BeginPass(node.id, it)
  }

  function HandleLoop(d: Definition, s: State, node: Node, body: set<string>, stop: bool): Change {
    if Starts(d, node.id) == [] then Finish(node.id, LoopSkipped, LOOP_EXIT)
    else if node.id !in s.loops then EnterLoop(d, s, node, body)
    else ReenterLoop(s, node, stop)
  }

  // ---- Readiness ----

  /** The head of the edge reaches its tail, so the edge feeds back. */
  ghost predicate IsBackEdge(d: Definition, source: string, target: string) {
    Reaches(ForwardGraph(d), target, source)
  }

  ghost predicate LoopReady(edges: seq<Edge>, completed: seq<string>, started: bool) {
    forall e :: e in edges && !(!started && e.targetHandle == LOOP_BACK) && !(started && e.targetHandle == LOOP_ENTRY)
                ==> e.source in completed
  }

  predicate AllFromTriggers(d: Definition, edges: seq<Edge>) {
    forall e :: e in edges ==> IsTrigger(d, e.source)
  }

  ghost predicate Ready(d: Definition, id: string, completed: seq<string>, started: bool) {
    var edges := Incoming(d, id);
    if edges == [] then true
    else if HasSubtype(d, id, Loop) then LoopReady(edges, completed, started)
    else if AllFromTriggers(d, edges) then exists e :: e in edges && e.source in completed
    else forall e :: e in edges ==> e.source in completed || IsBackEdge(d, e.source, id)
  }

  ghost function ReadyNodes(d: Definition, s: State, ids: seq<string>): (r: seq<string>)
    ensures forall id :: id in r <==> id in ids && Ready(d, id, s.completed, id in s.loops)
  {
    if ids == [] then []
    else if Ready(d, ids[0], s.completed, ids[0] in s.loops) then [ids[0]] + ReadyNodes(d, s, ids[1..])
    else ReadyNodes(d, s, ids[1..])
  }

  // ---- The next step ----

  /** Backwards from a node, stopping at merge nodes. */
  ghost function BranchGraph(d: Definition): Edges {
    set e | e in d.edges && e.target in NodeIds(d) && !HasSubtype(d, e.target, Merge) :: (e.target, e.source)
  }

  ghost predicate InsideParallelBranch(d: Definition, id: string) {
    exists p :: HasSubtype(d, p, Parallel) && Reaches(BranchGraph(d), id, p)
  }

  function DecisionRoutes(labels: seq<string>): seq<Routes.Route> {
    seq(|labels|, i requires 0 <= i < |labels| => Routes.Route(labels[i], Routes.HandleOf(i)))
  }

  function UpstreamItems(outputs: seq<Output>): seq<Item> {
    seq(|outputs|, i requires 0 <= i < |outputs| => Item(outputs[i].nodeId, outputs[i].result))
  }

  function UpstreamResults(outputs: seq<Output>): seq<Value> {
    seq(|outputs|, i requires 0 <= i < |outputs| => outputs[i].result)
  }

  predicate InActiveLoop(s: State, id: string) {
    exists l :: l in s.loops && id in s.loops[l].body
  }

  /**
   * One ready node, by its subtype. `inside` says whether it lies in a parallel branch; `stop` answers
   * a loop's template stop condition.
   */
  function ProcessNode(d: Definition, s: State, node: Node, body: set<string>, stop: bool, inside: bool): Change {
    var id := node.id;
    match node.subtype
    case Agent => Stay(SpawnSubAgent(id))
    case IntegrationCall => Stay(SpawnSubAgent(id))
    case ToolCall => Stay(ExecuteToolCall(id))
    case DesktopNotification => Stay(ExecuteToolCall(id))
    case Function => Stay(ExecuteFunction(id))
    case OrchestratorPrompt => Stay(PromptOrchestrator(id))
    case Router =>
      if node.config.routes == [] then Finish(id, Text("no routes configured"), "")
      else AskAbout(PromptAgent, Decision(id, RouterDecision, DecisionRoutes(node.config.routes), 0))
    case Condition => AskAbout(PromptAgent, Decision(id, ConditionDecision, [], 0))
    case Wait => Stay(WaitFor(id))
    case Parallel => Finish(id, Collected(UpstreamResults(UpstreamOutputs(d, id, s.outputs))), "")
    case Merge => Finish(id, Merged(UpstreamItems(UpstreamOutputs(d, id, s.outputs))), "")
    case Loop => HandleLoop(d, s, node, body, stop)
    case SubWorkflow =>
      if node.config.workflowId == "" then Finish(id, Text("No workflow ID configured"), "")
      else Stay(SpawnSubWorkflow(id))
    case Response => AskAbout(PromptAgent, Decision(id, ResponseDecision, [], 0))
    case UserInput => AskAbout(AwaitUserInput(id), Decision(id, InputDecision, [], 0))
    case Transfer =>
      if node.config.targetWorkflowId == "" then Finish(id, Text("No target workflow configured"), "")
      else if InActiveLoop(s, id) || inside then Refuse
      else Stay(TransferWorkflow(id))
    case Other => Finish(id, Text(""), "")
  }

  predicate HasParallelParent(d: Definition, id: string) {
    exists e :: e in Incoming(d, id) && HasSubtype(d, e.source, Parallel)
  }

  /** Ready nodes that run side by side: children of a parallel node that spawn an agent. */
  function Batch(d: Definition, ready: seq<string>): (r: seq<string>)
    ensures forall id :: id in r ==> id in ready && (HasSubtype(d, id, Agent) || HasSubtype(d, id, IntegrationCall))
    ensures NoDup(ready) ==> NoDup(r)
  {
    if ready == [] then []
    else if HasParallelParent(d, ready[0])
      && (HasSubtype(d, ready[0], Agent) || HasSubtype(d, ready[0], IntegrationCall)) then
      [ready[0]] + Batch(d, ready[1..])
    else Batch(d, ready[1..])
  }

  function Missing(d: Definition, current: seq<string>, completed: seq<string>): set<string> {
    set e | e in d.edges && e.target in current && e.target in NodeIds(d) && e.source !in completed :: e.source
  }

  /** The sequential fallback: a ready id that names no node fails the workflow. */
  ghost function ProcessFirst(d: Definition, s: State, id: string, stop: bool): Change {
    match GetNode(d, id)
    case None => Refuse
    case Some(node) => ProcessNode(d, s, node, Body(d, node.id), stop, InsideParallelBranch(d, node.id))
  }

  /** `processNextStep`. */
  ghost function NextStep(d: Definition, s: State, stop: bool): Change {
    if s.status != Running then Stay(WorkflowCompleted)
    else if s.pending.Some? then Stay(PromptAgent)
    else
      var ready := ReadyNodes(d, s, s.current);
      if ready == [] then
        var missing := Missing(d, s.current, s.completed);
        if missing != {} then Stay(WaitingForSubAgents(s.current, missing)) else CloseRun
      else if |Batch(d, ready)| > 1 then Stay(SpawnParallelAgents(Batch(d, ready)))
      else ProcessFirst(d, s, ready[0], stop)
  }

  // ---- Answers to decisions ----

  /** Digits of the answer read as a number; 0 when there is none. */
  function CountIn(text: string): nat {
    if text == "" then 0
    else
      var c := text[|text| - 1];
      if '0' <= c <= '9' then CountIn(text[..|text| - 1]) * 10 + (c as int - '0' as int)
      else CountIn(text[..|text| - 1])
  }

  function ResolveRouter(lower: string -> string, decision: Decision, text: string): Change
    requires decision.routes != []
  {
    match Routes.MatchRoute(lower, text, decision.routes)
    case Matched(route) => Finish(decision.nodeId, Text(Trim(text)), route.handleId)
    case Unmatched(_, ranked) =>
      if decision.retryCount >= 1 then
        match Routes.Fallback(Routes.Scores(lower, Trim(text)), decision.routes, ranked)
        case None => Forget
        case Some(route) => Finish(decision.nodeId, Text("[soft-fallback] " + Trim(text)), route.handleId)
      else AskAbout(PromptAgent, decision.(retryCount := decision.retryCount + 1))
  }

  predicate IsYes(lower: string -> string, text: string) {
    lower(Trim(text)) == "true" || lower(Trim(text)) == "yes"
  }

  function ResolveStop(s: State, id: string, yes: bool): Change {
    if id !in s.loops then Stay(WorkflowFailed)
    else if yes then EndLoop(id, s.loops[id], ConditionMet)
    else BeginPass(id, s.loops[id])
  }

  function ResolveCount(s: State, id: string, count: nat): Change {
    if id !in s.loops then Stay(WorkflowFailed)
    else if count == 0 then EndLoop(id, s.loops[id], OrchestratorZero)
    else BeginPass(id, s.loops[id].(resolvedMax := Some(count)))
  }

  /** A pending router decision always carries the routes it was made with. */
  predicate AnswerableDecision(s: State) {
    s.pending.Some? && s.pending.value.kind.RouterDecision? ==> s.pending.value.routes != []
  }

  function ResolveDecision(d: Definition, lower: string -> string, s: State, text: string): Change
    requires AnswerableDecision(s)
  {
    if s.pending.None? || s.pending.value.nodeId !in NodeIds(d) then Stay(WorkflowFailed)
    else
      var decision := s.pending.value;
      var id := decision.nodeId;
      var yes := IsYes(lower, text);
      match decision.kind
      case RouterDecision => ResolveRouter(lower, decision, text)
      case ConditionDecision => Finish(id, Passed(yes), if yes then "condition-true" else "condition-false")
      case StopDecision => ResolveStop(s, id, yes)
      case CountDecision => ResolveCount(s, id, CountIn(text))
      case InputDecision => Finish(id, Text(text), "")
      case ResponseDecision => Finish(id, Text(text), "")
  }

  // ---- Fresh states ----

  function TriggerIds(nodes: seq<Node>): (r: seq<string>)
    ensures forall id :: id in r <==> exists n :: n in nodes && n.isTrigger && n.id == id
  {
    if nodes == [] then []
    else (if nodes[0].isTrigger then [nodes[0].id] else []) + TriggerIds(nodes[1..])
  }

  /** A workflow without triggers cannot be started. */
  function CreateState(d: Definition, payload: string): Option<State> {
    var triggers := TriggerIds(d.nodes);
    if triggers == [] then None
    else Some(State(Downstream(d, triggers, ""), triggers,
                    map id | id in AsSet(triggers) :: Output(id, Text(payload)), Running, None, map[]))
  }

  /** The nodes other than `start` with a path to it, along edges the reverse index knows. */
  ghost function Ancestors(d: Definition, start: string): set<string> {
    set id | id in NodeIds(d) && id != start && Reaches(ReverseGraph(d), id, start)
  }
}
