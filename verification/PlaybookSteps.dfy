/**
 * What a step and an answer do to the playbook, told from the state before it and the edges of the
 * definition: which node is chosen, what it puts out, and which nodes are in the frontier after it.
 */
module PlaybookSteps {
  import opened Wrappers
  import opened Playbook
  import opened PlaybookRuns
  import Routes
  import ToolIds

  // ---- The frontier ----

  /** An edge leads from `id` to `x` along the handle; without a handle every edge does. */
  ghost predicate LeadsTo(d: Definition, id: string, handle: string, x: string) {
    && id in NodeIds(d)
    && exists e :: e in d.edges && e.source == id && e.target == x && (handle == "" || e.sourceHandle in {"", handle})
  }

  /** The state after a node was completed, apart from the loop records. */
  ghost predicate Completes(d: Definition, s: State, id: string, value: Value, handle: string, s': State) {
    && s'.completed == s.completed + [id] && s'.outputs == s.outputs[id := Output(id, value)] && s'.pending == None
    && (forall x :: x in s'.current <==>
          x != id && (x in s.current || (x !in s.completed && LeadsTo(d, id, handle, x))))
    && s'.status == if s'.current == [] then Completed else Running
  }

  lemma LeadsDownstream(d: Definition, id: string, handle: string, x: string)
    ensures x in Downstream(d, [id], handle) <==> LeadsTo(d, id, handle, x)
  {
    DownstreamOfMany(d, [id], handle, x);
    forall e: Edge ensures Follows(e, handle) <==> handle == "" || e.sourceHandle in {"", handle} {}
  }

  lemma AdvanceCompletes(d: Definition, s: State, id: string, value: Value, handle: string, s': State)
    requires s' == Advance(d, s, id, value, handle)
    ensures Completes(d, s, id, value, handle, s') && s'.loops == s.loops
  {
    var down, completed := Downstream(d, [id], handle), s.completed + [id];
    FrontierSet(s.current, id, down, completed);
    forall x
      ensures x in s'.current <==> x != id && (x in s.current || (x !in s.completed && LeadsTo(d, id, handle, x)))
    {
      LeadsDownstream(d, id, handle, x);
      assert x in s'.current <==> x in AsSet(s'.current);
    }
  }

  // ---- Positions in a list ----

  ghost predicate Rising(at: seq<nat>) {
    forall j, k :: 0 <= j < k < |at| ==> at[j] < at[k]
  }

  lemma RisingMore(from: nat, at: seq<nat>)
    requires Rising(at) && forall k :: 0 <= k < |at| ==> from < at[k]
    ensures Rising([from] + at)
  {
  }

  // ---- What a node takes from its incoming edges ----

  /** The edge at `p` enters the node from one that has put something out. */
  predicate Feeds(d: Definition, id: string, outputs: Outputs, p: nat) {
    p < |d.edges| && d.edges[p].target == id && d.edges[p].source in outputs
  }

  /** These are the feeding edges of a node, in the order of the definition, from the edge at `from` on. */
  ghost predicate FeedsAt(d: Definition, id: string, outputs: Outputs, from: nat, at: seq<nat>) {
    && (forall k :: 0 <= k < |at| ==> from <= at[k] && Feeds(d, id, outputs, at[k]))
    && Rising(at)
    && (forall p {:trigger p in at} :: from <= p && Feeds(d, id, outputs, p) ==> p in at)
  }

  lemma {:induction false} OutputsInOrder(d: Definition, id: string, outputs: Outputs, from: nat) returns (at: seq<nat>)
    requires from <= |d.edges|
    ensures FeedsAt(d, id, outputs, from, at)
    ensures Takes(d, outputs, at, OutputsAlong(EdgesInto(d.edges[from..], id), outputs))
    decreases |d.edges| - from
  {
    hide FeedsAt, Takes, EdgesInto, OutputsAlong;
    if from == |d.edges| {
      at := [];
      NothingFeeds(d, id, outputs);
    } else {
      var rest := OutputsInOrder(d, id, outputs, from + 1);
      at := if Feeds(d, id, outputs, from) then [from] + rest else rest;
      FeedsOneMore(d, id, outputs, from, rest, at);
      assert d.edges[from..][0] == d.edges[from] && d.edges[from..][1..] == d.edges[from + 1..];
      TakenOneMore(d, id, outputs, d.edges[from..]);
      TakesOneMore(d, id, outputs, from, rest, OutputsAlong(EdgesInto(d.edges[from + 1..], id), outputs));
    }
  }

  /** The outputs of the sources of these edges. */
  ghost predicate Takes(d: Definition, outputs: Outputs, at: seq<nat>, taken: seq<Output>) {
    && |taken| == |at|
    && forall k :: 0 <= k < |at| ==>
         at[k] < |d.edges| && d.edges[at[k]].source in outputs && taken[k] == outputs[d.edges[at[k]].source]
  }

  lemma NothingFeeds(d: Definition, id: string, outputs: Outputs)
    ensures FeedsAt(d, id, outputs, |d.edges|, [])
    ensures Takes(d, outputs, [], OutputsAlong(EdgesInto(d.edges[|d.edges|..], id), outputs))
  {
  }

  lemma TakesOneMore(d: Definition, id: string, outputs: Outputs, from: nat, rest: seq<nat>, taken: seq<Output>)
    requires from < |d.edges| && Takes(d, outputs, rest, taken)
    ensures Takes(d, outputs, if Feeds(d, id, outputs, from) then [from] + rest else rest,
                  (if Feeds(d, id, outputs, from) then [outputs[d.edges[from].source]] else []) + taken)
  {
  }

  lemma FeedsOneMore(d: Definition, id: string, outputs: Outputs, from: nat, rest: seq<nat>, at: seq<nat>)
    requires FeedsAt(d, id, outputs, from + 1, rest)
    requires at == if Feeds(d, id, outputs, from) then [from] + rest else rest
    ensures FeedsAt(d, id, outputs, from, at)
  {
    hide Feeds, Rising;
    RisingMore(from, rest);
    forall k | 0 <= k < |at| ensures from <= at[k] && Feeds(d, id, outputs, at[k]) {
      assert at[k] in rest || at[k] == from;
    }
    forall p | from <= p && Feeds(d, id, outputs, p) ensures p in at {
      assert p == from || p in rest;
    }
  }

  lemma TakenOneMore(d: Definition, id: string, outputs: Outputs, edges: seq<Edge>)
    requires edges != []
    ensures OutputsAlong(EdgesInto(edges, id), outputs)
            == (if edges[0].target == id && edges[0].source in outputs then [outputs[edges[0].source]] else [])
               + OutputsAlong(EdgesInto(edges[1..], id), outputs)
  {
    var into, rest := EdgesInto(edges, id), EdgesInto(edges[1..], id);
    if edges[0].target == id {
      assert into[0] == edges[0] && into[1..] == rest;
    } else {
      assert into == rest;
    }
  }

  /** One item per feeding edge, in the order of the edges, with the id and the result of its source. */
  ghost predicate ItemsFed(d: Definition, id: string, outputs: Outputs, items: seq<Item>) {
    exists at :: FeedsAt(d, id, outputs, 0, at) && |items| == |at|
                 && forall k :: 0 <= k < |at| ==>
                      var o := outputs[d.edges[at[k]].source]; items[k] == Item(o.nodeId, o.result)
  }

  ghost predicate ResultsFed(d: Definition, id: string, outputs: Outputs, results: seq<Value>) {
    exists at :: FeedsAt(d, id, outputs, 0, at) && |results| == |at|
                 && forall k :: 0 <= k < |at| ==> results[k] == outputs[d.edges[at[k]].source].result
  }

  lemma UpstreamIsFed(d: Definition, id: string, outputs: Outputs)
    requires id in NodeIds(d)
    ensures ItemsFed(d, id, outputs, UpstreamItems(UpstreamOutputs(d, id, outputs)))
    ensures ResultsFed(d, id, outputs, UpstreamResults(UpstreamOutputs(d, id, outputs)))
  {
    var at := OutputsInOrder(d, id, outputs, 0);
    assert d.edges[0..] == d.edges;
  }

  /** On every run an output carries the id of its node, so an item carries the id of its source. */
  ghost predicate Named(outputs: Outputs) {
    forall id :: id in outputs ==> outputs[id].nodeId == id
  }

  lemma ApplyKeepsNames(d: Definition, s: State, ch: Change)
    requires Named(s.outputs)
    ensures Named(Apply(d, s, ch).outputs)
  {
  }

  lemma {:induction false} OutputsAreNamed(d: Definition, lower: string -> string, w: World, moves: seq<Move>)
    requires Named(w.state.outputs)
    ensures Named(PlayAll(d, lower, w, moves).state.outputs)
    decreases |moves|
  {
    if moves != [] {
      var n := |moves| - 1;
      OutputsAreNamed(d, lower, w, moves[..n]);
      var before := PlayAll(d, lower, w, moves[..n]);
      if Allowed(before, moves[n]) {
        ApplyKeepsNames(d, before.state, Outcome(d, lower, before, moves[n]));
      }
    }
  }

  // ---- Loops ----

  /** The list without the nodes of a set, in the same order. */
  ghost predicate Keeps(list: seq<string>, drop: set<string>, list': seq<string>) {
    exists at :: KeptAt(list, drop, 0, list', at)
  }

  lemma {:induction false} WithoutKeeps(list: seq<string>, drop: set<string>, from: nat) returns (at: seq<nat>)
    requires from <= |list|
    ensures KeptAt(list, drop, from, Without(list[from..], drop), at)
    decreases |list| - from
  {
    hide KeptAt;
    if from == |list| {
      at := [];
      NothingKept(list, drop);
    } else {
      var rest := WithoutKeeps(list, drop, from + 1);
      at := if list[from] in drop then rest else [from] + rest;
      assert list[from..][1..] == list[from + 1..];
      KeptOneMore(list, drop, from, Without(list[from + 1..], drop), rest, Without(list[from..], drop), at);
    }
  }

  ghost predicate KeptAt(list: seq<string>, drop: set<string>, from: nat, list': seq<string>, at: seq<nat>) {
    && |list'| == |at|
    && (forall k :: 0 <= k < |at| ==> from <= at[k] < |list| && list[at[k]] !in drop && list'[k] == list[at[k]])
    && Rising(at)
    && (forall p {:trigger p in at} :: from <= p < |list| && list[p] !in drop ==> p in at)
  }

  lemma NothingKept(list: seq<string>, drop: set<string>)
    ensures KeptAt(list, drop, |list|, [], [])
  {
  }

  lemma KeptOneMore(list: seq<string>, drop: set<string>, from: nat, rest: seq<string>, at: seq<nat>,
                    list': seq<string>, at': seq<nat>)
    requires from < |list| && KeptAt(list, drop, from + 1, rest, at)
    requires if list[from] in drop then list' == rest && at' == at
             else list' == [list[from]] + rest && at' == [from] + at
    ensures KeptAt(list, drop, from, list', at')
  {
    hide Rising;
    RisingMore(from, at);
    forall p | from <= p < |list| && list[p] !in drop ensures p in at' {
      assert p == from || p in at;
    }
  }

  lemma KeepsAll(list: seq<string>, drop: set<string>)
    ensures Keeps(list, drop, Without(list, drop))
  {
    var at := WithoutKeeps(list, drop, 0);
    assert list[0..] == list;
  }

  /** The frontier when a pass begins: without the loop, unless it starts itself, and with the start nodes. */
  ghost predicate StartsUp(s: State, loop: string, it: LoopIter, s': State) {
    forall x :: x in s'.current <==> (x in s.current && x != loop) || x in it.starts
  }

  /** The state when a pass of the loop begins with this record. */
  ghost predicate PassBegins(s: State, loop: string, it: LoopIter, s': State) {
    && Keeps(s.completed, it.body, s'.completed)
    && (forall x :: x in s'.outputs <==> x in s.outputs && x !in it.body)
    && (forall x :: x in s'.outputs ==> s'.outputs[x] == s.outputs[x])
    && StartsUp(s, loop, it, s')
    && s'.loops == s.loops[loop := it] && s'.pending == None && s'.status == s.status
  }

  lemma BeginsPass(d: Definition, s: State, loop: string, it: LoopIter)
    ensures PassBegins(s, loop, it, Apply(d, s, BeginPass(loop, it)))
  {
    var s' := Apply(d, s, BeginPass(loop, it));
    KeepsAll(s.completed, it.body);
    var left := Without(Dedup(s.current), {loop});
    forall x ensures x in s'.current <==> (x in s.current && x != loop) || x in it.starts {
      assert x in s'.current <==> x in AsSet(left) + AsSet(it.starts);
      assert x in AsSet(left) <==> x in AsSet(s.current) && x != loop;
    }
  }

  /** The state when a loop ends with this record and for this reason: its exit edges are followed. */
  ghost predicate LoopEnds(d: Definition, s: State, loop: string, it: LoopIter, reason: ExitReason, s': State) {
    exists completed :: Keeps(s.completed, it.body, completed) && EndsWith(d, s, loop, it, reason, completed, s')
  }

  /** The same, when `completed` is what remains of the completed nodes. */
  ghost predicate EndsWith(d: Definition, s: State, loop: string, it: LoopIter, reason: ExitReason,
                           completed: seq<string>, s': State) {
    && s'.completed == completed + [loop]
    && (forall x :: x in s'.outputs <==> x == loop || (x in s.outputs && x !in it.body))
    && (forall x :: x in s'.outputs && x != loop ==> s'.outputs[x] == s.outputs[x])
    && s'.outputs[loop] == Output(loop, LoopSummary(it.iteration, reason, it.results))
    && (forall x :: x in s'.current <==>
          x != loop && (x in s.current || (x !in completed && LeadsTo(d, loop, "loop-exit", x))))
    && s'.loops == s.loops - {loop} && s'.pending == None
    && s'.status == if s'.current == [] then Completed else Running
  }

  lemma EndsLoop(d: Definition, s: State, loop: string, it: LoopIter, reason: ExitReason)
    ensures LoopEnds(d, s, loop, it, reason, Apply(d, s, EndLoop(loop, it, reason)))
  {
    hide Keeps, LeadsTo, Advance, Without;
    var closed := CloseLoop(s, loop, it.body);
    var s' := Apply(d, s, EndLoop(loop, it, reason));
    KeepsAll(s.completed, it.body);
    AdvanceCompletes(d, closed, loop, LoopSummary(it.iteration, reason, it.results), LOOP_EXIT, s');
    assert EndsWith(d, s, loop, it, reason, closed.completed, s');
  }

  // ---- What a call of the walker comes to: an action and a state ----

  ghost predicate NodeDone(d: Definition, s: State, id: string, value: Value, handle: string, action: Action,
                           s': State) {
    && Completes(d, s, id, value, handle, s') && s'.loops == s.loops
    && action == if s'.current == [] then WorkflowCompleted else NodeCompleted(id)
  }

  ghost predicate PassBegun(s: State, loop: string, it: LoopIter, action: Action, s': State) {
    PassBegins(s, loop, it, s') && action == PassStarted(loop, it.iteration)
  }

  ghost predicate LoopDone(d: Definition, s: State, loop: string, it: LoopIter, reason: ExitReason, action: Action,
                           s': State) {
    && LoopEnds(d, s, loop, it, reason, s')
    && action == if s'.current == [] then WorkflowCompleted else NodeCompleted(loop)
  }

  predicate Asked(s: State, decision: Decision, how: Action, action: Action, s': State) {
    s' == s.(pending := Some(decision)) && action == how
  }

  /** The node is left to others, or to the driver: nothing changes yet. */
  predicate LeftTo(s: State, how: Action, action: Action, s': State) {
    s' == s && action == how
  }

  predicate GivenUp(s: State, action: Action, s': State) {
    s' == s.(status := Failed) && action == WorkflowFailed
  }

  lemma FinishDoes(d: Definition, s: State, id: string, value: Value, handle: string)
    ensures var ch := Finish(id, value, handle); NodeDone(d, s, id, value, handle, ActionOf(d, s, ch), Apply(d, s, ch))
  {
    AdvanceCompletes(d, s, id, value, handle, Advance(d, s, id, value, handle));
  }

  lemma BeginDoes(d: Definition, s: State, loop: string, it: LoopIter)
    ensures var ch := BeginPass(loop, it); PassBegun(s, loop, it, ActionOf(d, s, ch), Apply(d, s, ch))
  {
    BeginsPass(d, s, loop, it);
  }

  lemma EndDoes(d: Definition, s: State, loop: string, it: LoopIter, reason: ExitReason)
    ensures var ch := EndLoop(loop, it, reason); LoopDone(d, s, loop, it, reason, ActionOf(d, s, ch), Apply(d, s, ch))
  {
    EndsLoop(d, s, loop, it, reason);
  }

  // ---- Loop nodes ----

  /** The record of a loop that is entered. */
  ghost predicate NewRecord(d: Definition, loop: string, it: LoopIter) {
    && it.iteration == 0 && it.results == [] && it.resolvedMax == None && it.body == Body(d, loop)
    && NoDup(it.starts) && forall x :: x in it.starts <==> LeadsTo(d, loop, "loop-start", x)
  }

  /** The record after one more pass, with what the body put out in it. */
  ghost predicate PassRecorded(it: LoopIter, outputs: Outputs, it': LoopIter) {
    && it'.iteration == it.iteration + 1
    && |it'.results| == |it.results| + 1 && it'.results[..|it.results|] == it.results
    && (var pass := it'.results[|it.results|];
        && pass.index == it.iteration
        && (forall x :: x in pass.bodyOutputs <==> x in it.body && x in outputs)
        && (forall x :: x in pass.bodyOutputs ==> pass.bodyOutputs[x] == outputs[x]))
    && it'.body == it.body && it'.starts == it.starts && it'.items == it.items && it'.resolvedMax == it.resolvedMax
    && it'.currentItem == if it'.iteration < |it.items| then Some(it.items[it'.iteration]) else it.currentItem
  }

  /** The items of the first feeding edge whose source put out a merge; none if there is no such edge. */
  ghost predicate MergeFed(d: Definition, id: string, outputs: Outputs, items: seq<Item>) {
    || (items == [] && forall p: nat :: Feeds(d, id, outputs, p) ==> !outputs[d.edges[p].source].result.Merged?)
    || exists p: nat :: Feeds(d, id, outputs, p) && outputs[d.edges[p].source].result == Merged(items)
                   && forall q: nat :: q < p && Feeds(d, id, outputs, q) ==> !outputs[d.edges[q].source].result.Merged?
  }

  /** An entered loop: a pass per merged item, a question how often to run, or the first pass. */
  ghost predicate LoopEntered(d: Definition, s: State, node: Node, action: Action, s': State) {
    match node.config.loopMode
    case ForEach =>
      exists items :: MergeFed(d, node.id, s.outputs, items)
                      && if items == [] then NodeDone(d, s, node.id, LoopSkipped, "loop-exit", action, s')
                         else exists it :: NewRecord(d, node.id, it) && it.items == items
                                           && it.currentItem == Some(items[0]) && PassBegun(s, node.id, it, action, s')
    case AskOrchestrator =>
      exists it :: NewRecord(d, node.id, it) && it.items == [] && it.currentItem == None
                   && Asked(s.(loops := s.loops[node.id := it]), Decision(node.id, CountDecision, [], 0), PromptAgent,
                            action, s')
    case Iterations =>
      exists it :: NewRecord(d, node.id, it) && it.items == [] && it.currentItem == None
                   && PassBegun(s, node.id, it, action, s')
  }

  /** The passes a loop makes if no stop condition is met: one per item, the number answered, or the one configured. */
  function Limit(config: Config, it: LoopIter): int {
    match config.loopMode
    case ForEach => |it.items|
    case _ => if it.resolvedMax.Some? then it.resolvedMax.value else config.maxIterations
  }

  predicate LimitName(mode: LoopMode, reason: ExitReason) {
    match mode
    case ForEach => reason.ForEachComplete?
    case AskOrchestrator => reason.OrchestratorCount?
    case Iterations => reason.MaxIterations?
  }

  /** A loop that comes up again: it ends at its limit, asks or looks whether to stop, or begins another pass. */
  ghost predicate LoopReentered(d: Definition, s: State, node: Node, stop: bool, action: Action, s': State)
    requires node.id in s.loops
  {
    var config := node.config;
    exists it :: PassRecorded(s.loops[node.id], s.outputs, it)
      && if it.iteration >= Limit(config, it) then
           exists reason :: LimitName(config.loopMode, reason) && LoopDone(d, s, node.id, it, reason, action, s')
         else if config.hasCondition && config.askModel then
           Asked(s.(loops := s.loops[node.id := it]), Decision(node.id, StopDecision, [], 0), PromptAgent, action, s')
         else if config.hasCondition && stop then LoopDone(d, s, node.id, it, ConditionMet, action, s')
         else PassBegun(s, node.id, it, action, s')
  }

  ghost predicate LoopDoes(d: Definition, s: State, node: Node, stop: bool, action: Action, s': State) {
    if forall x :: !LeadsTo(d, node.id, "loop-start", x)
    then NodeDone(d, s, node.id, LoopSkipped, "loop-exit", action, s')
    else if node.id !in s.loops then LoopEntered(d, s, node, action, s')
    else LoopReentered(d, s, node, stop, action, s')
  }

  lemma StartsAreLed(d: Definition, loop: string)
    ensures forall x :: x in Starts(d, loop) <==> LeadsTo(d, loop, LOOP_START, x)
    ensures Starts(d, loop) == [] <==> forall x :: !LeadsTo(d, loop, LOOP_START, x)
  {
    forall x ensures x in Starts(d, loop) <==> LeadsTo(d, loop, LOOP_START, x) {
      LeadsDownstream(d, loop, LOOP_START, x);
    }
    if Starts(d, loop) != [] {
      assert Starts(d, loop)[0] in Starts(d, loop);
    }
  }

  lemma NewIsRecord(d: Definition, loop: string, it: LoopIter)
    requires it.iteration == 0 && it.results == [] && it.resolvedMax == None && it.body == Body(d, loop)
    requires it.starts == Starts(d, loop)
    ensures NewRecord(d, loop, it)
  {
    StartsAreLed(d, loop);
  }

  lemma MergedIsFed(d: Definition, id: string, outputs: Outputs)
    requires id in NodeIds(d)
    ensures MergeFed(d, id, outputs, FirstMerged(UpstreamOutputs(d, id, outputs)))
  {
    var at := OutputsInOrder(d, id, outputs, 0);
    assert d.edges[0..] == d.edges;
    FirstOfTaken(d, id, outputs, at, UpstreamOutputs(d, id, outputs));
  }

  /** The first merge among what the feeding edges bring. */
  lemma FirstOfTaken(d: Definition, id: string, outputs: Outputs, at: seq<nat>, taken: seq<Output>)
    requires FeedsAt(d, id, outputs, 0, at) && Takes(d, outputs, at, taken)
    ensures MergeFed(d, id, outputs, FirstMerged(taken))
  {
    var k := FirstMergeAt(taken);
    if k == |taken| {
      forall p: nat | Feeds(d, id, outputs, p) ensures !outputs[d.edges[p].source].result.Merged? {
        assert p in at;
      }
    } else {
      forall q: nat | q < at[k] && Feeds(d, id, outputs, q) ensures !outputs[d.edges[q].source].result.Merged? {
        assert q in at;
      }
      assert Feeds(d, id, outputs, at[k]);
    }
  }

  lemma {:induction false} FirstMergeAt(taken: seq<Output>) returns (k: nat)
    ensures k <= |taken| && forall j :: 0 <= j < k ==> !taken[j].result.Merged?
    ensures k < |taken| ==> taken[k].result == Merged(FirstMerged(taken))
    ensures k == |taken| ==> FirstMerged(taken) == []
  {
    if taken == [] || taken[0].result.Merged? {
      k := 0;
    } else {
      var rest := FirstMergeAt(taken[1..]);
      k := rest + 1;
    }
  }

  lemma EnterDoes(d: Definition, s: State, node: Node)
    requires node.id in NodeIds(d)
    ensures var ch := EnterLoop(d, s, node, Body(d, node.id));
            LoopEntered(d, s, node, ActionOf(d, s, ch), Apply(d, s, ch))
  {
    var id, ch := node.id, EnterLoop(d, s, node, Body(d, node.id));
    var it := LoopIter(0, [], Body(d, id), Starts(d, id), [], None, None);
    var items := FirstMerged(UpstreamOutputs(d, id, s.outputs));
    match node.config.loopMode
    case ForEach =>
      MergedIsFed(d, id, s.outputs);
      if items == [] {
        FinishDoes(d, s, id, LoopSkipped, LOOP_EXIT);
      } else {
        NewIsRecord(d, id, it.(items := items, currentItem := Some(items[0])));
        BeginDoes(d, s, id, it.(items := items, currentItem := Some(items[0])));
      }
    case AskOrchestrator => NewIsRecord(d, id, it);
    case Iterations =>
      NewIsRecord(d, id, it);
      BeginDoes(d, s, id, it);
  }

  lemma FinishPassRecords(it: LoopIter, outputs: Outputs)
    ensures PassRecorded(it, outputs, FinishPass(it, outputs))
  {
  }

  lemma ReenterDoes(d: Definition, s: State, node: Node, stop: bool)
    requires node.id in s.loops
    ensures var ch := ReenterLoop(s, node, stop); LoopReentered(d, s, node, stop, ActionOf(d, s, ch), Apply(d, s, ch))
  {
    var it, ch := FinishPass(s.loops[node.id], s.outputs), ReenterLoop(s, node, stop);
    FinishPassRecords(s.loops[node.id], s.outputs);
    match ch
    case EndLoop(_, _, reason) => EndDoes(d, s, node.id, it, reason);
    case BeginPass(_, _) => BeginDoes(d, s, node.id, it);
    case _ =>
  }

  lemma HandleDoes(d: Definition, s: State, node: Node, stop: bool)
    requires node.id in NodeIds(d)
    ensures var ch := HandleLoop(d, s, node, Body(d, node.id), stop);
            LoopDoes(d, s, node, stop, ActionOf(d, s, ch), Apply(d, s, ch))
  {
    StartsAreLed(d, node.id);
    if Starts(d, node.id) == [] {
      FinishDoes(d, s, node.id, LoopSkipped, LOOP_EXIT);
    } else if node.id !in s.loops {
      EnterDoes(d, s, node);
    } else {
      ReenterDoes(d, s, node, stop);
    }
  }

  // ---- One ready node ----

  /** The routes of a question are those configured, told apart by their number. */
  predicate RoutesOf(labels: seq<string>, routes: seq<Routes.Route>) {
    && |routes| == |labels|
    && forall k :: 0 <= k < |labels| ==>
         routes[k].name == labels[k] && routes[k].handleId == "route-" + ToolIds.Decimal(k)
  }

  predicate InLoopBody(s: State, id: string) {
    exists l :: l in s.loops && id in s.loops[l].body
  }

  /** What becomes of a ready node, by its subtype. */
  ghost predicate NodeDoes(d: Definition, s: State, node: Node, stop: bool, action: Action, s': State) {
    var id := node.id;
    match node.subtype
    case Agent => LeftTo(s, SpawnSubAgent(id), action, s')
    case IntegrationCall => LeftTo(s, SpawnSubAgent(id), action, s')
    case ToolCall => LeftTo(s, ExecuteToolCall(id), action, s')
    case DesktopNotification => LeftTo(s, ExecuteToolCall(id), action, s')
    case Function => LeftTo(s, ExecuteFunction(id), action, s')
    case OrchestratorPrompt => LeftTo(s, PromptOrchestrator(id), action, s')
    case Wait => LeftTo(s, WaitFor(id), action, s')
    case Router =>
      if node.config.routes == [] then NodeDone(d, s, id, Text("no routes configured"), "", action, s')
      else exists routes :: RoutesOf(node.config.routes, routes)
                            && Asked(s, Decision(id, RouterDecision, routes, 0), PromptAgent, action, s')
    case Condition => Asked(s, Decision(id, ConditionDecision, [], 0), PromptAgent, action, s')
    case Response => Asked(s, Decision(id, ResponseDecision, [], 0), PromptAgent, action, s')
    case UserInput => Asked(s, Decision(id, InputDecision, [], 0), AwaitUserInput(id), action, s')
    case Merge =>
      exists items :: ItemsFed(d, id, s.outputs, items) && NodeDone(d, s, id, Merged(items), "", action, s')
    case Parallel =>
      exists results :: ResultsFed(d, id, s.outputs, results) && NodeDone(d, s, id, Collected(results), "", action, s')
    case Loop => LoopDoes(d, s, node, stop, action, s')
    case SubWorkflow =>
      if node.config.workflowId == "" then NodeDone(d, s, id, Text("No workflow ID configured"), "", action, s')
      else LeftTo(s, SpawnSubWorkflow(id), action, s')
    case Transfer =>
      if node.config.targetWorkflowId == "" then
        NodeDone(d, s, id, Text("No target workflow configured"), "", action, s')
      else if InLoopBody(s, id) || InsideParallelBranch(d, id) then GivenUp(s, action, s')
      else LeftTo(s, TransferWorkflow(id), action, s')
    case Other => NodeDone(d, s, id, Text(""), "", action, s')
  }

  lemma RoutesAreThose(labels: seq<string>)
    ensures RoutesOf(labels, DecisionRoutes(labels))
  {
  }

  lemma PlainDoes(d: Definition, s: State, node: Node, stop: bool, ch: Change)
    requires node.id in NodeIds(d) && node.subtype != Loop
    requires ch == ProcessNode(d, s, node, Body(d, node.id), stop, InsideParallelBranch(d, node.id))
    ensures NodeDoes(d, s, node, stop, ActionOf(d, s, ch), Apply(d, s, ch))
  {
    hide NodeDone, InsideParallelBranch, Body, ItemsFed, ResultsFed, RoutesOf, Advance, UpstreamOutputs, UpstreamItems,
         UpstreamResults, DecisionRoutes;
    UpstreamIsFed(d, node.id, s.outputs);
    RoutesAreThose(node.config.routes);
    if ch.Finish? { FinishDoes(d, s, ch.id, ch.value, ch.handle); }
  }

  lemma NodeDoesSo(d: Definition, s: State, node: Node, stop: bool, ch: Change)
    requires node.id in NodeIds(d)
    requires ch == ProcessNode(d, s, node, Body(d, node.id), stop, InsideParallelBranch(d, node.id))
    ensures NodeDoes(d, s, node, stop, ActionOf(d, s, ch), Apply(d, s, ch))
  {
    if node.subtype == Loop {
      HandleDoes(d, s, node, stop);
    } else {
      PlainDoes(d, s, node, stop, ch);
    }
  }

  // ---- The next step ----

  /** The node at `i` is the first of the frontier that is ready. */
  ghost predicate FirstReady(d: Definition, s: State, i: nat) {
    && i < |s.current| && Ready(d, s.current[i], s.completed, s.current[i] in s.loops)
    && forall j :: 0 <= j < i ==> !Ready(d, s.current[j], s.completed, s.current[j] in s.loops)
  }

  ghost predicate NoneReady(d: Definition, s: State) {
    forall id :: id in s.current ==> !Ready(d, id, s.completed, id in s.loops)
  }

  /** A ready child of a parallel node that an agent is spawned for. */
  ghost predicate InBatch(d: Definition, s: State, id: string) {
    && Ready(d, id, s.completed, id in s.loops) && (HasSubtype(d, id, Agent) || HasSubtype(d, id, IntegrationCall))
    && id in NodeIds(d) && exists e :: e in d.edges && e.target == id && HasSubtype(d, e.source, Parallel)
  }

  /** The members of the batch, in the order of the frontier. */
  ghost predicate IsBatch(d: Definition, s: State, ids: seq<string>) {
    exists at :: BatchAt(d, s, 0, ids, at)
  }

  ghost predicate BatchAt(d: Definition, s: State, from: nat, ids: seq<string>, at: seq<nat>) {
    && |ids| == |at|
    && (forall k :: 0 <= k < |at| ==> from <= at[k] < |s.current| && InBatch(d, s, s.current[at[k]])
                                      && ids[k] == s.current[at[k]])
    && Rising(at)
    && (forall p {:trigger p in at} :: from <= p < |s.current| && InBatch(d, s, s.current[p]) ==> p in at)
  }

  lemma BatchOneMore(d: Definition, s: State, from: nat, rest: seq<string>, at: seq<nat>, ids: seq<string>,
                     at': seq<nat>)
    requires from < |s.current| && BatchAt(d, s, from + 1, rest, at)
    requires if InBatch(d, s, s.current[from]) then ids == [s.current[from]] + rest && at' == [from] + at
             else ids == rest && at' == at
    ensures BatchAt(d, s, from, ids, at')
  {
    hide InBatch, Ready, Rising;
    RisingMore(from, at);
    forall p | from <= p < |s.current| && InBatch(d, s, s.current[p]) ensures p in at' {
      assert p == from || p in at;
    }
  }

  lemma NothingInBatch(d: Definition, s: State)
    ensures BatchAt(d, s, |s.current|, [], [])
  {
  }

  lemma {:induction false} BatchInOrder(d: Definition, s: State, from: nat) returns (at: seq<nat>)
    requires from <= |s.current|
    ensures BatchAt(d, s, from, Batch(d, ReadyNodes(d, s, s.current[from..])), at)
    decreases |s.current| - from
  {
    hide BatchAt, InBatch, Ready;
    if from == |s.current| {
      at := [];
      NothingInBatch(d, s);
    } else {
      var rest := BatchInOrder(d, s, from + 1);
      at := if InBatch(d, s, s.current[from]) then [from] + rest else rest;
      assert s.current[from..][1..] == s.current[from + 1..];
      BatchOfMore(d, s, s.current[from..]);
      BatchOneMore(d, s, from, Batch(d, ReadyNodes(d, s, s.current[from + 1..])), rest,
                   Batch(d, ReadyNodes(d, s, s.current[from..])), at);
    }
  }

  lemma BatchOfMore(d: Definition, s: State, ids: seq<string>)
    requires ids != []
    ensures var rest := Batch(d, ReadyNodes(d, s, ids[1..]));
            Batch(d, ReadyNodes(d, s, ids)) == if InBatch(d, s, ids[0]) then [ids[0]] + rest else rest
  {
    var id := ids[0];
    ParallelParent(d, id);
    if Ready(d, id, s.completed, id in s.loops) {
      var ready := ReadyNodes(d, s, ids);
      assert ready[0] == id && ready[1..] == ReadyNodes(d, s, ids[1..]);
    }
  }

  lemma ParallelParent(d: Definition, id: string)
    ensures HasParallelParent(d, id) <==>
              id in NodeIds(d) && exists e :: e in d.edges && e.target == id && HasSubtype(d, e.source, Parallel)
  {
  }

  lemma {:induction false} FirstOfReady(d: Definition, s: State, from: nat) returns (i: nat)
    requires from <= |s.current|
    ensures from <= i <= |s.current|
    ensures forall j :: from <= j < i ==> !Ready(d, s.current[j], s.completed, s.current[j] in s.loops)
    ensures var ready := ReadyNodes(d, s, s.current[from..]);
            if i < |s.current| then
              ready != [] && ready[0] == s.current[i] && Ready(d, s.current[i], s.completed, s.current[i] in s.loops)
            else ready == []
    decreases |s.current| - from
  {
    hide Ready;
    if from == |s.current| || Ready(d, s.current[from], s.completed, s.current[from] in s.loops) {
      i := from;
    } else {
      i := FirstOfReady(d, s, from + 1);
      assert s.current[from..][1..] == s.current[from + 1..];
    }
  }

  /**
   * The next step. A run that is over stays so, and an open question is asked again. If no node of
   * the frontier is ready, the walker waits for the sources that are missing or closes the run.
   * Two or more members of the batch are spawned together; else the first ready node has its turn.
   */
  ghost predicate StepDoes(d: Definition, s: State, stop: bool, action: Action, s': State) {
    if s.status != Running then LeftTo(s, WorkflowCompleted, action, s')
    else if s.pending.Some? then LeftTo(s, PromptAgent, action, s')
    else if NoneReady(d, s) then Idles(d, s, action, s')
    else
      exists ids :: IsBatch(d, s, ids)
                    && if |ids| > 1 then LeftTo(s, SpawnParallelAgents(ids), action, s')
                       else FirstTakesTurn(d, s, stop, action, s')
  }

  ghost predicate FirstTakesTurn(d: Definition, s: State, stop: bool, action: Action, s': State) {
    exists i: nat :: FirstReady(d, s, i) && TakesTurn(d, s, s.current[i], stop, action, s')
  }

  ghost predicate TakesTurn(d: Definition, s: State, id: string, stop: bool, action: Action, s': State) {
    match GetNode(d, id)
    case None => GivenUp(s, action, s')
    case Some(node) => node.id == id && node in d.nodes && NodeDoes(d, s, node, stop, action, s')
  }

  /** A source that has not completed stands before a node of the frontier. */
  predicate IsMissing(d: Definition, s: State, x: string) {
    exists e :: e in d.edges && e.target in s.current && e.target in NodeIds(d) && e.source == x && x !in s.completed
  }

  ghost predicate Idles(d: Definition, s: State, action: Action, s': State) {
    if exists x :: IsMissing(d, s, x) then
      s' == s && action.WaitingForSubAgents? && action.blocked == s.current
      && forall x :: x in action.missing <==> IsMissing(d, s, x)
    else s' == s.(status := Completed, current := []) && action == WorkflowCompleted
  }

  lemma MissingIsMissing(d: Definition, s: State)
    ensures forall x :: x in Missing(d, s.current, s.completed) <==> IsMissing(d, s, x)
    ensures Missing(d, s.current, s.completed) != {} <==> exists x :: IsMissing(d, s, x)
  {
    var missing := Missing(d, s.current, s.completed);
    if missing != {} {
      var x :| x in missing;
    }
  }

  lemma IdleDoes(d: Definition, s: State, ch: Change)
    requires var missing := Missing(d, s.current, s.completed);
             ch == if missing != {} then Stay(WaitingForSubAgents(s.current, missing)) else CloseRun
    ensures Idles(d, s, ActionOf(d, s, ch), Apply(d, s, ch))
  {
    hide IsMissing, Missing;
    MissingIsMissing(d, s);
  }

  lemma FirstDoes(d: Definition, s: State, id: string, stop: bool, ch: Change)
    requires ch == ProcessFirst(d, s, id, stop)
    ensures TakesTurn(d, s, id, stop, ActionOf(d, s, ch), Apply(d, s, ch))
  {
    hide NodeDoes, ProcessNode, Body, InsideParallelBranch;
    var node := GetNode(d, id);
    if node.Some? {
      NodeDoesSo(d, s, node.value, stop, ch);
    }
  }

  /** What the walker's step does, whatever the definition and the state are. */
  lemma NextStepExactly(d: Definition, s: State, stop: bool)
    ensures var ch := NextStep(d, s, stop); StepDoes(d, s, stop, ActionOf(d, s, ch), Apply(d, s, ch))
  {
    hide TakesTurn, Idles, ProcessFirst, Batch, Missing;
    if s.status == Running && s.pending.None? {
      var ch, ready := NextStep(d, s, stop), ReadyNodes(d, s, s.current);
      NextCases(d, s, stop);
      var i := FirstOfReady(d, s, 0);
      var at := BatchInOrder(d, s, 0);
      assert s.current[0..] == s.current;
      if ready == [] {
        IdleDoes(d, s, ch);
      } else {
        assert IsBatch(d, s, Batch(d, ready)) && FirstReady(d, s, i) && !NoneReady(d, s);
        if |Batch(d, ready)| <= 1 {
          FirstDoes(d, s, s.current[i], stop, ch);
          assert FirstTakesTurn(d, s, stop, ActionOf(d, s, ch), Apply(d, s, ch));
        }
      }
    }
  }

  // ---- Completions and fresh states ----

  /** A node that was handed out and is completed follows all its edges. */
  lemma CompletionExactly(d: Definition, s: State, id: string, value: Value)
    ensures var ch := CompleteSubAgent(d, id, value);
            var action, s' := ActionOf(d, s, ch), Apply(d, s, ch);
            if id in NodeIds(d) then NodeDone(d, s, id, value, "", action, s')
            else LeftTo(s, WorkflowFailed, action, s')
  {
    FinishDoes(d, s, id, value, "");
  }

  /** The triggers, in the order of the nodes. */
  ghost predicate TriggersAt(nodes: seq<Node>, from: nat, ids: seq<string>, at: seq<nat>) {
    && |ids| == |at|
    && (forall k :: 0 <= k < |at| ==> from <= at[k] < |nodes| && nodes[at[k]].isTrigger && ids[k] == nodes[at[k]].id)
    && Rising(at)
    && (forall p {:trigger p in at} :: from <= p < |nodes| && nodes[p].isTrigger ==> p in at)
  }

  lemma {:induction false} TriggersInOrder(nodes: seq<Node>, from: nat) returns (at: seq<nat>)
    requires from <= |nodes|
    ensures TriggersAt(nodes, from, TriggerIds(nodes[from..]), at)
    decreases |nodes| - from
  {
    hide TriggersAt;
    if from == |nodes| {
      at := [];
      NoTriggers(nodes);
    } else {
      var rest := TriggersInOrder(nodes, from + 1);
      at := if nodes[from].isTrigger then [from] + rest else rest;
      assert nodes[from..][1..] == nodes[from + 1..];
      assert [] + TriggerIds(nodes[from + 1..]) == TriggerIds(nodes[from + 1..]);
      TriggersOneMore(nodes, from, TriggerIds(nodes[from + 1..]), rest, TriggerIds(nodes[from..]), at);
    }
  }

  lemma NoTriggers(nodes: seq<Node>)
    ensures TriggersAt(nodes, |nodes|, [], [])
  {
  }

  lemma TriggersOneMore(nodes: seq<Node>, from: nat, rest: seq<string>, at: seq<nat>, ids: seq<string>, at': seq<nat>)
    requires from < |nodes| && TriggersAt(nodes, from + 1, rest, at)
    requires if nodes[from].isTrigger then ids == [nodes[from].id] + rest && at' == [from] + at
             else ids == rest && at' == at
    ensures TriggersAt(nodes, from, ids, at')
  {
    hide Rising;
    RisingMore(from, at);
    forall p | from <= p < |nodes| && nodes[p].isTrigger ensures p in at' {
      assert p == from || p in at;
    }
  }

  /** The state in which a workflow starts: its triggers have put out the payload and their edges were followed. */
  ghost predicate Started(d: Definition, payload: string, s: State) {
    && (exists at :: TriggersAt(d.nodes, 0, s.completed, at))
    && (forall x :: x in s.outputs <==> x in s.completed)
    && (forall x :: x in s.outputs ==> s.outputs[x] == Output(x, Text(payload)))
    && NoDup(s.current)
    && (forall x :: x in s.current <==> exists e :: e in d.edges && e.source in s.completed && e.target == x)
    && s.status == Running && s.pending == None && s.loops == map[]
  }

  /** A workflow can be started exactly when it has a trigger. */
  lemma FreshStateIsStarted(d: Definition, payload: string)
    ensures CreateState(d, payload).Some? <==> exists n :: n in d.nodes && n.isTrigger
    ensures CreateState(d, payload).Some? ==> Started(d, payload, CreateState(d, payload).value)
  {
    hide TriggersAt, TriggerIds, Downstream;
    var triggers := TriggerIds(d.nodes);
    var at := TriggersInOrder(d.nodes, 0);
    assert d.nodes[0..] == d.nodes;
    SomeTrigger(d);
    forall x ensures x in Downstream(d, triggers, "") <==>
                       exists e :: e in d.edges && e.source in triggers && e.target == x {
      DownstreamOfTriggers(d, x);
    }
  }

  lemma SomeTrigger(d: Definition)
    ensures TriggerIds(d.nodes) != [] <==> exists n :: n in d.nodes && n.isTrigger
  {
    var triggers := TriggerIds(d.nodes);
    if n :| n in d.nodes && n.isTrigger {
      assert n.id in triggers;
    }
    if triggers != [] {
      assert triggers[0] in triggers;
    }
  }

  lemma DownstreamOfTriggers(d: Definition, x: string)
    ensures var triggers := TriggerIds(d.nodes);
            x in Downstream(d, triggers, "") <==> exists e :: e in d.edges && e.source in triggers && e.target == x
  {
    DownstreamOfMany(d, TriggerIds(d.nodes), "", x);
  }
}
