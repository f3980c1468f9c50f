/**
 * The walker's graph searches as they run: queues and visited sets. Each is proved to compute
 * what the transitions of the playbook model use.
 */
module PlaybookSearch {
  import opened Wrappers
  import opened Graphs
  import opened Playbook
  import opened PlaybookRuns

  // ---- What every search keeps ----

  ghost predicate ReachedFrom(es: Edges, starts: set<string>, x: string) {
    exists s :: s in starts && Reaches(es, s, x)
  }

  /** `known` are the nodes seen so far, `visited` those among them that were expanded. */
  ghost predicate Searching(es: Edges, starts: set<string>, visited: set<string>, known: set<string>) {
    && starts + visited <= known
    && (forall x {:trigger ReachedFrom(es, starts, x)} :: x in known ==> ReachedFrom(es, starts, x))
    && (forall x, y :: x in visited && (x, y) in es ==> y in known)
  }

  ghost predicate Successors(es: Edges, x: string, next: set<string>) {
    forall y :: y in next <==> (x, y) in es
  }

  lemma SearchStart(es: Edges, starts: set<string>)
    ensures Searching(es, starts, {}, starts)
  {
    forall x | x in starts ensures ReachedFrom(es, starts, x) {
      ReachesSelf(es, x);
    }
  }

  lemma SearchStep(es: Edges, starts: set<string>, visited: set<string>, known: set<string>, x: string,
                   next: set<string>)
    requires Searching(es, starts, visited, known) && x in known && Successors(es, x, next)
    ensures Searching(es, starts, visited + {x}, known + next)
  {
    assert ReachedFrom(es, starts, x);
    var s :| s in starts && Reaches(es, s, x);
    forall y | y in next ensures ReachedFrom(es, starts, y) {
      ReachesStep(es, s, x, y);
    }
  }

  lemma SearchDone(es: Edges, starts: set<string>, visited: set<string>)
    requires Searching(es, starts, visited, visited)
    ensures forall x :: x in visited <==> ReachedFrom(es, starts, x)
  {
    forall x | ReachedFrom(es, starts, x) ensures x in visited {
      var s :| s in starts && Reaches(es, s, x);
      var p :| IsPath(es, p) && p[0] == s && p[|p| - 1] == x;
      ClosedForward(es, visited, p);
    }
  }

  /** A breadth-first search with its queue; entries of the queue may be there twice or be visited already. */
  ghost predicate Queued(es: Edges, starts: set<string>, all: set<string>, visited: set<string>, queue: seq<string>) {
    && visited + AsSet(queue) <= all
    && Searching(es, starts, visited, visited + AsSet(queue))
  }

  lemma Popped(queue: seq<string>)
    requires queue != []
    ensures AsSet(queue) == AsSet(queue[1..]) + {queue[0]}
  {
    assert queue == [queue[0]] + queue[1..];
  }

  lemma SkipVisited(es: Edges, starts: set<string>, all: set<string>, visited: set<string>, queue: seq<string>)
    requires queue != [] && Queued(es, starts, all, visited, queue)
    ensures queue[0] in all
    ensures queue[0] in visited ==> Queued(es, starts, all, visited, queue[1..])
  {
    Popped(queue);
    if queue[0] in visited {
      assert visited + AsSet(queue[1..]) == visited + AsSet(queue);
    }
  }

  lemma Expand(es: Edges, starts: set<string>, all: set<string>, visited: set<string>, queue: seq<string>,
               next: set<string>, longer: seq<string>)
    requires queue != [] && Queued(es, starts, all, visited, queue)
    requires Successors(es, queue[0], next) && next <= all
    requires AsSet(queue[1..]) + (next - visited - {queue[0]}) <= AsSet(longer) <= AsSet(queue[1..]) + next
    ensures Queued(es, starts, all, visited + {queue[0]}, longer)
  {
    Popped(queue);
    SearchStep(es, starts, visited, visited + AsSet(queue), queue[0], next);
    assert (visited + {queue[0]}) + AsSet(longer) == visited + AsSet(queue) + next;
  }

  lemma Exhausted(es: Edges, starts: set<string>, all: set<string>, visited: set<string>)
    requires Queued(es, starts, all, visited, [])
    ensures visited <= all && forall x :: x in visited <==> ReachedFrom(es, starts, x)
  {
    assert visited + AsSet([]) == visited;
    SearchDone(es, starts, visited);
  }

  // ---- Back edges ----

  function HeadsOf(edges: seq<Edge>): set<string> {
    set e | e in edges :: e.target
  }

  function TailsOf(edges: seq<Edge>): set<string> {
    set e | e in edges :: e.source
  }

  lemma ForwardSuccessors(d: Definition, x: string)
    ensures Successors(ForwardGraph(d), x, HeadsOf(Outgoing(d, x))) && HeadsOf(Outgoing(d, x)) <= Names(d)
  {
  }

  /** Pushes the heads of the edges that are not in `skip`. */
  method PushHeads(queue: seq<string>, edges: seq<Edge>, skip: set<string>) returns (longer: seq<string>)
    ensures AsSet(longer) == AsSet(queue) + (HeadsOf(edges) - skip)
  {
    longer := queue;
    for i := 0 to |edges|
      invariant AsSet(longer) == AsSet(queue) + (HeadsOf(edges[..i]) - skip)
    {
      assert edges[..i + 1] == edges[..i] + [edges[i]];
      assert HeadsOf(edges[..i + 1]) == HeadsOf(edges[..i]) + {edges[i].target};
      if edges[i].target !in skip {
        assert AsSet(longer + [edges[i].target]) == AsSet(longer) + {edges[i].target};
        longer := longer + [edges[i].target];
      }
    }
    assert edges[..|edges|] == edges;
  }

  /** Forward search from the edge's head; true when it meets the edge's tail. */
  method IsBackEdge(d: Definition, source: string, target: string) returns (found: bool)
    ensures found == Playbook.IsBackEdge(d, source, target)
  {
    var visited: set<string> := {};
    var queue := [target];
    ghost var es, all := ForwardGraph(d), Names(d) + {target};
    SearchStart(es, {target});
    assert Queued(es, {target}, all, visited, queue);
    while queue != []
      invariant Queued(es, {target}, all, visited, queue) && source !in visited
      decreases all - visited, |queue|
    {
      var current := queue[0];
      SkipVisited(es, {target}, all, visited, queue);
      if current == source {
        assert ReachedFrom(es, {target}, current);
        return true;
      }
      if current in visited {
        queue := queue[1..];
        continue;
      }
      ForwardSuccessors(d, current);
      var longer := PushHeads(queue[1..], Outgoing(d, current), {});
      Expand(es, {target}, all, visited, queue, HeadsOf(Outgoing(d, current)), longer);
      queue := longer;
      visited := visited + {current};
    }
    Exhausted(es, {target}, all, visited);
    return false;
  }

  // ---- Loop bodies ----

  lemma BodySuccessors(d: Definition, loop: string, x: string)
    requires x != loop
    ensures Successors(BodyGraph(d, loop), x, HeadsOf(Outgoing(d, x)) - {loop}) && HeadsOf(Outgoing(d, x)) <= Names(d)
  {
  }

  lemma BodyIsReached(d: Definition, loop: string, visited: set<string>)
    requires forall x :: x in visited <==> ReachedFrom(BodyGraph(d, loop), AsSet(Starts(d, loop)) - {loop}, x)
    requires visited <= Names(d) - {loop}
    ensures visited == Body(d, loop)
  {
    forall x ensures x in visited <==> x in Body(d, loop) {
      if x in visited {
        var s :| s in AsSet(Starts(d, loop)) - {loop} && Reaches(BodyGraph(d, loop), s, x);
        assert s in Starts(d, loop);
        assert InBody(d, loop, x);
      }
      if InBody(d, loop, x) {
        var s :| s in Starts(d, loop) && s != loop && Reaches(BodyGraph(d, loop), s, x);
        assert ReachedFrom(BodyGraph(d, loop), AsSet(Starts(d, loop)) - {loop}, x);
      }
    }
  }

  lemma StartsAreNames(d: Definition, loop: string)
    ensures AsSet(Starts(d, loop)) <= Names(d)
  {
    forall x | x in Starts(d, loop) ensures x in Names(d) {
      DownstreamOfMany(d, [loop], LOOP_START, x);
    }
  }

  /** Forward search from the loop's start nodes that never expands the loop node. */
  method CollectLoopBody(d: Definition, loop: string) returns (visited: set<string>)
    ensures visited == Body(d, loop)
  {
    visited := {};
    var queue := Starts(d, loop);
    ghost var es, starts := BodyGraph(d, loop), AsSet(Starts(d, loop)) - {loop};
    SearchStart(es, starts);
    StartsAreNames(d, loop);
    assert visited + (AsSet(queue) - {loop}) == starts;
    while queue != []
      invariant AsSet(queue) + visited <= Names(d) && loop !in visited
      invariant Searching(es, starts, visited, visited + (AsSet(queue) - {loop}))
      decreases Names(d) - visited, |queue|
    {
      Popped(queue);
      var current := queue[0];
      queue := queue[1..];
      if current in visited || current == loop {
        assert visited + (AsSet(queue) - {loop}) == visited + (AsSet(queue) + {current} - {loop});
        continue;
      }
      BodySuccessors(d, loop, current);
      ghost var rest, heads := AsSet(queue), HeadsOf(Outgoing(d, current));
      SearchStep(es, starts, visited, visited + (rest + {current} - {loop}), current, heads - {loop});
      queue := PushHeads(queue, Outgoing(d, current), visited + {current});
      assert (visited + {current}) + (AsSet(queue) - {loop})
             == visited + (rest + {current} - {loop}) + (heads - {loop});
      visited := visited + {current};
    }
    assert visited + (AsSet(queue) - {loop}) == visited;
    SearchDone(es, starts, visited);
    BodyIsReached(d, loop, visited);
  }

  // ---- Parallel branches ----

  /** Pushes the tails of the edges that are not in `skip`. */
  method PushTails(queue: seq<string>, edges: seq<Edge>, skip: set<string>) returns (longer: seq<string>)
    ensures AsSet(longer) == AsSet(queue) + (TailsOf(edges) - skip)
  {
    longer := queue;
    for i := 0 to |edges|
      invariant AsSet(longer) == AsSet(queue) + (TailsOf(edges[..i]) - skip)
    {
      assert edges[..i + 1] == edges[..i] + [edges[i]];
      assert TailsOf(edges[..i + 1]) == TailsOf(edges[..i]) + {edges[i].source};
      if edges[i].source !in skip {
        assert AsSet(longer + [edges[i].source]) == AsSet(longer) + {edges[i].source};
        longer := longer + [edges[i].source];
      }
    }
    assert edges[..|edges|] == edges;
  }

  /** Where the backward search goes on from a node. */
  function BranchTails(d: Definition, x: string): set<string> {
    if GetNode(d, x).None? || HasSubtype(d, x, Merge) then {} else TailsOf(Incoming(d, x))
  }

  lemma BranchSuccessors(d: Definition, x: string)
    ensures Successors(BranchGraph(d), x, BranchTails(d, x)) && BranchTails(d, x) <= Names(d)
  {
  }

  /** Backward search that stops at merge nodes; true when it meets a parallel node. */
  method IsInsideParallelBranch(d: Definition, id: string) returns (inside: bool)
    ensures inside == InsideParallelBranch(d, id)
  {
    var visited: set<string> := {};
    var queue := [id];
    ghost var es, all := BranchGraph(d), Names(d) + {id};
    SearchStart(es, {id});
    assert Queued(es, {id}, all, visited, queue);
    while queue != []
      invariant Queued(es, {id}, all, visited, queue)
      invariant forall p :: p in visited ==> !HasSubtype(d, p, Parallel)
      decreases all - visited, |queue|
    {
      var current := queue[0];
      SkipVisited(es, {id}, all, visited, queue);
      if current in visited {
        queue := queue[1..];
        continue;
      }
      BranchSuccessors(d, current);
      var node := GetNode(d, current);
      var longer := queue[1..];
      if node.Some? {
        if node.value.subtype == Parallel {
          assert ReachedFrom(es, {id}, current);
          return true;
        }
        if node.value.subtype != Merge {
          longer := PushTails(longer, Incoming(d, current), visited + {current});
        }
      }
      Expand(es, {id}, all, visited, queue, BranchTails(d, current), longer);
      queue := longer;
      visited := visited + {current};
    }
    Exhausted(es, {id}, all, visited);
    return false;
  }

  // ---- Readiness ----

  /** A loop node waits along its entry before it started, and along all but its entry after that. */
  method IsLoopFed(edges: seq<Edge>, completed: seq<string>, started: bool) returns (complete: bool)
    ensures complete == LoopReady(edges, completed, started)
  {
    for i := 0 to |edges|
      invariant LoopReady(edges[..i], completed, started)
    {
      var e := edges[i];
      assert edges[..i + 1] == edges[..i] + [e];
      if !(!started && e.targetHandle == LOOP_BACK) && !(started && e.targetHandle == LOOP_ENTRY)
        && e.source !in completed {
        assert !LoopReady(edges, completed, started);
        return false;
      }
    }
    assert edges[..|edges|] == edges;
    return true;
  }

  /** Along each edge the source is completed, or the edge feeds back. */
  ghost predicate NothingWaits(d: Definition, id: string, edges: seq<Edge>, completed: seq<string>) {
    forall e {:trigger e in edges} :: e in edges ==> e.source in completed || Playbook.IsBackEdge(d, e.source, id)
  }

  method IsFed(d: Definition, id: string, edges: seq<Edge>, completed: seq<string>) returns (complete: bool)
    ensures complete == NothingWaits(d, id, edges, completed)
  {
    for i := 0 to |edges|
      invariant NothingWaits(d, id, edges[..i], completed)
    {
      assert edges[..i + 1] == edges[..i] + [edges[i]];
      if edges[i].source !in completed {
        var back := IsBackEdge(d, edges[i].source, id);
        if !back {
          assert edges[i] in edges;
          return false;
        }
      }
    }
    assert edges[..|edges|] == edges;
    return true;
  }

  /**
   * Readiness of a frontier node. `started` says whether the node has loop state. Edges that feed
   * back from a node that is not completed yet do not count.
   */
  method AreUpstreamComplete(d: Definition, id: string, completed: seq<string>, started: bool) returns (complete: bool)
    ensures complete == Ready(d, id, completed, started)
  {
    var edges := Incoming(d, id);
    if edges == [] {
      return true;
    }
    if HasSubtype(d, id, Loop) {
      complete := IsLoopFed(edges, completed, started);
    } else if AllFromTriggers(d, edges) {
      complete := exists e :: e in edges && e.source in completed;
    } else {
      complete := IsFed(d, id, edges, completed);
    }
  }

  // ---- The next step ----

  method FilterReady(d: Definition, s: State) returns (ready: seq<string>)
    ensures ready == ReadyNodes(d, s, s.current)
  {
    ready := [];
    for i := 0 to |s.current|
      invariant ready == ReadyNodes(d, s, s.current[..i])
    {
      var complete := AreUpstreamComplete(d, s.current[i], s.completed, s.current[i] in s.loops);
      ReadyOneMore(d, s, s.current[..i], s.current[i]);
      assert s.current[..i + 1] == s.current[..i] + [s.current[i]];
      if complete {
        ready := ready + [s.current[i]];
      }
    }
    assert s.current[..|s.current|] == s.current;
  }

  lemma {:induction false} ReadyOneMore(d: Definition, s: State, ids: seq<string>, id: string)
    ensures ReadyNodes(d, s, ids + [id])
         == ReadyNodes(d, s, ids) + (if Ready(d, id, s.completed, id in s.loops) then [id] else [])
    decreases |ids|
  {
    if ids == [] {
      assert ids + [id] == [id] && [id][1..] == [];
    } else {
      assert (ids + [id])[0] == ids[0] && (ids + [id])[1..] == ids[1..] + [id];
      ReadyOneMore(d, s, ids[1..], id);
    }
  }

  /** `processNextStep`: the loop body and the parallel branch are searched for only where they matter. */
  method ProcessNextStep(d: Definition, s: State, stop: bool) returns (action: Action, updated: State)
    ensures action == ActionOf(d, s, NextStep(d, s, stop)) && updated == Apply(d, s, NextStep(d, s, stop))
  {
    var change := ChooseChange(d, s, stop);
    return ActionOf(d, s, change), Apply(d, s, change);
  }

  method ChooseChange(d: Definition, s: State, stop: bool) returns (change: Change)
    ensures change == NextStep(d, s, stop)
  {
    if s.status != Running {
      return Stay(WorkflowCompleted);
    }
    if s.pending.Some? {
      return Stay(PromptAgent);
    }
    var ready := FilterReady(d, s);
    if ready == [] {
      var missing := Missing(d, s.current, s.completed);
      return if missing != {} then Stay(WaitingForSubAgents(s.current, missing)) else CloseRun;
    }
    var batch := Batch(d, ready);
    if |batch| > 1 {
      return Stay(SpawnParallelAgents(batch));
    }
    change := ChooseFor(d, s, ready[0], stop);
  }

  method ChooseFor(d: Definition, s: State, id: string, stop: bool) returns (change: Change)
    ensures change == ProcessFirst(d, s, id, stop)
  {
    var node := GetNode(d, id);
    if node.None? {
      return Refuse;
    }
    var body: set<string> := {};
    var inside := false;
    if node.value.subtype == Loop {
      body := CollectLoopBody(d, id);
    } else if node.value.subtype == Transfer {
      inside := IsInsideParallelBranch(d, id);
    }
    return ProcessNode(d, s, node.value, body, stop, inside);
  }

  // ---- Starting in the middle ----

  lemma ReverseStep(d: Definition, start: string, x: string, e: Edge)
    requires e in Incoming(d, x) && Reaches(ReverseGraph(d), x, start)
    ensures Reaches(ReverseGraph(d), e.source, start)
  {
    StepReaches(ReverseGraph(d), e.source, x, start);
  }

  /**
   * What is known of the search backwards: all of `found` lead to `start`, and what leads to an
   * expanded node is found.
   */
  ghost predicate Ancestry(d: Definition, start: string, found: set<string>, queue: set<string>) {
    && start !in found && queue <= found + {start} && found <= Names(d)
    && (forall x {:trigger Reaches(ReverseGraph(d), x, start)} :: x in found ==> Reaches(ReverseGraph(d), x, start))
    && (forall x, y :: y in found + {start} - queue && (x, y) in ReverseGraph(d) ==> x in found + {start})
  }

  lemma AncestryDone(d: Definition, start: string, found: set<string>)
    requires Ancestry(d, start, found, {})
    ensures found * NodeIds(d) == Ancestors(d, start)
  {
    forall x | x in Ancestors(d, start) ensures x in found {
      var p :| IsPath(ReverseGraph(d), p) && p[0] == x && p[|p| - 1] == start;
      ClosedBackward(ReverseGraph(d), found, start, p);
    }
    forall x | x in found * NodeIds(d) ensures x in Ancestors(d, start) {
      assert Reaches(ReverseGraph(d), x, start);
    }
  }

  lemma AncestryStep(d: Definition, start: string, found: set<string>, queue: set<string>, x: string,
                     added: set<string>)
    requires Ancestry(d, start, found, queue + {x})
    requires added == TailsOf(Incoming(d, x)) - found - {start}
    ensures Ancestry(d, start, found + added, queue + added)
  {
    ReachesSelf(ReverseGraph(d), start);
    forall y | y in added ensures Reaches(ReverseGraph(d), y, start) {
      var e :| e in Incoming(d, x) && e.source == y;
      assert x == start || Reaches(ReverseGraph(d), x, start);
      ReverseStep(d, start, x, e);
    }
    forall a, b | b in found + added + {start} - (queue + added) && (a, b) in ReverseGraph(d)
      ensures a in found + added + {start}
    {
      if b == x {
        var e :| e in d.edges && e.target in NodeIds(d) && (e.source, e.target) == (a, b);
        assert e in Incoming(d, x);
      }
    }
  }

  /** One expansion of the backward search: the tails that are new are found and queued, each once. */
  method PushNew(found: seq<string>, queue: seq<string>, edges: seq<Edge>, start: string)
    returns (found': seq<string>, queue': seq<string>)
    requires NoDup(found)
    ensures AsSet(found') == AsSet(found) + (TailsOf(edges) - AsSet(found) - {start})
    ensures AsSet(queue') == AsSet(queue) + (TailsOf(edges) - AsSet(found) - {start})
    ensures NoDup(found')
    ensures AsSet(found') == AsSet(found) ==> |queue'| == |queue|
  {
    found', queue' := found, queue;
    for i := 0 to |edges|
      invariant NoDup(found')
      invariant AsSet(found') == AsSet(found) + (TailsOf(edges[..i]) - AsSet(found) - {start})
      invariant AsSet(queue') == AsSet(queue) + (TailsOf(edges[..i]) - AsSet(found) - {start})
      invariant |queue'| == |queue| || exists x :: x in AsSet(found') - AsSet(found)
    {
      var x := edges[i].source;
      assert edges[..i + 1] == edges[..i] + [edges[i]];
      assert TailsOf(edges[..i + 1]) == TailsOf(edges[..i]) + {x};
      assert x in found' <==> x in AsSet(found');
      if x !in found' && x != start {
        assert AsSet(found' + [x]) == AsSet(found') + {x} && AsSet(queue' + [x]) == AsSet(queue') + {x};
        found', queue' := found' + [x], queue' + [x];
        assert x in AsSet(found') - AsSet(found);
      }
    }
    assert edges[..|edges|] == edges;
  }

  /** Searches backwards from the start node; the result is in the order the nodes were found. */
  method FindAncestors(d: Definition, start: string) returns (found: seq<string>)
    ensures NoDup(found) && AsSet(found) * NodeIds(d) == Ancestors(d, start)
  {
    found := [];
    var queue := [start];
    while queue != []
      invariant NoDup(found)
      invariant Ancestry(d, start, AsSet(found), AsSet(queue))
      decreases Names(d) - AsSet(found), |queue|
    {
      Popped(queue);
      var current := queue[0];
      ghost var before := AsSet(found);
      ghost var added := TailsOf(Incoming(d, current)) - before - {start};
      AncestryStep(d, start, before, AsSet(queue[1..]), current, added);
      found, queue := PushNew(found, queue[1..], Incoming(d, current), start);
    }
    assert AsSet(queue) == {};
    AncestryDone(d, start, AsSet(found));
  }

  /** The output an ancestor gets: what an earlier run left, or a placeholder. */
  function SeedOutput(d: Definition, id: string, seeds: Outputs, framing: string, skipped: string): Output {
    if id in seeds then seeds[id]
    else Output(id, Text(if IsTrigger(d, id) then framing else skipped))
  }

  /** `createPlaybookStateFromNode`; None when there is no such node. */
  method CreateStateFromNode(d: Definition, start: string, seeds: Outputs, framing: string, skipped: string)
    returns (r: Option<State>)
    ensures r.None? <==> start !in NodeIds(d)
    ensures r.Some? ==> FromNode(d, start, seeds, framing, skipped, r.value)
  {
    if GetNode(d, start).None? {
      return None;
    }
    var ancestors := FindAncestors(d, start);
    var outputs: Outputs := map[];
    var completed: seq<string> := [];
    for i := 0 to |ancestors|
      invariant NoDup(completed)
      invariant AsSet(completed) == AsSet(ancestors[..i]) * NodeIds(d) == outputs.Keys
      invariant forall id :: id in outputs ==> outputs[id] == SeedOutput(d, id, seeds, framing, skipped)
    {
      var id := ancestors[i];
      assert ancestors[..i + 1] == ancestors[..i] + [id];
      assert AsSet(ancestors[..i + 1]) == AsSet(ancestors[..i]) + {id};
      assert id !in ancestors[..i];
      if GetNode(d, id).Some? {
        assert id in completed ==> id in AsSet(completed);
        assert AsSet(completed + [id]) == AsSet(completed) + {id};
        completed := completed + [id];
        outputs := outputs[id := SeedOutput(d, id, seeds, framing, skipped)];
      }
    }
    assert ancestors[..|ancestors|] == ancestors;
    return Some(State([start], completed, outputs, Running, None, map[]));
  }

  /**
   * A state that starts at `start`: completed are exactly the other nodes with a path to it,
   * each once and each with its output.
   */
  ghost predicate FromNode(d: Definition, start: string, seeds: Outputs, framing: string, skipped: string, s: State) {
    && s.current == [start] && s.status == Running && s.pending == None && s.loops == map[]
    && NoDup(s.completed) && AsSet(s.completed) == Ancestors(d, start) == s.outputs.Keys
    && forall id :: id in s.outputs ==>
         if id in seeds then s.outputs[id] == seeds[id]
         else
           && GetNode(d, id).Some?
           && s.outputs[id] == Output(id, Text(if GetNode(d, id).value.isTrigger then framing else skipped))
  }

  // ---- What a start in the middle promises ----

  /**
   * The start nodes that are blocked for ever: a loop by an edge, other than those back into it, from itself
   * or from a missing node; any other node if it is a trigger that only feeds itself, or by an edge from a
   * missing node to which it does not lead.
   */
  ghost predicate IsBlocked(d: Definition, id: string) {
    var edges := Incoming(d, id);
    if HasSubtype(d, id, Loop) then
      exists e :: e in edges && e.targetHandle != LOOP_BACK && (e.source == id || e.source !in NodeIds(d))
    else
      || (edges != [] && IsTrigger(d, id) && forall e :: e in edges ==> e.source == id)
      || (exists e :: e in edges && e.source !in NodeIds(d) && !Playbook.IsBackEdge(d, e.source, id))
  }

  lemma IncomingFromAncestor(d: Definition, start: string, e: Edge)
    requires e in Incoming(d, start) && e.source in NodeIds(d) && e.source != start
    ensures e.source in Ancestors(d, start)
  {
    ReachesSelf(ReverseGraph(d), start);
    ReverseStep(d, start, start, e);
  }

  /** The start node can run at once exactly when it is not blocked. */
  lemma StartIsReadyExactly(d: Definition, start: string, seeds: Outputs, framing: string, skipped: string, s: State)
    requires start in NodeIds(d) && FromNode(d, start, seeds, framing, skipped, s)
    ensures Ready(d, start, s.completed, start in s.loops) <==> !IsBlocked(d, start)
  {
    var edges := Incoming(d, start);
    assert start !in AsSet(s.completed);
    forall e | e in edges ensures e.source in s.completed <==> e.source != start && e.source in NodeIds(d) {
      if e.source != start && e.source in NodeIds(d) { IncomingFromAncestor(d, start, e); }
      assert e.source in s.completed <==> e.source in AsSet(s.completed);
    }
    ReachesSelf(ForwardGraph(d), start);
    assert Playbook.IsBackEdge(d, start, start);
    if edges != [] && !HasSubtype(d, start, Loop) && AllFromTriggers(d, edges) {
      assert edges[0] in edges;
    }
  }

  /** A start in the middle begins a run that keeps the books like any other. */
  lemma StartKeepsBooks(d: Definition, lower: string -> string, start: string, seeds: Outputs, framing: string,
                        skipped: string,
                        s: State, moves: seq<Move>)
    requires FromNode(d, start, seeds, framing, skipped, s)
    ensures WorldOk(d, Fresh(s))
    ensures WorldOk(d, PlayAll(d, lower, Fresh(s), moves))
  {
    assert start !in AsSet(s.completed);
    PlayAllKeeps(d, lower, Fresh(s), moves);
  }
}
