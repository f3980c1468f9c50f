/**
 * The walker's steps over the loop records they share with the states before them: which steps
 * change a record in place, and so cannot be repeated on the same state.
 */
module PlaybookInPlace {
  import opened Wrappers
  import opened Graphs
  import opened Playbook
  import opened PlaybookRuns
  import opened PlaybookSearch
  import opened LoopRecord

  /** Each record is that of its loop, and an object of its own. */
  ghost predicate Holds(loops: map<string, LoopIter>, records: map<string, Record>)
    reads records.Values
  {
    && (forall l :: l in records ==> l in loops && records[l] in records.Values && records[l].View() == loops[l])
    && (forall l, m :: l in records && m in records && l != m ==> records[l] != records[m])
  }

  /** The records are those of the active loops. */
  ghost predicate Shares(s: State, records: map<string, Record>)
    reads records.Values
  {
    records.Keys == s.loops.Keys && Holds(s.loops, records)
  }

  method AddRecord(loops: map<string, LoopIter>, records: map<string, Record>, l: string)
    returns (more: map<string, Record>)
    requires Holds(loops, records) && l in loops && l !in records
    ensures Holds(loops, more) && fresh(more.Values - records.Values)
    ensures forall k {:trigger k in more} :: k in more <==> k in records || k == l
  {
    var record := new Record(loops[l]);
    more := records[l := record];
    forall m | m in records ensures more[m] == records[m] && records[m] in records.Values {}
  }

  /** Every state can have its records. */
  method MakeRecords(s: State) returns (records: map<string, Record>)
    ensures Shares(s, records) && fresh(records.Values)
  {
    records := map[];
    var left := s.loops.Keys;
    while left != {}
      invariant forall l {:trigger l in records} :: l in records <==> l in s.loops && l !in left
      invariant forall l {:trigger l in left} :: l in left ==> l in s.loops
      invariant fresh(records.Values) && Holds(s.loops, records)
      decreases left
    {
      var l :| l in left;
      records := AddRecord(s.loops, records, l);
      left := left - {l};
    }
    assert records.Keys == s.loops.Keys;
  }

  /** The node is an active loop with a body. */
  predicate Reenters(d: Definition, s: State, id: string) {
    HasSubtype(d, id, Loop) && id in s.loops && Starts(d, id) != []
  }

  /** The active loop that the next step comes to, if it comes to one. */
  ghost function Reentered(d: Definition, s: State): Option<string> {
    var ready := ReadyNodes(d, s, s.current);
    if s.status != Running || s.pending.Some? || ready == [] || |Batch(d, ready)| > 1 then None
    else if Reenters(d, s, ready[0]) then Some(ready[0])
    else None
  }

  /** The loop records after a step. */
  ghost function AfterStep(d: Definition, s: State): map<string, LoopIter> {
    match Reentered(d, s)
    case None => s.loops
    case Some(l) => if l in s.loops then s.loops[l := FinishPass(s.loops[l], s.outputs)] else s.loops
  }

  /** One active loop, whose record is changed in place and no other. */
  method ReenterInPlace(s: State, records: map<string, Record>, node: Node, stop: bool) returns (change: Change)
    requires Shares(s, records) && node.id in s.loops
    modifies records[node.id]
    ensures change == ReenterLoop(s, node, stop)
    ensures Shares(s.(loops := s.loops[node.id := FinishPass(s.loops[node.id], s.outputs)]), records)
  {
    change := records[node.id].Reenter(s, node, stop);
  }

  /** What comes of an active loop, whatever its body is. */
  lemma LoopIsReenteredFirst(d: Definition, s: State, id: string, stop: bool)
    requires Reenters(d, s, id)
    ensures ProcessFirst(d, s, id, stop) == ReenterLoop(s, GetNode(d, id).value, stop)
  {
    var node := GetNode(d, id).value;
    LoopNodeStep(d, s, node, Body(d, id), stop, InsideParallelBranch(d, id));
  }

  lemma LoopNodeStep(d: Definition, s: State, node: Node, body: set<string>, stop: bool, inside: bool)
    requires node.subtype == Loop && Starts(d, node.id) != []
    ensures ProcessNode(d, s, node, body, stop, inside)
            == if node.id in s.loops then ReenterLoop(s, node, stop) else EnterLoop(d, s, node, body)
  {
  }

  /** One ready node; a loop node with a record and a body is re-entered. */
  method ProcessInPlace(d: Definition, s: State, records: map<string, Record>, id: string, stop: bool)
    returns (change: Change)
    requires Shares(s, records)
    modifies records.Values
    ensures change == ProcessFirst(d, s, id, stop)
    ensures var loops := if Reenters(d, s, id) then s.loops[id := FinishPass(s.loops[id], s.outputs)] else s.loops;
            Shares(s.(loops := loops), records)
  {
    var node := GetNode(d, id);
    if node.Some? && node.value.subtype == Loop && id in records && Starts(d, id) != [] {
      LoopIsReenteredFirst(d, s, id, stop);
      change := ReenterInPlace(s, records, node.value, stop);
    } else {
      change := ChooseFor(d, s, id, stop);
    }
  }

  /**
   * `processNextStep` over the shared records: the record of the loop it comes to is changed,
   * and no other.
   */
  method StepInPlace(d: Definition, s: State, records: map<string, Record>, stop: bool) returns (change: Change)
    requires Shares(s, records)
    modifies records.Values
    ensures change == NextStep(d, s, stop)
    ensures Shares(s.(loops := AfterStep(d, s)), records)
    ensures (forall l :: l in records ==> records[l].View() == s.loops[l]) <==> Reentered(d, s).None?
  {
    if s.status != Running {
      return Stay(WorkflowCompleted);
    }
    if s.pending.Some? {
      return Stay(PromptAgent);
    }
    var ready := FilterReady(d, s);
    if ready == [] {
      var missing := Missing(d, s.current, s.completed);
      return if missing != {} then Stay(WaitingForSubAgents(s.current, missing)) else CloseRun;
    }
    var batch := Batch(d, ready);
    if |batch| > 1 {
      return Stay(SpawnParallelAgents(batch));
    }
    change := ProcessInPlace(d, s, records, ready[0], stop);
  }

  /**
   * The loop whose record an answer changes: the one that asked how often to run, if the answer is a
   * number above zero.
   */
  function Answered(d: Definition, s: State, text: string): Option<string> {
    if s.pending.Some? && s.pending.value.nodeId in NodeIds(d) && s.pending.value.kind.CountDecision?
       && s.pending.value.nodeId in s.loops && CountIn(text) != 0 then Some(s.pending.value.nodeId)
    else None
  }

  function AfterAnswer(d: Definition, s: State, text: string): map<string, LoopIter> {
    match Answered(d, s, text)
    case None => s.loops
    case Some(l) => if l in s.loops then s.loops[l := s.loops[l].(resolvedMax := Some(CountIn(text)))] else s.loops
  }

  /** `resolveDecision` over the shared records. */
  method DecideInPlace(d: Definition, lower: string -> string, s: State, records: map<string, Record>, text: string)
    returns (change: Change)
    requires AnswerableDecision(s) && Shares(s, records)
    modifies records.Values
    ensures change == ResolveDecision(d, lower, s, text)
    ensures Shares(s.(loops := AfterAnswer(d, s, text)), records)
    ensures (forall l :: l in records ==> records[l].View() == s.loops[l]) <==>
              var l := Answered(d, s, text);
              l.None? || s.loops[l.value].resolvedMax == Some(CountIn(text))
  {
    if Answered(d, s, text).Some? {
      var id := s.pending.value.nodeId;
      change := records[id].Resolve(s, id, CountIn(text));
    } else {
      change := ResolveDecision(d, lower, s, text);
    }
  }

  // ---- Asking twice ----

  lemma {:induction false} SameReady(d: Definition, s: State, s': State, ids: seq<string>)
    requires s'.completed == s.completed && s'.loops.Keys == s.loops.Keys
    ensures ReadyNodes(d, s', ids) == ReadyNodes(d, s, ids)
  {
    if ids != [] {
      assert ids[0] in s'.loops <==> ids[0] in s.loops;
      SameReady(d, s, s', ids[1..]);
    }
  }

  /** The number of passes a change of a loop says were finished. */
  function PassOf(ch: Change): int {
    match ch
    case BeginPass(_, it) => it.iteration
    case EndLoop(_, it, _) => it.iteration
    case AskLoop(_, it) => it.iteration
    case _ => -1
  }

  lemma ReenteredPass(d: Definition, s: State, stop: bool, l: string)
    requires Reentered(d, s) == Some(l)
    ensures l in s.loops && PassOf(NextStep(d, s, stop)) == s.loops[l].iteration + 1
  {
    NextCases(d, s, stop);
    LoopIsReenteredFirst(d, s, l, stop);
    ReenterPass(s, GetNode(d, l).value, stop);
  }

  lemma ReenterPass(s: State, node: Node, stop: bool)
    requires node.id in s.loops
    ensures PassOf(ReenterLoop(s, node, stop)) == s.loops[node.id].iteration + 1
  {
  }

  /** The state that a caller still holds after a step: its own fields, and the records as they are now. */
  ghost function Held(d: Definition, s: State): State {
    s.(loops := AfterStep(d, s))
  }

  lemma HeldStep(d: Definition, s: State, stop: bool)
    ensures NextStep(d, Held(d, s), stop) == NextStep(d, s, stop) <==> Reentered(d, s).None?
    ensures Reentered(d, s).Some? ==> PassOf(NextStep(d, Held(d, s), stop)) == PassOf(NextStep(d, s, stop)) + 1
  {
    SameReady(d, s, Held(d, s), s.current);
    if Reentered(d, s).Some? {
      ReenteredPass(d, s, stop, Reentered(d, s).value);
      ReenteredPass(d, Held(d, s), stop, Reentered(d, s).value);
    }
  }

  /** The step once more, on a state whose loop state is read out of the records as they are `now`. */
  method StepAgain(d: Definition, s: State, ghost now: State, records: map<string, Record>, stop: bool)
    returns (second: Change)
    requires records.Keys == s.loops.Keys && now == s.(loops := now.loops) && Shares(now, records)
    modifies records.Values
    ensures second == NextStep(d, now, stop)
  {
    var held := s.(loops := map l | l in records :: records[l].View());
    assert held.loops == now.loops;
    second := StepInPlace(d, held, records, stop);
  }

  /**
   * A step asked for twice on one state, the first answer thrown away, gives the same answer
   * again exactly when it does not come to an active loop. If it does, the second answer counts
   * a pass that never ran.
   */
  method StepTwice(d: Definition, s: State, records: map<string, Record>, stop: bool)
    returns (first: Change, second: Change)
    requires Shares(s, records)
    modifies records.Values
    ensures first == NextStep(d, s, stop)
    ensures first == second <==> Reentered(d, s).None?
    ensures Reentered(d, s).Some? ==> PassOf(second) == PassOf(first) + 1
  {
    HeldStep(d, s, stop);
    first := StepInPlace(d, s, records, stop);
    second := StepAgain(d, s, Held(d, s), records, stop);
  }

  // ---- An example ----

  /** A loop over one agent, started by a trigger. */
  function OneAgentLoop(t: string, l: string, a: string, config: Config): Definition {
    Definition([Node(t, Other, true, config), Node(l, Loop, false, config), Node(a, Agent, false, config)],
               [Edge(t, l, "", LOOP_ENTRY), Edge(l, a, LOOP_START, ""), Edge(a, l, "", LOOP_BACK)])
  }

  lemma OneElement(s: seq<string>, x: string)
    requires NoDup(s) && AsSet(s) == {x}
    ensures s == [x]
  {
    assert x in AsSet(s);
    forall i | 0 <= i < |s| ensures s[i] == x {
      assert s[i] in AsSet(s);
    }
    NoDupCount(s, {x});
  }

  lemma OnlyOneLeads(d: Definition, id: string, handle: string, e: Edge, x: string)
    requires e in d.edges && e.source == id && id in NodeIds(d) && Follows(e, handle)
    requires forall f :: f in d.edges && f.source == id ==> f == e
    ensures x in Downstream(d, [id], handle) <==> x == e.target
  {
    DownstreamOfMany(d, [id], handle, x);
  }

  lemma OnlyTarget(d: Definition, id: string, handle: string, e: Edge)
    requires e in d.edges && e.source == id && id in NodeIds(d) && Follows(e, handle)
    requires forall f :: f in d.edges && f.source == id ==> f == e
    ensures Downstream(d, [id], handle) == [e.target]
  {
    forall x ensures x in AsSet(Downstream(d, [id], handle)) <==> x == e.target {
      OnlyOneLeads(d, id, handle, e, x);
    }
    OneElement(Downstream(d, [id], handle), e.target);
  }

  lemma EdgeFeedsBack(d: Definition, e: Edge, source: string)
    requires e in d.edges && e.target == source && e.source in NodeIds(d)
    ensures Playbook.IsBackEdge(d, source, e.source)
  {
    assert (e.source, source) in ForwardGraph(d);
    assert IsPath(ForwardGraph(d), [e.source, source]);
    assert [e.source, source][0] == e.source && [e.source, source][|[e.source, source]| - 1] == source;
  }

  /** What the walker reads of such a definition. */
  ghost predicate LoopShape(d: Definition, t: string, l: string, a: string) {
    && HasSubtype(d, l, Loop) && GetNode(d, l).value.config.loopMode == Iterations && HasSubtype(d, a, Agent)
    && (forall e :: e in Incoming(d, l) <==> e == Edge(t, l, "", LOOP_ENTRY) || e == Edge(a, l, "", LOOP_BACK))
    && (forall e :: e in Incoming(d, a) <==> e == Edge(l, a, LOOP_START, ""))
    && Downstream(d, [t], "") == [l] && Starts(d, l) == [a] && Downstream(d, [a], "") == [l]
    && Playbook.IsBackEdge(d, l, a) && !IsTrigger(d, l) && TriggerIds(d.nodes) == [t]
  }

  lemma LoopNodes(t: string, l: string, a: string, config: Config)
    requires t != l && l != a && a != t
    ensures var d := OneAgentLoop(t, l, a, config);
            && GetNode(d, l) == Some(Node(l, Loop, false, config))
            && GetNode(d, a) == Some(Node(a, Agent, false, config))
            && NodeIds(d) == {t, l, a} && TriggerIds(d.nodes) == [t]
  {
    var d := OneAgentLoop(t, l, a, config);
    var n := d.nodes;
    assert n[1..][0] == n[1] && n[1..][1..] == [n[2]] && n[2] in n && n[1] in n && n[0] in n;
    assert TriggerIds(n[1..]) == TriggerIds([n[2]]) == [];
  }

  lemma ThreeEdges(d: Definition, x: Edge, y: Edge, z: Edge)
    requires d.edges == [x, y, z]
    ensures forall e :: e in d.edges <==> e == x || e == y || e == z
  {
    assert d.edges[0] == x && d.edges[1] == y && d.edges[2] == z;
  }

  lemma HasLoopShape(t: string, l: string, a: string, config: Config)
    requires t != l && l != a && a != t && config.loopMode == Iterations
    ensures LoopShape(OneAgentLoop(t, l, a, config), t, l, a)
  {
    LoopNodes(t, l, a, config);
    ShapeByEdges(OneAgentLoop(t, l, a, config), t, l, a, Edge(t, l, "", LOOP_ENTRY), Edge(l, a, LOOP_START, ""),
                 Edge(a, l, "", LOOP_BACK));
  }

  ghost predicate ThreeEdgesOf(d: Definition, t: string, l: string, a: string, entry: Edge, into: Edge, back: Edge) {
    && t != l && l != a && a != t && NodeIds(d) == {t, l, a}
    && (forall e :: e in d.edges <==> e == entry || e == into || e == back)
    && entry.source == t && entry.target == l && into.source == l && into.target == a
    && back.source == a && back.target == l
  }

  lemma WhatFollows(d: Definition, t: string, l: string, a: string, entry: Edge, into: Edge, back: Edge)
    requires ThreeEdgesOf(d, t, l, a, entry, into, back) && into.sourceHandle == LOOP_START
    ensures Downstream(d, [t], "") == [l] && Starts(d, l) == [a] && Downstream(d, [a], "") == [l]
    ensures Playbook.IsBackEdge(d, l, a)
  {
    OnlyTarget(d, t, "", entry);
    OnlyTarget(d, l, LOOP_START, into);
    OnlyTarget(d, a, "", back);
    EdgeFeedsBack(d, back, l);
  }

  lemma WhatFeeds(d: Definition, t: string, l: string, a: string, entry: Edge, into: Edge, back: Edge)
    requires ThreeEdgesOf(d, t, l, a, entry, into, back)
    ensures forall e :: e in Incoming(d, l) <==> e == entry || e == back
    ensures forall e :: e in Incoming(d, a) <==> e == into
  {
  }

  lemma ShapeByEdges(d: Definition, t: string, l: string, a: string, entry: Edge, into: Edge, back: Edge)
    requires t != l && l != a && a != t && NodeIds(d) == {t, l, a} && d.edges == [entry, into, back]
    requires HasSubtype(d, l, Loop) && GetNode(d, l).value.config.loopMode == Iterations && HasSubtype(d, a, Agent)
    requires !IsTrigger(d, l) && TriggerIds(d.nodes) == [t]
    requires entry == Edge(t, l, "", LOOP_ENTRY) && into == Edge(l, a, LOOP_START, "")
             && back == Edge(a, l, "", LOOP_BACK)
    ensures LoopShape(d, t, l, a)
  {
    ThreeEdges(d, entry, into, back);
    WhatFollows(d, t, l, a, entry, into, back);
    WhatFeeds(d, t, l, a, entry, into, back);
  }

  lemma OneReady(d: Definition, s: State, id: string)
    requires s.current == [id] && Ready(d, id, s.completed, id in s.loops)
    ensures ReadyNodes(d, s, s.current) == [id]
  {
    assert [id][1..] == [];
  }

  lemma NoBatch(d: Definition, id: string)
    ensures |Batch(d, [id])| <= 1
  {
    assert [id][1..] == [];
  }

  /** Where the run stands: the loop is up, with its record or without. */
  ghost predicate AtLoop(w: World, t: string, l: string, a: string, started: bool) {
    && w.state.status == Running && w.state.pending == None && w.state.current == [l]
    && l !in w.state.completed && (started <==> l in w.state.loops)
    && (if started then a in w.state.completed else t in w.state.completed)
  }

  lemma LoopIsReady(d: Definition, w: World, t: string, l: string, a: string, started: bool)
    requires LoopShape(d, t, l, a) && AtLoop(w, t, l, a, started)
    ensures ReadyNodes(d, w.state, w.state.current) == [l]
  {
    assert Edge(t, l, "", LOOP_ENTRY) in Incoming(d, l);
    LoopIsFed(Incoming(d, l), w.state.completed, t, l, a, started);
    OneReady(d, w.state, l);
  }

  lemma LoopIsFed(edges: seq<Edge>, completed: seq<string>, t: string, l: string, a: string, started: bool)
    requires forall e :: e in edges <==> e == Edge(t, l, "", LOOP_ENTRY) || e == Edge(a, l, "", LOOP_BACK)
    requires if started then a in completed else t in completed
    ensures LoopReady(edges, completed, started)
  {
    assert LOOP_ENTRY[5] != LOOP_BACK[5];
  }

  /** The change that begins the loop, and the frontier after it. */
  lemma LoopEnters(d: Definition, w: World, t: string, l: string, a: string)
    requires LoopShape(d, t, l, a) && AtLoop(w, t, l, a, false)
    ensures var ch := NextStep(d, w.state, false);
            ch.BeginPass? && ch.loop == l && ch.it.starts == [a] && ch.it.body == Body(d, l)
  {
    LoopIsReady(d, w, t, l, a, false);
    NoBatch(d, l);
    NextCases(d, w.state, false);
    LoopNodeStep(d, w.state, GetNode(d, l).value, Body(d, l), false, InsideParallelBranch(d, l));
  }

  lemma PassFrontier(s: State, l: string, it: LoopIter, a: string)
    requires s.current == [l] && it.starts == [a]
    ensures StartPass(s, l, it).current == [a]
  {
    OneElement(StartPass(s, l, it).current, a);
  }

  /** The loop is in its pass: the agent is up. */
  ghost predicate InPass(w: World, l: string, a: string) {
    && w.state.status == Running && w.state.pending == None && w.state.current == [a]
    && l !in w.state.completed && l in w.state.loops
  }

  lemma PassBegins(d: Definition, s: State, s': State, l: string, a: string, ch: Change)
    requires s.status == Running && s.current == [l] && l !in s.completed
    requires ch.BeginPass? && ch.loop == l && ch.it.starts == [a] && s' == Apply(d, s, ch)
    ensures s'.status == Running && s'.pending == None && s'.current == [a] && l !in s'.completed && l in s'.loops
  {
    PassFrontier(s.(pending := None), l, ch.it, a);
    assert l in s'.completed ==> l in AsSet(s'.completed);
  }

  /** A step of a running workflow. */
  lemma NextPlay(d: Definition, lower: string -> string, w: World, stop: bool, ch: Change)
    requires w.state.status == Running && ch == NextStep(d, w.state, stop)
    ensures var w' := Play(d, lower, w, Next(stop));
            && w'.state == Apply(d, w.state, ch)
            && w'.out == w.out + (if ch.Stay? then HandedOut(ch.action) else {})
  {
  }

  lemma LoopBegins(d: Definition, lower: string -> string, w: World, t: string, l: string, a: string)
    requires LoopShape(d, t, l, a) && AtLoop(w, t, l, a, false)
    ensures InPass(Play(d, lower, w, Next(false)), l, a)
  {
    var ch, w' := NextStep(d, w.state, false), Play(d, lower, w, Next(false));
    LoopEnters(d, w, t, l, a);
    NextPlay(d, lower, w, false, ch);
    PassBegins(d, w.state, w'.state, l, a, ch);
  }

  lemma AgentSpawns(d: Definition, w: World, t: string, l: string, a: string)
    requires LoopShape(d, t, l, a) && InPass(w, l, a)
    ensures NextStep(d, w.state, false) == Stay(SpawnSubAgent(a))
  {
    var into := Edge(l, a, LOOP_START, "");
    assert into in Incoming(d, a);
    OneReady(d, w.state, a);
    NoBatch(d, a);
    NextCases(d, w.state, false);
    var node := GetNode(d, a).value;
    assert ProcessNode(d, w.state, node, Body(d, a), false, InsideParallelBranch(d, a)) == Stay(SpawnSubAgent(a));
  }

  lemma AgentFrontier(d: Definition, s: State, l: string, a: string, value: Value)
    requires s.current == [a] && l !in s.completed && l != a && Downstream(d, [a], "") == [l]
    ensures Advance(d, s, a, value, "").current == [l]
  {
    var completed := s.completed + [a];
    FrontierSet(s.current, a, [l], completed);
    assert l !in AsSet(completed);
    OneElement(Frontier(s.current, a, [l], completed), l);
  }

  /** The agent is handed out. */
  lemma AgentIsOut(d: Definition, lower: string -> string, w: World, t: string, l: string, a: string)
    requires LoopShape(d, t, l, a) && InPass(w, l, a)
    ensures var w' := Play(d, lower, w, Next(false)); w'.state == w.state && a in w'.out
  {
    AgentSpawns(d, w, t, l, a);
    NextPlay(d, lower, w, false, Stay(SpawnSubAgent(a)));
    SpawnHandsOut(d, w.state, a);
  }

  lemma SpawnHandsOut(d: Definition, s: State, a: string)
    ensures Apply(d, s, Stay(SpawnSubAgent(a))) == s && a in HandedOut(SpawnSubAgent(a))
  {
  }

  /** The completion of a node that was handed out. */
  lemma CompletePlay(d: Definition, lower: string -> string, w: World, id: string, value: Value)
    requires Allowed(w, Complete(id, value)) && id in NodeIds(d)
    ensures Play(d, lower, w, Complete(id, value)).state == Advance(d, w.state, id, value, "")
  {
  }

  lemma AgentDone(d: Definition, s: State, l: string, a: string, value: Value)
    requires s.current == [a] && l !in s.completed && l in s.loops && l != a && Downstream(d, [a], "") == [l]
    ensures var s' := Advance(d, s, a, value, "");
            && s'.status == Running && s'.pending == None && s'.current == [l]
            && l !in s'.completed && a in s'.completed && l in s'.loops
  {
    AgentFrontier(d, s, l, a, value);
  }

  lemma AgentCompletes(d: Definition, lower: string -> string, w: World, t: string, l: string, a: string, value: Value)
    requires LoopShape(d, t, l, a) && InPass(w, l, a) && a in w.out && l != a
    ensures AtLoop(Play(d, lower, w, Complete(a, value)), t, l, a, true)
  {
    CompletePlay(d, lower, w, a, value);
    AgentDone(d, w.state, l, a, value);
  }

  lemma OneMoveMore(d: Definition, lower: string -> string, w: World, moves: seq<Move>, m: Move)
    ensures PlayAll(d, lower, w, moves + [m]) == Play(d, lower, PlayAll(d, lower, w, moves), m)
  {
    assert (moves + [m])[..|moves|] == moves;
  }

  lemma NoMoves(d: Definition, lower: string -> string, w: World)
    ensures PlayAll(d, lower, w, []) == w
  {
  }

  lemma ThreeMoves(d: Definition, lower: string -> string, w: World, moves: seq<Move>)
    requires |moves| == 3
    ensures PlayAll(d, lower, w, moves)
            == Play(d, lower, Play(d, lower, Play(d, lower, w, moves[0]), moves[1]), moves[2])
  {
    hide Play;
    NoMoves(d, lower, w);
    hide PlayAll;
    OneMoveMore(d, lower, w, [], moves[0]);
    OneMoveMore(d, lower, w, [moves[0]], moves[1]);
    OneMoveMore(d, lower, w, [moves[0], moves[1]], moves[2]);
    assert [] + [moves[0]] == [moves[0]] && [moves[0]] + [moves[1]] == [moves[0], moves[1]];
    assert [moves[0], moves[1]] + [moves[2]] == moves;
  }

  /** A run that comes to a loop again: it begins, its agent is handed out and completed. */
  lemma LoopComesUpAgain(lower: string -> string, t: string, l: string, a: string, config: Config, moves: seq<Move>)
    requires t != l && l != a && a != t && config.loopMode == Iterations
    requires |moves| == 3 && moves[0] == moves[1] == Next(false) && moves[2].Complete? && moves[2].id == a
    ensures var d := OneAgentLoop(t, l, a, config);
            && CreateState(d, "").Some?
            && Reentered(d, PlayAll(d, lower, Fresh(CreateState(d, "").value), moves).state) == Some(l)
  {
    var d := OneAgentLoop(t, l, a, config);
    HasLoopShape(t, l, a, config);
    LoopRuns(d, lower, t, l, a, moves);
  }

  lemma LoopRuns(d: Definition, lower: string -> string, t: string, l: string, a: string, moves: seq<Move>)
    requires LoopShape(d, t, l, a) && t != l && l != a
    requires |moves| == 3 && moves[0] == moves[1] == Next(false) && moves[2].Complete? && moves[2].id == a
    ensures CreateState(d, "").Some?
    ensures Reentered(d, PlayAll(d, lower, Fresh(CreateState(d, "").value), moves).state) == Some(l)
  {
    var w0 := Fresh(CreateState(d, "").value);
    var w1 := Play(d, lower, w0, Next(false));
    var w2 := Play(d, lower, w1, Next(false));
    LoopBegins(d, lower, w0, t, l, a);
    AgentIsOut(d, lower, w1, t, l, a);
    AgentCompletes(d, lower, w2, t, l, a, moves[2].value);
    LoopIsReentered(d, Play(d, lower, w2, moves[2]), t, l, a);
    ThreeMoves(d, lower, w0, moves);
  }

  lemma LoopIsReentered(d: Definition, w: World, t: string, l: string, a: string)
    requires LoopShape(d, t, l, a) && AtLoop(w, t, l, a, true)
    ensures Reentered(d, w.state) == Some(l)
  {
    LoopIsReady(d, w, t, l, a, true);
    NoBatch(d, l);
  }
}
