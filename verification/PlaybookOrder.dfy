/** Dependencies on loop-free definitions, and progress on acyclic ones. */
module PlaybookOrder {
  import opened Graphs
  import opened Playbook
  import opened PlaybookRuns

  /** Every predecessor has completed or is fed back from the node itself. */
  ghost predicate DepsMet(d: Definition, completed: seq<string>, id: string) {
    forall e :: e in d.edges && e.target == id ==> e.source in completed || IsBackEdge(d, e.source, id)
  }

  ghost predicate OrderOk(d: Definition, w: World) {
    && (forall id :: id in TriggerIds(d.nodes) ==> id in w.state.completed)
    && (forall id :: id in w.state.completed && id !in TriggerIds(d.nodes) ==> DepsMet(d, w.state.completed, id))
    && (forall id :: id in w.out ==> DepsMet(d, w.state.completed, id))
    && (w.state.pending.Some? ==> DepsMet(d, w.state.completed, w.state.pending.value.nodeId))
  }

  /** On a loop-free definition, completions only accumulate. */
  lemma NoLoopsGrows(d: Definition, s: State, ch: Change)
    requires NoLoops(d) && ChangeOk(d, s, ch)
    ensures var s' := Apply(d, s, ch);
            s'.completed == (if ch.Finish? then s.completed + [ch.id] else s.completed)
            && !ch.BeginPass? && !ch.EndLoop? && !ch.AskLoop?
  {
  }

  /** A ready node has its dependencies met once every trigger is completed. */
  lemma ReadyMeetsDeps(d: Definition, completed: seq<string>, id: string, started: bool)
    requires NoLoops(d) && id in NodeIds(d) && Ready(d, id, completed, started)
    requires forall t :: t in TriggerIds(d.nodes) ==> t in completed
    ensures DepsMet(d, completed, id)
  {
    forall e | e in d.edges && e.target == id ensures e.source in completed || IsBackEdge(d, e.source, id) {
      assert e in Incoming(d, id);
      if AllFromTriggers(d, Incoming(d, id)) {
        assert IsTrigger(d, e.source);
        assert e.source in TriggerIds(d.nodes);
      }
    }
  }

  lemma DepsGrow(d: Definition, completed: seq<string>, more: seq<string>, id: string)
    requires DepsMet(d, completed, id)
    ensures DepsMet(d, completed + more, id)
  {
  }

  /** The node a move is about has its dependencies met. */
  lemma SubjectMeetsDeps(d: Definition, w: World, m: Move, ch: Change)
    requires NoLoops(d) && OrderOk(d, w) && WalkOk(d, w) && Allowed(w, m) && ChangeOk(d, w.state, ch)
    requires Subject(ch).Some? && Entitled(d, w, m, Subject(ch).value)
    ensures DepsMet(d, w.state.completed, Subject(ch).value)
  {
    var id := Subject(ch).value;
    if m.Next? {
      ReadyMeetsDeps(d, w.state.completed, id, id in w.state.loops);
    }
  }

  lemma PlayKeepsOrder(d: Definition, lower: string -> string, w: World, m: Move)
    requires NoLoops(d) && WalkOk(d, w) && OrderOk(d, w)
    ensures OrderOk(d, Play(d, lower, w, m))
  {
    if Allowed(w, m) {
      var ch := Outcome(d, lower, w, m);
      OutcomeOk(d, lower, w, m);
      NoLoopsGrows(d, w.state, ch);
      if Subject(ch).Some? { SubjectMeetsDeps(d, w, m, ch); }
      if ch.Stay? && m.Next? {
        forall id | id in HandedOut(ch.action) ensures DepsMet(d, w.state.completed, id) {
          ReadyMeetsDeps(d, w.state.completed, id, id in w.state.loops);
        }
      }
      AfterKeepsOrder(d, w, m, ch);
    }
  }

  lemma AfterKeepsOrder(d: Definition, w: World, m: Move, ch: Change)
    requires OrderOk(d, w) && !ch.BeginPass? && !ch.EndLoop? && !ch.AskLoop?
    requires Subject(ch).Some? ==> DepsMet(d, w.state.completed, Subject(ch).value)
    requires ch.Stay? && m.Next? ==> forall id :: id in HandedOut(ch.action) ==> DepsMet(d, w.state.completed, id)
    ensures OrderOk(d, After(d, w, m, ch))
  {
    var w' := After(d, w, m, ch);
    if ch.Finish? {
      var c := w.state.completed;
      assert w'.state.completed == c + [ch.id];
      forall id | id in w'.state.completed && id !in TriggerIds(d.nodes) ensures DepsMet(d, c + [ch.id], id) {
        DepsGrow(d, c, [ch.id], id);
      }
      forall id | id in w'.out ensures DepsMet(d, c + [ch.id], id) {
        DepsGrow(d, c, [ch.id], id);
      }
    }
  }

  lemma FinishKeepsWalk(d: Definition, w: World, m: Move, ch: Change)
    requires WalkOk(d, w) && w.state.status == Running && ch.Finish? && w.state.loops == map[]
    requires After(d, w, m, ch).out <= w.out - {ch.id}
    ensures WalkOk(d, After(d, w, m, ch))
  {
    var s, w' := w.state, After(d, w, m, ch);
    FrontierSet(s.current, ch.id, Downstream(d, [ch.id], ch.handle), s.completed + [ch.id]);
    forall x | x in w'.out ensures x in w'.state.current {
      assert x in AsSet(s.current) && x != ch.id;
      assert x in AsSet(w'.state.current);
    }
  }

  /** Without loop nodes the walker's decisions stay well founded, whatever the triggers feed. */
  lemma WalkKeeps(d: Definition, lower: string -> string, w: World, m: Move)
    requires NoLoops(d) && WalkOk(d, w)
    ensures WalkOk(d, Play(d, lower, w, m))
  {
    if Allowed(w, m) {
      var ch := Outcome(d, lower, w, m);
      OutcomeOk(d, lower, w, m);
      NoLoopsGrows(d, w.state, ch);
      NoLoopState(d, w.state);
      if ch.Finish? {
        if !m.Complete? { SubjectNotOut(d, w, m, ch.id); }
        FinishKeepsWalk(d, w, m, ch);
      } else {
        OtherKeepsWalk(d, w, m, ch);
      }
    }
  }

  lemma NoLoopState(d: Definition, s: State)
    requires NoLoops(d) && LoopsOk(d, s)
    ensures s.loops == map[]
  {
    forall l ensures l !in s.loops {
      assert !HasSubtype(d, l, Loop);
    }
  }

  lemma OtherKeepsWalk(d: Definition, w: World, m: Move, ch: Change)
    requires WalkOk(d, w) && Allowed(w, m) && ChangeOk(d, w.state, ch) && w.state.loops == map[]
    requires !ch.Finish? && !ch.BeginPass? && !ch.EndLoop? && !ch.AskLoop?
    requires ch.Stay? && m.Next? ==> HandsOutOk(d, w.state, HandedOut(ch.action))
    requires m.Complete? ==> ch == Finish(m.id, m.value, "")
    ensures WalkOk(d, After(d, w, m, ch))
  {
  }

  lemma {:induction false} AlwaysOrdered(d: Definition, lower: string -> string, payload: string, moves: seq<Move>)
    requires NoLoops(d) && CreateState(d, payload).Some?
    ensures var w := PlayAll(d, lower, Fresh(CreateState(d, payload).value), moves); WalkOk(d, w) && OrderOk(d, w)
    decreases |moves|
  {
    var w0 := Fresh(CreateState(d, payload).value);
    if moves != [] {
      var n := |moves| - 1;
      AlwaysOrdered(d, lower, payload, moves[..n]);
      WalkKeeps(d, lower, PlayAll(d, lower, w0, moves[..n]), moves[n]);
      PlayKeepsOrder(d, lower, PlayAll(d, lower, w0, moves[..n]), moves[n]);
    }
  }

  /**
   * Dependencies are respected on every run of a loop-free definition: a completed node that is
   * no trigger has each predecessor completed, or reaches that predecessor itself.
   */
  lemma PredecessorsCompleteFirst(d: Definition, lower: string -> string, payload: string, moves: seq<Move>, e: Edge)
    requires NoLoops(d) && CreateState(d, payload).Some? && e in d.edges
    ensures var s := PlayAll(d, lower, Fresh(CreateState(d, payload).value), moves).state;
            e.target in s.completed && e.target !in TriggerIds(d.nodes) ==>
              e.source in s.completed || Reaches(ForwardGraph(d), e.target, e.source)
  {
    AlwaysOrdered(d, lower, payload, moves);
  }

  lemma {:induction false} NoBackEdges(d: Definition, e: Edge)
    requires !Cyclic(AllEdges(d)) && e in d.edges
    ensures !IsBackEdge(d, e.source, e.target)
  {
    if IsBackEdge(d, e.source, e.target) {
      var p :| IsPath(ForwardGraph(d), p) && p[0] == e.target && p[|p| - 1] == e.source;
      assert IsPath(AllEdges(d), p);
      BackEdgeCloses(AllEdges(d), e.source, e.target);
    }
  }

  /** On an acyclic loop-free definition, routers and conditions included, nothing completes before its predecessors. */
  lemma AcyclicPredecessorsCompleteFirst(d: Definition, lower: string -> string, payload: string, moves: seq<Move>,
                                         e: Edge)
    requires NoLoops(d) && !Cyclic(AllEdges(d)) && CreateState(d, payload).Some?
    requires e in d.edges
    ensures var s := PlayAll(d, lower, Fresh(CreateState(d, payload).value), moves).state;
            e.target in s.completed && e.target !in TriggerIds(d.nodes) ==> e.source in s.completed
  {
    AlwaysOrdered(d, lower, payload, moves);
    NoBackEdges(d, e);
  }

  // ---- Progress ----

  /** Acyclic, without choices, loops and transfers; every node is reachable from a trigger. */
  ghost predicate Plain(d: Definition) {
    && !Cyclic(AllEdges(d))
    && NoChoices(d)
    && (forall e :: e in d.edges ==>
          e.source in NodeIds(d) && e.target in NodeIds(d) && e.target !in TriggerIds(d.nodes))
    && (forall id {:trigger FromTrigger(d, id)} :: id in NodeIds(d) ==> FromTrigger(d, id))
  }

  ghost predicate FromTrigger(d: Definition, id: string) {
    exists t :: t in TriggerIds(d.nodes) && Reaches(AllEdges(d), t, id)
  }

  predicate NoChoices(d: Definition) {
    forall n :: n in d.nodes ==>
      n.subtype != Router && n.subtype != Condition && n.subtype != Loop && n.subtype != Transfer
  }

  /** Nothing gets lost: what a completed node feeds is completed or in the frontier. */
  ghost predicate NothingLost(d: Definition, s: State) {
    && (forall id :: id in TriggerIds(d.nodes) ==> id in s.completed)
    && (forall id :: id in s.completed || id in s.current ==> id in NodeIds(d))
    && (forall e :: e in d.edges && e.source in s.completed ==> e.target in s.completed || e.target in s.current)
  }

  ghost predicate FrontierTells(d: Definition, s: State) {
    && s.status != Failed
    && (s.status == Completed ==> s.current == [])
    && (s.current == [] && s.status == Running ==> NodeIds(d) <= AsSet(TriggerIds(d.nodes)))
  }

  ghost predicate PlainOk(d: Definition, w: World) {
    WorldOk(d, w) && OrderOk(d, w) && NothingLost(d, w.state) && FrontierTells(d, w.state)
  }

  /** An uncompleted node of a plain definition has a predecessor. */
  lemma HasPredecessor(d: Definition, id: string)
    requires Plain(d) && id in NodeIds(d) && id !in TriggerIds(d.nodes)
    ensures exists e :: e in d.edges && e.target == id
  {
    assert FromTrigger(d, id);
    var t :| t in TriggerIds(d.nodes) && Reaches(AllEdges(d), t, id);
    var p :| IsPath(AllEdges(d), p) && p[0] == t && p[|p| - 1] == id;
    assert (p[|p| - 2], p[|p| - 1]) in AllEdges(d);
  }

  lemma ReadyWhenFed(d: Definition, completed: seq<string>, id: string, started: bool, e: Edge)
    requires id in NodeIds(d) && !HasSubtype(d, id, Loop) && e in d.edges && e.target == id
    requires forall x :: x in d.edges && x.target == id ==> x.source in completed
    ensures Ready(d, id, completed, started)
  {
    assert e in Incoming(d, id);
  }

  /** While a node is uncompleted, some node of the frontier is ready. */
  lemma SomeNodeIsReady(d: Definition, s: State) returns (id: string)
    requires Plain(d) && NothingLost(d, s) && !(NodeIds(d) <= AsSet(s.completed))
    ensures id in s.current && Ready(d, id, s.completed, id in s.loops)
  {
    var left := NodeIds(d) - AsSet(s.completed);
    var some :| some in NodeIds(d) && some !in AsSet(s.completed);
    assert some in left;
    id := AcyclicHasSource(AllEdges(d), left);
    HasPredecessor(d, id);
    var e :| e in d.edges && e.target == id;
    forall x | x in d.edges && x.target == id ensures x.source in s.completed {
      assert (x.source, id) in AllEdges(d);
      assert x.source in NodeIds(d) && x.source !in left;
    }
    ReadyWhenFed(d, s.completed, id, id in s.loops, e);
  }

  /** Finishing a node of a plain definition follows all its edges. */
  lemma PlainFinishHandle(d: Definition, lower: string -> string, w: World, m: Move)
    requires Plain(d) && WorldOk(d, w) && Allowed(w, m)
    ensures var ch := Outcome(d, lower, w, m);
            (ch.Finish? ==> ch.handle == "") && ch != Forget && !ch.BeginPass? && !ch.EndLoop? && !ch.AskLoop?
  {
    OutcomeOk(d, lower, w, m);
    match m
    case Next(stop) =>
      if w.state.pending.None? {
        NextCases(d, w.state, stop);
        var ready := ReadyNodes(d, w.state, w.state.current);
        if ready != [] { PlainFirst(d, w.state, ready[0], stop); }
      }
    case Complete(_, _) =>
    case Decide(text) => PlainDecide(d, lower, w.state, text);
  }

  lemma PlainFirst(d: Definition, s: State, id: string, stop: bool)
    requires NoChoices(d)
    ensures var ch := ProcessFirst(d, s, id, stop);
            (ch.Finish? ==> ch.handle == "") && ch != Forget && (ch == Refuse ==> id !in NodeIds(d))
  {
    var node := GetNode(d, id);
    if node.Some? { assert node.value.subtype != Loop && node.value.subtype != Transfer; }
  }

  lemma PlainDecide(d: Definition, lower: string -> string, s: State, text: string)
    requires NoChoices(d) && PendingOk(d, s) && s.pending.Some? && AnswerableDecision(s)
    ensures var ch := ResolveDecision(d, lower, s, text);
            (ch.Finish? ==> ch.handle == "") && ch != Forget && ch != Refuse
  {
    var p := s.pending.value;
    assert GetNode(d, p.nodeId).value in d.nodes;
  }

  lemma PlainNeverRefuses(d: Definition, lower: string -> string, w: World, m: Move)
    requires Plain(d) && WorldOk(d, w) && NothingLost(d, w.state) && Allowed(w, m)
    ensures Outcome(d, lower, w, m) != Refuse
  {
    match m
    case Next(stop) =>
      if w.state.pending.None? {
        NextCases(d, w.state, stop);
        var ready := ReadyNodes(d, w.state, w.state.current);
        if ready != [] {
          assert ready[0] in ready;
          PlainFirst(d, w.state, ready[0], stop);
        }
      }
    case Complete(_, _) =>
    case Decide(text) => PlainDecide(d, lower, w.state, text);
  }

  /** The successors of a node, as `Downstream` lists them without a handle. */
  lemma Successors(d: Definition, id: string)
    requires id in NodeIds(d)
    ensures forall x :: x in Downstream(d, [id], "") <==> exists e :: e in d.edges && e.source == id && e.target == x
  {
    forall x ensures x in Downstream(d, [id], "") <==> exists e :: e in d.edges && e.source == id && e.target == x {
      DownstreamOfMany(d, [id], "", x);
    }
  }

  lemma FinishLosesNothing(d: Definition, s: State, id: string, value: Value)
    requires Plain(d) && BooksOk(s) && NothingLost(d, s) && id in s.current && id !in s.completed
    ensures NothingLost(d, Advance(d, s, id, value, ""))
  {
    var s' := Advance(d, s, id, value, "");
    AdvanceBooks(d, s, id, value, "");
    Successors(d, id);
    var down := Downstream(d, [id], "");
    FinishSets(d, s, s', id, down);
  }

  lemma FinishSets(d: Definition, s: State, s': State, id: string, down: seq<string>)
    requires forall e :: e in d.edges ==> e.target in NodeIds(d)
    requires NothingLost(d, s) && id in NodeIds(d)
    requires AsSet(s'.completed) == AsSet(s.completed) + {id}
    requires AsSet(s'.current) == (AsSet(s.current) - {id}) + (AsSet(down) - AsSet(s.completed) - {id})
    requires forall x :: x in down <==> exists e :: e in d.edges && e.source == id && e.target == x
    ensures NothingLost(d, s')
  {
    forall x | x in s'.completed || x in s'.current ensures x in NodeIds(d) {
      assert x in AsSet(s'.completed) || x in AsSet(s'.current);
    }
    forall e | e in d.edges && e.source in s'.completed ensures e.target in s'.completed || e.target in s'.current {
      assert e.source in AsSet(s'.completed);
      assert e.source == id ==> e.target in AsSet(down);
      assert e.target in AsSet(s'.completed) || e.target in AsSet(s'.current);
    }
    forall x | x in TriggerIds(d.nodes) ensures x in s'.completed {
      assert x in AsSet(s'.completed);
    }
  }

  /** While a node is uncompleted, the list of ready nodes is not empty. */
  lemma ReadyListed(d: Definition, s: State)
    requires Plain(d) && NothingLost(d, s) && !(NodeIds(d) <= AsSet(s.completed))
    ensures s.current != [] && ReadyNodes(d, s, s.current) != []
  {
    var id := SomeNodeIsReady(d, s);
    assert id in ReadyNodes(d, s, s.current);
  }

  /** The frontier of a plain run is empty exactly when every node is completed. */
  lemma EmptyFrontierExactly(d: Definition, s: State)
    requires Plain(d) && BooksOk(s) && NothingLost(d, s)
    ensures s.current == [] <==> NodeIds(d) <= AsSet(s.completed)
  {
    assert s.current != [] ==> s.current[0] in AsSet(s.current) && s.current[0] in NodeIds(d);
    if !(NodeIds(d) <= AsSet(s.completed)) {
      ReadyListed(d, s);
    }
  }

  lemma PlainAfter(d: Definition, lower: string -> string, w: World, m: Move)
    requires Plain(d) && PlainOk(d, w) && Allowed(w, m)
    ensures var s' := Play(d, lower, w, m).state; NothingLost(d, s') && FrontierTells(d, s')
  {
    var ch := Outcome(d, lower, w, m);
    OutcomeOk(d, lower, w, m);
    PlainFinishHandle(d, lower, w, m);
    PlainNeverRefuses(d, lower, w, m);
    PlainChange(d, w.state, ch);
  }

  lemma ClosesWhenDone(d: Definition, s: State)
    requires Plain(d) && NothingLost(d, s) && ReadyNodes(d, s, s.current) == []
    ensures NodeIds(d) <= AsSet(s.completed)
  {
    if !(NodeIds(d) <= AsSet(s.completed)) {
      ReadyListed(d, s);
    }
  }

  lemma PlainChange(d: Definition, s: State, ch: Change)
    requires Plain(d) && StateOk(d, s) && NothingLost(d, s) && FrontierTells(d, s) && ChangeOk(d, s, ch)
    requires s.status == Running
    requires (ch.Finish? ==> ch.handle == "") && ch != Forget && ch != Refuse && !ch.BeginPass? && !ch.EndLoop?
             && !ch.AskLoop?
    requires ch == CloseRun ==> NextJustified(d, s, ch)
    ensures NothingLost(d, Apply(d, s, ch)) && FrontierTells(d, Apply(d, s, ch))
  {
    if ch.Finish? {
      assert ch.id in AsSet(s.current);
      FinishLosesNothing(d, s, ch.id, ch.value);
    } else if ch == CloseRun {
      EmptyFrontierExactly(d, s);
      ClosesWhenDone(d, s);
    }
  }

  lemma PlainKeeps(d: Definition, lower: string -> string, w: World, m: Move)
    requires Plain(d) && PlainOk(d, w)
    ensures PlainOk(d, Play(d, lower, w, m))
  {
    PlayKeeps(d, lower, w, m);
    PlayKeepsOrder(d, lower, w, m);
    if Allowed(w, m) {
      PlainAfter(d, lower, w, m);
    }
  }

  lemma {:induction false} AlwaysPlain(d: Definition, lower: string -> string, payload: string, moves: seq<Move>)
    requires Plain(d) && CreateState(d, payload).Some?
    ensures PlainOk(d, PlayAll(d, lower, Fresh(CreateState(d, payload).value), moves))
    decreases |moves|
  {
    if moves == [] {
      FreshExactly(d, payload);
      AlwaysOrdered(d, lower, payload, []);
      FreshIsPlain(d, payload);
    } else {
      var n := |moves| - 1;
      AlwaysPlain(d, lower, payload, moves[..n]);
      PlainKeeps(d, lower, PlayAll(d, lower, Fresh(CreateState(d, payload).value), moves[..n]), moves[n]);
    }
  }

  lemma FreshIsPlain(d: Definition, payload: string)
    requires Plain(d) && CreateState(d, payload).Some?
    ensures var s := CreateState(d, payload).value; NothingLost(d, s) && FrontierTells(d, s)
  {
    var s := CreateState(d, payload).value;
    var triggers := TriggerIds(d.nodes);
    forall x ensures x in s.current <==> exists e :: e in d.edges && e.source in triggers && e.target == x {
      DownstreamOfMany(d, triggers, "", x);
    }
    FreshExactly(d, payload);
    EmptyFrontierExactly(d, s);
  }

  /**
   * Deadlock freedom: on a plain definition every running state with a non-empty frontier has a
   * ready node, so a step never just waits for a missing predecessor.
   */
  lemma NeverStuck(d: Definition, lower: string -> string, payload: string, moves: seq<Move>, stop: bool)
    requires Plain(d) && CreateState(d, payload).Some?
    ensures var s := PlayAll(d, lower, Fresh(CreateState(d, payload).value), moves).state;
            s.status == Running && s.current != [] ==>
              && ReadyNodes(d, s, s.current) != []
              && (s.pending.None? ==>
                    !(NextStep(d, s, stop).Stay? && NextStep(d, s, stop).action.WaitingForSubAgents?))
  {
    AlwaysPlain(d, lower, payload, moves);
    var s := PlayAll(d, lower, Fresh(CreateState(d, payload).value), moves).state;
    if s.status == Running && s.current != [] {
      EmptyFrontierExactly(d, s);
      ReadyListed(d, s);
      if s.pending.None? {
        NextCases(d, s, stop);
        var ready := ReadyNodes(d, s, s.current);
        FirstIsOneNode(d, s, ready[0], stop, ProcessFirst(d, s, ready[0], stop));
      }
    }
  }

  /**
   * A plain run is completed exactly when all nodes are, except that a definition of triggers
   * only, which begins with all of them completed, still needs one step to be marked so.
   */
  lemma CompletedExactlyWhenAllAre(d: Definition, lower: string -> string, payload: string, moves: seq<Move>)
    requires Plain(d) && CreateState(d, payload).Some?
    ensures var s := PlayAll(d, lower, Fresh(CreateState(d, payload).value), moves).state;
            && (s.status == Completed || s.status == Running)
            && (s.current == [] <==> NodeIds(d) <= AsSet(s.completed))
            && (s.status == Completed ==> NodeIds(d) <= AsSet(s.completed))
            && (NodeIds(d) <= AsSet(s.completed) && s.status == Running ==> NodeIds(d) <= AsSet(TriggerIds(d.nodes)))
  {
    AlwaysPlain(d, lower, payload, moves);
    EmptyFrontierExactly(d, PlayAll(d, lower, Fresh(CreateState(d, payload).value), moves).state);
  }
}
