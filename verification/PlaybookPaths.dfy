/** What the walker's searches look for, told by walks along the edges of the definition. */
module PlaybookPaths {
  import opened Graphs
  import opened Playbook
  import opened PlaybookSteps

  /** An edge of the definition leads from `a` to `b`. */
  ghost predicate Joined(d: Definition, a: string, b: string) {
    exists e :: e in d.edges && e.source == a && e.target == b
  }

  /** Each node of the walk but the last exists and has an edge to the next. */
  ghost predicate Walk(d: Definition, p: seq<string>) {
    && |p| > 0
    && forall i {:trigger p[i]} :: 0 <= i < |p| - 1 ==> p[i] in NodeIds(d) && Joined(d, p[i], p[i + 1])
  }

  ghost predicate Walks(d: Definition, a: string, b: string) {
    exists p :: Walk(d, p) && p[0] == a && p[|p| - 1] == b
  }

  /** An edge feeds back exactly if a walk leads from its head to its tail. */
  lemma BackEdgeExactly(d: Definition, source: string, target: string)
    ensures IsBackEdge(d, source, target) <==> Walks(d, target, source)
  {
    forall p ensures IsPath(ForwardGraph(d), p) <==> Walk(d, p) {
      PathIsWalk(d, p);
    }
  }

  lemma PathIsWalk(d: Definition, p: seq<string>)
    ensures IsPath(ForwardGraph(d), p) <==> Walk(d, p)
  {
    forall a, b ensures (a, b) in ForwardGraph(d) <==> a in NodeIds(d) && Joined(d, a, b) {}
    if IsPath(ForwardGraph(d), p) {
      forall i | 0 <= i < |p| - 1 ensures p[i] in NodeIds(d) && Joined(d, p[i], p[i + 1]) {
        assert (p[i], p[i + 1]) in ForwardGraph(d);
      }
    }
    if Walk(d, p) {
      forall i | 0 <= i < |p| - 1 ensures (p[i], p[i + 1]) in ForwardGraph(d) {
        assert p[i] in NodeIds(d);
      }
    }
  }

  // ---- Loop bodies ----

  /** A walk from a start node of the loop that does not pass the loop itself. */
  ghost predicate BodyWalk(d: Definition, loop: string, p: seq<string>) {
    Walk(d, p) && loop !in p && LeadsTo(d, loop, "loop-start", p[0])
  }

  /** The body of a loop is what its start nodes lead to without passing the loop. */
  lemma BodyExactly(d: Definition, loop: string, x: string)
    ensures x in Body(d, loop) <==> exists p :: BodyWalk(d, loop, p) && p[|p| - 1] == x
  {
    StartsAreLed(d, loop);
    if x in Body(d, loop) {
      var s :| s in Starts(d, loop) && s != loop && Reaches(BodyGraph(d, loop), s, x);
      var p :| IsPath(BodyGraph(d, loop), p) && p[0] == s && p[|p| - 1] == x;
      BodyPath(d, loop, p);
      assert BodyWalk(d, loop, p);
    }
    if p :| BodyWalk(d, loop, p) && p[|p| - 1] == x {
      BodyPath(d, loop, p);
      assert p[0] in p && p[|p| - 1] in p;
      assert Reaches(BodyGraph(d, loop), p[0], x);
      WalkEndsAtName(d, loop, p);
    }
  }

  lemma BodyPath(d: Definition, loop: string, p: seq<string>)
    requires p != [] && p[0] != loop
    ensures IsPath(BodyGraph(d, loop), p) <==> Walk(d, p) && loop !in p
  {
    forall a, b
      ensures (a, b) in BodyGraph(d, loop) <==> a in NodeIds(d) && Joined(d, a, b) && a != loop && b != loop {}
    if IsPath(BodyGraph(d, loop), p) {
      forall i | 0 <= i < |p| - 1 ensures p[i] in NodeIds(d) && Joined(d, p[i], p[i + 1]) {
        assert (p[i], p[i + 1]) in BodyGraph(d, loop);
      }
      forall i | 0 <= i < |p| ensures p[i] != loop {
        if i > 0 { assert (p[i - 1], p[i]) in BodyGraph(d, loop); }
      }
    }
    if Walk(d, p) && loop !in p {
      forall i | 0 <= i < |p| - 1 ensures (p[i], p[i + 1]) in BodyGraph(d, loop) {
        assert p[i] in p && p[i + 1] in p;
      }
    }
  }

  lemma WalkEndsAtName(d: Definition, loop: string, p: seq<string>)
    requires BodyWalk(d, loop, p)
    ensures p[|p| - 1] in Names(d)
  {
    if |p| > 1 { assert Joined(d, p[|p| - 2], p[|p| - 1]); }
  }

  // ---- Parallel branches ----

  /** A walk backwards from `id` that passes existing nodes only, none of them a merge. */
  ghost predicate BranchWalk(d: Definition, id: string, p: seq<string>) {
    && |p| > 0 && p[0] == id
    && forall i {:trigger p[i]} :: 0 <= i < |p| - 1 ==>
         p[i] in NodeIds(d) && !HasSubtype(d, p[i], Merge) && Joined(d, p[i + 1], p[i])
  }

  /** A node lies in a parallel branch exactly if such a walk leads back to a parallel node. */
  lemma BranchExactly(d: Definition, id: string)
    ensures InsideParallelBranch(d, id) <==> exists p :: BranchWalk(d, id, p) && HasSubtype(d, p[|p| - 1], Parallel)
  {
    forall p | p != [] && p[0] == id ensures IsPath(BranchGraph(d), p) <==> BranchWalk(d, id, p) {
      BranchPath(d, id, p);
    }
    if InsideParallelBranch(d, id) {
      var x :| HasSubtype(d, x, Parallel) && Reaches(BranchGraph(d), id, x);
      var p :| IsPath(BranchGraph(d), p) && p[0] == id && p[|p| - 1] == x;
      assert BranchWalk(d, id, p);
    }
  }

  lemma BranchPath(d: Definition, id: string, p: seq<string>)
    requires p != [] && p[0] == id
    ensures IsPath(BranchGraph(d), p) <==> BranchWalk(d, id, p)
  {
    forall a, b
      ensures (a, b) in BranchGraph(d) <==> a in NodeIds(d) && !HasSubtype(d, a, Merge) && Joined(d, b, a) {}
    if IsPath(BranchGraph(d), p) {
      forall i | 0 <= i < |p| - 1
        ensures p[i] in NodeIds(d) && !HasSubtype(d, p[i], Merge) && Joined(d, p[i + 1], p[i])
      {
        assert (p[i], p[i + 1]) in BranchGraph(d);
      }
    }
    if BranchWalk(d, id, p) {
      forall i | 0 <= i < |p| - 1 ensures (p[i], p[i + 1]) in BranchGraph(d) {
        assert p[i] in NodeIds(d);
      }
    }
  }

  // ---- Ancestors ----

  /** A walk to `start` whose nodes behind the first exist. */
  ghost predicate WalkTo(d: Definition, start: string, p: seq<string>) {
    && |p| > 0 && p[|p| - 1] == start
    && forall i {:trigger p[i]} :: 0 < i < |p| ==> p[i] in NodeIds(d) && Joined(d, p[i - 1], p[i])
  }

  /** What a start in the middle takes as completed: the other nodes from which a walk leads to the start node. */
  lemma AncestorsExactly(d: Definition, start: string, x: string)
    ensures x in Ancestors(d, start) <==> x in NodeIds(d) && x != start && exists p :: WalkTo(d, start, p) && p[0] == x
  {
    forall p | p != [] && p[|p| - 1] == start ensures IsPath(ReverseGraph(d), p) <==> WalkTo(d, start, p) {
      WayBack(d, start, p);
    }
    if Reaches(ReverseGraph(d), x, start) {
      var p :| IsPath(ReverseGraph(d), p) && p[0] == x && p[|p| - 1] == start;
      assert WalkTo(d, start, p);
    }
  }

  lemma WayBack(d: Definition, start: string, p: seq<string>)
    requires p != [] && p[|p| - 1] == start
    ensures IsPath(ReverseGraph(d), p) <==> WalkTo(d, start, p)
  {
    forall a, b ensures (a, b) in ReverseGraph(d) <==> b in NodeIds(d) && Joined(d, a, b) {}
    if IsPath(ReverseGraph(d), p) {
      forall i | 0 < i < |p| ensures p[i] in NodeIds(d) && Joined(d, p[i - 1], p[i]) {
        assert (p[i - 1], p[i]) in ReverseGraph(d);
      }
    }
    if WalkTo(d, start, p) {
      forall i | 0 <= i < |p| - 1 ensures (p[i], p[i + 1]) in ReverseGraph(d) {
        assert p[i + 1] in NodeIds(d);
      }
    }
  }

  // ---- Readiness ----

  ghost predicate Enters(d: Definition, e: Edge, id: string) {
    e in d.edges && e.target == id
  }

  ghost predicate FromTrigger(d: Definition, e: Edge) {
    GetNode(d, e.source).Some? && GetNode(d, e.source).value.isTrigger
  }

  /**
   * When a node's turn can come: a loop waits along its entry until it has started and along its other
   * edges from then on, a node fed by triggers alone for one of them, any other node along each edge
   * whose source it does not lead to itself.
   */
  ghost predicate CanRun(d: Definition, id: string, completed: seq<string>, started: bool) {
    if id !in NodeIds(d) || forall e :: e in d.edges ==> e.target != id then true
    else if GetNode(d, id).value.subtype == Loop then
      forall e :: Enters(d, e, id) && e.targetHandle != (if started then "loop-entry" else "loop-back") ==>
        e.source in completed
    else if forall e :: Enters(d, e, id) ==> FromTrigger(d, e) then
      exists e :: Enters(d, e, id) && e.source in completed
    else
      forall e :: Enters(d, e, id) ==> e.source in completed || Walks(d, id, e.source)
  }

  lemma ReadyExactly(d: Definition, id: string, completed: seq<string>, started: bool)
    ensures Ready(d, id, completed, started) <==> CanRun(d, id, completed, started)
  {
    hide Playbook.IsBackEdge, Walks;
    var edges := Incoming(d, id);
    if id in NodeIds(d) {
      forall e: Edge ensures e in edges <==> Enters(d, e, id) {}
      assert edges == [] <==> forall e :: e in d.edges ==> e.target != id by {
        if edges != [] { assert edges[0] in edges; }
      }
      forall e: Edge ensures IsTrigger(d, e.source) <==> FromTrigger(d, e) {}
      forall e: Edge ensures IsBackEdge(d, e.source, id) <==> Walks(d, id, e.source) {
        BackEdgeExactly(d, e.source, id);
      }
    }
  }
}
