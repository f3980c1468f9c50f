/** A parallel batch can report back in any order. */
module PlaybookParallel {
  import opened Wrappers
  import opened Playbook
  import opened PlaybookRuns

  /** Completes nodes one after the other through `completeSubAgent`. */
  function CompleteMany(d: Definition, s: State, ids: seq<string>, results: string -> Value): State
    decreases |ids|
  {
    if ids == [] then s
    else
      var before := CompleteMany(d, s, ids[..|ids| - 1], results);
      var id := ids[|ids| - 1];
      Apply(d, before, CompleteSubAgent(d, id, results(id)))
  }

  /** What the nodes of a set feed. */
  ghost function FedBy(d: Definition, xs: set<string>): set<string> {
    set e | e in d.edges && e.source in xs && e.source in NodeIds(d) :: e.target
  }

  /**
   * The state after completing the nodes `xs`, in terms of the set alone: everything that counts
   * but the order of the two lists.
   */
  ghost predicate CompletedSet(d: Definition, s: State, s': State, xs: set<string>, results: string -> Value) {
    && AsSet(s'.completed) == AsSet(s.completed) + xs
    && AsSet(s'.current) == (AsSet(s.current) - xs) + (FedBy(d, xs) - AsSet(s.completed) - xs)
    && s'.outputs == s.outputs + (map id | id in xs :: Output(id, results(id)))
    && s'.loops == s.loops
    && (xs == {} ==> s' == s)
    && (xs != {} ==> s'.pending == None && s'.status == if s'.current == [] then Completed else Running)
  }

  lemma FedByMore(d: Definition, xs: set<string>, id: string)
    requires id in NodeIds(d)
    ensures FedBy(d, xs + {id}) == FedBy(d, xs) + AsSet(Downstream(d, [id], ""))
  {
    forall t ensures t in Downstream(d, [id], "") <==> exists e :: e in d.edges && e.source == id && e.target == t {
      DownstreamOfMany(d, [id], "", t);
    }
  }

  lemma OneMoreOutput(outputs: Outputs, outputs1: Outputs, xs: set<string>, id: string, results: string -> Value)
    requires outputs1 == outputs + (map x | x in xs :: Output(x, results(x)))
    ensures outputs1[id := Output(id, results(id))] == outputs + (map x | x in xs + {id} :: Output(x, results(x)))
  {
    var now := outputs1[id := Output(id, results(id))];
    var all := map x | x in xs + {id} :: Output(x, results(x));
    assert now.Keys == (outputs + all).Keys;
  }

  lemma OneMoreFrontier(current: set<string>, fed: set<string>, completed: set<string>, xs: set<string>, id: string,
                        down: set<string>)
    ensures ((current - xs + (fed - completed - xs)) - {id}) + (down - (completed + xs + {id}))
         == (current - (xs + {id})) + ((fed + down) - completed - (xs + {id}))
  {
  }

  lemma OneMoreCurrent(d: Definition, s: State, s1: State, xs: set<string>, id: string, value: Value)
    requires AsSet(s1.completed) == AsSet(s.completed) + xs && id in NodeIds(d)
    requires AsSet(s1.current) == (AsSet(s.current) - xs) + (FedBy(d, xs) - AsSet(s.completed) - xs)
    ensures var s2 := Advance(d, s1, id, value, "");
            && AsSet(s2.completed) == AsSet(s.completed) + (xs + {id})
            && AsSet(s2.current)
               == (AsSet(s.current) - (xs + {id})) + (FedBy(d, xs + {id}) - AsSet(s.completed) - (xs + {id}))
  {
    var completed, down := s1.completed + [id], Downstream(d, [id], "");
    assert AsSet(completed) == AsSet(s1.completed) + {id};
    FrontierSet(s1.current, id, down, completed);
    FedByMore(d, xs, id);
    OneMoreFrontier(AsSet(s.current), FedBy(d, xs), AsSet(s.completed), xs, id, AsSet(down));
  }

  lemma OneMore(d: Definition, s: State, s1: State, xs: set<string>, id: string, results: string -> Value)
    requires CompletedSet(d, s, s1, xs, results) && id in NodeIds(d)
    ensures CompletedSet(d, s, Advance(d, s1, id, results(id), ""), xs + {id}, results)
  {
    OneMoreCurrent(d, s, s1, xs, id, results(id));
    OneMoreOutput(s.outputs, s1.outputs, xs, id, results);
  }

  lemma NoneCompleted(d: Definition, s: State, results: string -> Value)
    ensures CompletedSet(d, s, s, {}, results)
  {
    assert FedBy(d, {}) == {};
  }

  lemma LastOf(d: Definition, ids: seq<string>)
    requires ids != []
    ensures var front, id := ids[..|ids| - 1], ids[|ids| - 1];
            AsSet(ids) * NodeIds(d) == AsSet(front) * NodeIds(d) + (if id in NodeIds(d) then {id} else {})
  {
    assert ids == ids[..|ids| - 1] + [ids[|ids| - 1]];
    assert AsSet(ids) == AsSet(ids[..|ids| - 1]) + {ids[|ids| - 1]};
  }

  /** Completing a list of nodes depends on the set of those that exist, not on the order. */
  lemma {:induction false} ManyIsASet(d: Definition, s: State, ids: seq<string>, results: string -> Value)
    ensures CompletedSet(d, s, CompleteMany(d, s, ids, results), AsSet(ids) * NodeIds(d), results)
    decreases |ids|
  {
    if ids == [] {
      assert AsSet(ids) * NodeIds(d) == {};
      NoneCompleted(d, s, results);
    } else {
      var front, id := ids[..|ids| - 1], ids[|ids| - 1];
      ManyIsASet(d, s, front, results);
      LastOf(d, ids);
      if id in NodeIds(d) {
        OneMore(d, s, CompleteMany(d, s, front, results), AsSet(front) * NodeIds(d), id, results);
      } else {
        assert AsSet(ids) * NodeIds(d) == AsSet(front) * NodeIds(d);
      }
    }
  }

  /** Equal but for the order of the frontier and of the completed list. */
  ghost predicate SameUpToOrder(a: State, b: State) {
    && AsSet(a.current) == AsSet(b.current)
    && AsSet(a.completed) == AsSet(b.completed)
    && a.outputs == b.outputs && a.status == b.status && a.pending == b.pending && a.loops == b.loops
  }

  lemma EmptyLists(a: seq<string>, b: seq<string>)
    requires AsSet(a) == AsSet(b)
    ensures a == [] <==> b == []
  {
    assert a != [] ==> a[0] in AsSet(a);
    assert b != [] ==> b[0] in AsSet(b);
  }

  lemma SetDecides(d: Definition, s: State, a: State, b: State, xs: set<string>, results: string -> Value)
    requires CompletedSet(d, s, a, xs, results) && CompletedSet(d, s, b, xs, results)
    ensures SameUpToOrder(a, b)
  {
    EmptyLists(a.current, b.current);
  }

  lemma SameMembers(xs: seq<string>, ys: seq<string>)
    requires multiset(xs) == multiset(ys)
    ensures AsSet(xs) == AsSet(ys)
  {
    forall x ensures x in xs <==> x in ys {
      assert x in xs <==> x in multiset(xs);
    }
  }

  /**
   * Whatever nodes are completed, doing it in another order gives the same frontier, completions,
   * outputs and status.
   */
  lemma AnyOrder(d: Definition, s: State, xs: seq<string>, ys: seq<string>, results: string -> Value)
    requires multiset(xs) == multiset(ys)
    ensures SameUpToOrder(CompleteMany(d, s, xs, results), CompleteMany(d, s, ys, results))
  {
    SameMembers(xs, ys);
    ManyIsASet(d, s, xs, results);
    ManyIsASet(d, s, ys, results);
    SetDecides(d, s, CompleteMany(d, s, xs, results), CompleteMany(d, s, ys, results), AsSet(xs) * NodeIds(d), results);
  }

  /**
   * The nodes of a parallel batch may report in any order: each of them is in the frontier, the
   * workflow stays running until the last one has reported, and the end is the same.
   */
  lemma BatchOrderDoesNotMatter(d: Definition, s: State, stop: bool, reported: seq<string>, results: string -> Value)
    requires NoDup(s.current) && s.status == Running
    requires NextStep(d, s, stop).Stay? && NextStep(d, s, stop).action.SpawnParallelAgents?
    requires multiset(reported) == multiset(NextStep(d, s, stop).action.nodeIds)
    ensures var ids := NextStep(d, s, stop).action.nodeIds;
            && NoDup(ids) && AsSet(ids) <= AsSet(s.current) * NodeIds(d)
            && SameUpToOrder(CompleteMany(d, s, reported, results), CompleteMany(d, s, ids, results))
    ensures forall k :: 0 <= k < |reported| ==> CompleteMany(d, s, reported[..k], results).status == Running
  {
    var ids := NextStep(d, s, stop).action.nodeIds;
    BatchIsFromFrontier(d, s, stop);
    AnyOrder(d, s, reported, ids, results);
    SameMembers(reported, ids);
    PermutedNoDup(ids, reported);
    forall k | 0 <= k < |reported| ensures CompleteMany(d, s, reported[..k], results).status == Running {
      PrefixStillRuns(d, s, reported, k, results);
    }
  }

  lemma {:induction false} ReadyNoDup(d: Definition, s: State, ids: seq<string>)
    requires NoDup(ids)
    ensures NoDup(ReadyNodes(d, s, ids))
    decreases |ids|
  {
    if ids != [] {
      ReadyNoDup(d, s, ids[1..]);
    }
  }

  lemma BatchIsFromFrontier(d: Definition, s: State, stop: bool)
    requires NoDup(s.current) && s.status == Running
    requires NextStep(d, s, stop).Stay? && NextStep(d, s, stop).action.SpawnParallelAgents?
    ensures s.pending.None?
    ensures var ids := NextStep(d, s, stop).action.nodeIds; NoDup(ids) && AsSet(ids) <= AsSet(s.current) * NodeIds(d)
  {
    if s.pending.None? {
      NextCases(d, s, stop);
      var ready := ReadyNodes(d, s, s.current);
      ReadyNoDup(d, s, s.current);
      if ready != [] { FirstIsOneNode(d, s, ready[0], stop, ProcessFirst(d, s, ready[0], stop)); }
      assert NextStep(d, s, stop).action.nodeIds == Batch(d, ready);
      forall id | id in Batch(d, ready) ensures id in s.current && id in NodeIds(d) {
        assert id in ready;
      }
    }
  }

  lemma {:induction false} PermutedNoDup(xs: seq<string>, ys: seq<string>)
    requires multiset(xs) == multiset(ys) && NoDup(xs)
    ensures NoDup(ys)
  {
    forall i, j | 0 <= i < j < |ys| ensures ys[i] != ys[j] {
      if ys[i] == ys[j] {
        assert ys == ys[..i] + [ys[i]] + ys[i + 1..j] + [ys[j]] + ys[j + 1..];
        assert multiset(ys)[ys[i]] >= 2;
        OnlyOnce(xs, ys[i]);
      }
    }
  }

  lemma {:induction false} OnlyOnce(xs: seq<string>, x: string)
    requires NoDup(xs)
    ensures multiset(xs)[x] <= 1
    decreases |xs|
  {
    if xs != [] {
      OnlyOnce(xs[1..], x);
      assert xs == [xs[0]] + xs[1..];
      assert xs[0] !in xs[1..];
      assert multiset(xs) == multiset{xs[0]} + multiset(xs[1..]);
    }
  }

  lemma PrefixStillRuns(d: Definition, s: State, ids: seq<string>, k: nat, results: string -> Value)
    requires NoDup(ids) && AsSet(ids) <= AsSet(s.current) * NodeIds(d) && s.status == Running && k < |ids|
    ensures CompleteMany(d, s, ids[..k], results).status == Running
  {
    ManyIsASet(d, s, ids[..k], results);
    var s' := CompleteMany(d, s, ids[..k], results);
    assert ids[k] in AsSet(ids);
    assert ids[k] !in ids[..k];
    assert ids[k] in AsSet(s'.current);
  }
}
