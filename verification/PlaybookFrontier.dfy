/** The order of the frontier, which decides between ready nodes: old nodes first, new ones by their edges. */
module PlaybookFrontier {
  import opened Wrappers
  import opened Playbook
  import opened PlaybookRuns
  import opened PlaybookSteps

  /** Where a list has the element first. */
  function IndexOf(list: seq<string>, x: string): (k: nat)
    ensures k <= |list| && (k < |list| ==> list[k] == x)
    ensures forall j :: 0 <= j < k ==> list[j] != x
    ensures k < |list| <==> x in list
  {
    if list == [] || list[0] == x then 0 else 1 + IndexOf(list[1..], x)
  }

  /** The elements of one list come in the order in which the other has them first. */
  ghost predicate OrderedBy(list: seq<string>, other: seq<string>) {
    && (forall i :: 0 <= i < |list| ==> list[i] in other)
    && forall i, j :: 0 <= i < j < |list| ==> IndexOf(other, list[i]) < IndexOf(other, list[j])
  }

  lemma OrderedThrough(a: seq<string>, b: seq<string>, c: seq<string>)
    requires OrderedBy(a, b) && OrderedBy(b, c)
    ensures OrderedBy(a, c)
  {
    forall i, j | 0 <= i < j < |a| ensures IndexOf(c, a[i]) < IndexOf(c, a[j]) {
      var p, q := IndexOf(b, a[i]), IndexOf(b, a[j]);
      assert b[p] == a[i] && b[q] == a[j];
    }
  }

  lemma WithoutOrdered(list: seq<string>, drop: set<string>)
    requires NoDup(list)
    ensures OrderedBy(Without(list, drop), list)
  {
    var at := WithoutKeeps(list, drop, 0);
    assert list[0..] == list;
    var rest := Without(list, drop);
    forall i, j | 0 <= i < j < |rest| ensures IndexOf(list, rest[i]) < IndexOf(list, rest[j]) {
      IndexIs(list, at[i]);
      IndexIs(list, at[j]);
    }
  }

  lemma IndexIs(list: seq<string>, k: nat)
    requires NoDup(list) && k < |list|
    ensures IndexOf(list, list[k]) == k
  {
  }

  /** None of the elements occurs in the list. */
  predicate NewTo(more: seq<string>, s: seq<string>) {
    forall i :: 0 <= i < |more| ==> more[i] !in s
  }

  lemma OrderedMore(rest: seq<string>, xs: seq<string>)
    requires xs != [] && OrderedBy(rest, xs[1..]) && xs[0] !in rest
    ensures OrderedBy(rest, xs) && OrderedBy([xs[0]] + rest, xs)
  {
    forall i | 0 <= i < |rest| ensures IndexOf(xs, rest[i]) == 1 + IndexOf(xs[1..], rest[i]) && rest[i] in xs {
      assert rest[i] in rest;
    }
  }

  /** Adding a list appends what is new of it, in its order. */
  lemma {:induction false} AddAllAppends(s: seq<string>, xs: seq<string>) returns (more: seq<string>)
    ensures AddAll(s, xs) == s + more && OrderedBy(more, xs) && NewTo(more, s)
    decreases |xs|
  {
    hide OrderedBy, AsSet, NewTo, NoDup, Add;
    if xs == [] {
      more := [];
      NothingOrdered(s, xs);
    } else {
      var rest := AddAllAppends(Add(s, xs[0]), xs[1..]);
      more := if xs[0] in s then rest else [xs[0]] + rest;
      NewToMore(s, xs[0], rest);
      OrderedMore(rest, xs);
      AddedOne(s, xs[0], rest);
    }
  }

  lemma NewToMore(s: seq<string>, x: string, rest: seq<string>)
    requires NewTo(rest, Add(s, x))
    ensures NewTo(rest, s) && x !in rest && (x !in s ==> NewTo([x] + rest, s))
  {
    assert x in AsSet(Add(s, x));
  }

  lemma AddedOne(s: seq<string>, x: string, rest: seq<string>)
    ensures Add(s, x) + rest == if x in s then s + rest else s + ([x] + rest)
  {
  }

  lemma NothingOrdered(s: seq<string>, xs: seq<string>)
    ensures OrderedBy([], xs) && NewTo([], s)
  {
  }

  lemma DedupOrdered(list: seq<string>)
    ensures OrderedBy(Dedup(list), list)
  {
    var more := AddAllAppends([], list);
    assert Dedup(list) == more;
  }

  // ---- New nodes ----

  /** An edge to `x` comes before every edge to `y`. */
  ghost predicate LedEarlier(d: Definition, id: string, handle: string, x: string, y: string) {
    exists p: nat :: LeadsAt(d, id, handle, p, x) && forall q: nat :: LeadsAt(d, id, handle, q, y) ==> p < q
  }

  predicate LeadsAt(d: Definition, id: string, handle: string, p: nat, x: string) {
    && p < |d.edges| && d.edges[p].source == id && d.edges[p].target == x
    && (handle == "" || d.edges[p].sourceHandle == "" || d.edges[p].sourceHandle == handle)
  }

  /** The targets of the edges from the one at `from` on, with the places of their edges. */
  lemma {:induction false} TargetsInOrder(d: Definition, id: string, handle: string, from: nat) returns (at: seq<nat>)
    requires from <= |d.edges|
    ensures TargetsAt(d, id, handle, from, Targets(EdgesFrom(d.edges[from..], id), handle), at)
    decreases |d.edges| - from
  {
    hide TargetsAt;
    if from == |d.edges| {
      at := [];
      NoTargets(d, id, handle);
    } else {
      var e := d.edges[from];
      var rest := TargetsInOrder(d, id, handle, from + 1);
      assert d.edges[from..][1..] == d.edges[from + 1..];
      TargetsOfMore(d.edges[from..], id, handle);
      at := if e.source == id && Follows(e, handle) then [from] + rest else rest;
      TargetsOneMore(d, id, handle, from, Targets(EdgesFrom(d.edges[from + 1..], id), handle), rest,
                     Targets(EdgesFrom(d.edges[from..], id), handle), at);
    }
  }

  ghost predicate TargetsAt(d: Definition, id: string, handle: string, from: nat, targets: seq<string>, at: seq<nat>) {
    && |targets| == |at|
    && (forall k :: 0 <= k < |at| ==> from <= at[k] && LeadsAt(d, id, handle, at[k], targets[k]))
    && Rising(at)
    && (forall q: nat, x {:trigger q in at, LeadsAt(d, id, handle, q, x)} ::
          from <= q && LeadsAt(d, id, handle, q, x) ==> q in at)
  }

  lemma NoTargets(d: Definition, id: string, handle: string)
    ensures TargetsAt(d, id, handle, |d.edges|, [], [])
  {
  }

  lemma TargetsOfMore(edges: seq<Edge>, id: string, handle: string)
    requires edges != []
    ensures Targets(EdgesFrom(edges, id), handle)
            == (if edges[0].source == id && Follows(edges[0], handle) then [edges[0].target] else [])
               + Targets(EdgesFrom(edges[1..], id), handle)
  {
    if edges[0].source == id {
      assert EdgesFrom(edges, id)[1..] == EdgesFrom(edges[1..], id);
    }
  }

  lemma LeadsHere(d: Definition, id: string, handle: string, p: nat)
    requires p < |d.edges|
    ensures var e := d.edges[p];
            forall x :: LeadsAt(d, id, handle, p, x) <==> e.source == id && Follows(e, handle) && x == e.target
  {
  }

  lemma TargetsOneMore(d: Definition, id: string, handle: string, from: nat, rest: seq<string>, at: seq<nat>,
                       targets: seq<string>, at': seq<nat>)
    requires from < |d.edges| && TargetsAt(d, id, handle, from + 1, rest, at)
    requires var e := d.edges[from];
             if e.source == id && Follows(e, handle) then targets == [e.target] + rest && at' == [from] + at
             else targets == rest && at' == at
    ensures TargetsAt(d, id, handle, from, targets, at')
  {
    hide Rising, LeadsAt, Follows;
    RisingMore(from, at);
    LeadsHere(d, id, handle, from);
    forall k | 0 <= k < |at'| ensures from <= at'[k] && LeadsAt(d, id, handle, at'[k], targets[k]) {
      assert at' == at || k == 0 || (at'[k] == at[k - 1] && targets[k] == rest[k - 1]);
    }
    forall q: nat, x | from <= q && LeadsAt(d, id, handle, q, x) ensures q in at' {
      assert q == from || q in at;
    }
  }

  lemma OneTarget(d: Definition, id: string, handle: string, q: nat, x: string, y: string)
    requires LeadsAt(d, id, handle, q, x) && LeadsAt(d, id, handle, q, y)
    ensures x == y
  {
  }

  lemma TargetsLedEarlier(d: Definition, id: string, handle: string, x: string, y: string)
    requires var targets := Targets(EdgesFrom(d.edges, id), handle);
             x in targets && y in targets && IndexOf(targets, x) < IndexOf(targets, y)
    ensures LedEarlier(d, id, handle, x, y)
  {
    hide LeadsAt, Targets, EdgesFrom;
    var targets := Targets(EdgesFrom(d.edges, id), handle);
    var at := TargetsInOrder(d, id, handle, 0);
    assert d.edges[0..] == d.edges;
    var i, j := IndexOf(targets, x), IndexOf(targets, y);
    assert LeadsAt(d, id, handle, at[i], x);
    forall q: nat | LeadsAt(d, id, handle, q, y) ensures at[i] < q {
      assert q in at;
      var k :| 0 <= k < |at| && at[k] == q;
      assert LeadsAt(d, id, handle, at[k], targets[k]);
      OneTarget(d, id, handle, q, y, targets[k]);
    }
  }

  // ---- The frontier after a completion ----

  /** `x` comes before `y`: nodes that were in the frontier come first and in their order. */
  ghost predicate Precedes(d: Definition, s: State, id: string, handle: string, x: string, y: string) {
    if x in s.current then y in s.current ==> IndexOf(s.current, x) < IndexOf(s.current, y)
    else y !in s.current && LedEarlier(d, id, handle, x, y)
  }

  /**
   * After a completion the frontier holds each node once: those it held before, in their order, and
   * behind them the new ones in the order of the edges that lead to them.
   */
  lemma FrontierOrder(d: Definition, s: State, id: string, value: Value, handle: string, i: nat, j: nat)
    requires i < j < |Apply(d, s, Finish(id, value, handle)).current|
    ensures var current := Apply(d, s, Finish(id, value, handle)).current;
            current[i] != current[j] && Precedes(d, s, id, handle, current[i], current[j])
  {
    hide OrderedBy, NewTo, LedEarlier, Precedes, NoDup, AsSet;
    var kept, down := Without(Dedup(s.current), {id}), Downstream(d, [id], handle);
    var reached := Without(down, AsSet(s.completed + [id]));
    var more := AddAllAppends(kept, reached);
    DedupOrdered(s.current);
    WithoutOrdered(Dedup(s.current), {id});
    OrderedThrough(kept, Dedup(s.current), s.current);
    NewOrdered(d, s, id, handle, kept, reached, more);
    OldStay(s.current, id, kept);
    assert Apply(d, s, Finish(id, value, handle)).current == kept + more;
    InTwoParts(d, s, id, handle, kept, more, i, j);
  }

  lemma InTwoParts(d: Definition, s: State, id: string, handle: string, kept: seq<string>, more: seq<string>, i: nat,
                   j: nat)
    requires i < j < |kept + more| && OrderedBy(kept, s.current) && NewTo(more, kept)
    requires forall x :: x in kept <==> x in s.current && x != id
    requires forall a, b :: 0 <= a < b < |more| ==> LedEarlier(d, id, handle, more[a], more[b])
    requires forall a :: 0 <= a < |more| ==> more[a] != id
    requires forall a, b :: 0 <= a < b < |more| ==> more[a] != more[b]
    ensures (kept + more)[i] != (kept + more)[j] && Precedes(d, s, id, handle, (kept + more)[i], (kept + more)[j])
  {
    hide LedEarlier;
    var x, y := (kept + more)[i], (kept + more)[j];
    assert x == if i < |kept| then kept[i] else more[i - |kept|];
    assert y == if j < |kept| then kept[j] else more[j - |kept|];
  }

  lemma OldStay(current: seq<string>, id: string, kept: seq<string>)
    requires kept == Without(Dedup(current), {id})
    ensures forall x :: x in kept <==> x in current && x != id
  {
    forall x ensures x in kept <==> x in current && x != id {
      assert x in kept <==> x in AsSet(kept);
    }
  }

  lemma NewOrdered(d: Definition, s: State, id: string, handle: string, kept: seq<string>, reached: seq<string>,
                   more: seq<string>)
    requires reached == Without(Downstream(d, [id], handle), AsSet(s.completed + [id])) && OrderedBy(more, reached)
    ensures forall i, j :: 0 <= i < j < |more| ==> LedEarlier(d, id, handle, more[i], more[j])
    ensures forall i :: 0 <= i < |more| ==> more[i] != id
    ensures forall i, j :: 0 <= i < j < |more| ==> more[i] != more[j]
  {
    var down, targets := Downstream(d, [id], handle), Targets(Outgoing(d, id), handle);
    assert [id][..0] == [];
    assert down == AddAll([], targets) == Dedup(targets);
    WithoutOrdered(down, AsSet(s.completed + [id]));
    DedupOrdered(targets);
    OrderedThrough(reached, down, targets);
    OrderedThrough(more, reached, targets);
    forall i, j | 0 <= i < j < |more| ensures LedEarlier(d, id, handle, more[i], more[j]) {
      TargetsLedEarlier(d, id, handle, more[i], more[j]);
    }
    forall i | 0 <= i < |more| ensures more[i] != id {
      assert more[i] in AsSet(reached) && id in AsSet(s.completed + [id]);
    }
  }
}
