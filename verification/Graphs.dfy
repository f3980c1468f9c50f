/** Finite directed graphs over string ids: paths, reachability and the cycle found in a stuck remainder. */
module Graphs {

  type Edges = set<(string, string)>

  ghost predicate IsPath(es: Edges, p: seq<string>) {
    && |p| > 0
    && forall i :: 0 <= i < |p| - 1 ==> (p[i], p[i + 1]) in es
  }

  /** `b` is `a` itself or can be reached from it along edges. */
  ghost predicate Reaches(es: Edges, a: string, b: string) {
    exists p :: IsPath(es, p) && p[0] == a && p[|p| - 1] == b
  }

  /** Some path of at least one edge returns to where it started. */
  ghost predicate Cyclic(es: Edges) {
    exists p :: IsPath(es, p) && |p| > 1 && p[0] == p[|p| - 1]
  }

  /** `x` has a predecessor inside `s`. */
  ghost predicate HasPredIn(es: Edges, s: set<string>, x: string) {
    exists y :: y in s && (y, x) in es
  }

  /** Some path of at least one edge, all inside `s`, returns to where it started. */
  ghost predicate CyclicWithin(es: Edges, s: set<string>) {
    exists p :: IsPath(es, p) && |p| > 1 && p[0] == p[|p| - 1] && (forall x :: x in p ==> x in s)
  }

  lemma ReachesSelf(es: Edges, a: string)
    ensures Reaches(es, a, a)
  {
    assert IsPath(es, [a]) && [a][0] == a && [a][|[a]| - 1] == a;
  }

  lemma ReachesStep(es: Edges, a: string, b: string, c: string)
    requires Reaches(es, a, b) && (b, c) in es
    ensures Reaches(es, a, c)
  {
    var p :| IsPath(es, p) && p[0] == a && p[|p| - 1] == b;
    var q := p + [c];
    assert IsPath(es, q) && q[0] == a && q[|q| - 1] == c;
  }

  lemma PathFrom(es: Edges, a: string, p: seq<string>)
    requires IsPath(es, p) && (a, p[0]) in es
    ensures IsPath(es, [a] + p)
  {
    var q := [a] + p;
    forall i | 0 <= i < |q| - 1 ensures (q[i], q[i + 1]) in es {
      if i > 0 { assert (p[i - 1], p[i]) in es; }
    }
  }

  lemma StepReaches(es: Edges, a: string, b: string, c: string)
    requires (a, b) in es && Reaches(es, b, c)
    ensures Reaches(es, a, c)
  {
    var p :| IsPath(es, p) && p[0] == b && p[|p| - 1] == c;
    var q := [a] + p;
    PathFrom(es, a, p);
    assert q[0] == a && q[|q| - 1] == c;
  }

  /** An edge whose head reaches its tail closes a cycle. */
  lemma BackEdgeCloses(es: Edges, a: string, b: string)
    requires (a, b) in es && Reaches(es, b, a)
    ensures Cyclic(es)
  {
    var p :| IsPath(es, p) && p[0] == b && p[|p| - 1] == a;
    var q := [a] + p;
    PathFrom(es, a, p);
    assert |q| > 1 && q[0] == q[|q| - 1];
  }

  /** A set that contains `a` and is closed under outgoing edges contains all that `a` reaches. */
  lemma {:induction false} ClosedForward(es: Edges, s: set<string>, p: seq<string>)
    requires IsPath(es, p) && p[0] in s
    requires forall x, y :: x in s && (x, y) in es ==> y in s
    ensures p[|p| - 1] in s
    decreases |p|
  {
    if |p| > 1 {
      ClosedForward(es, s, p[1..]);
    }
  }

  /** A set closed under incoming edges, `stop` aside, contains every start of a path into it. */
  lemma {:induction false} ClosedBackward(es: Edges, s: set<string>, stop: string, p: seq<string>)
    requires IsPath(es, p) && p[|p| - 1] == stop
    requires forall x, y :: (y in s || y == stop) && (x, y) in es ==> x in s || x == stop
    ensures p[0] in s || p[0] == stop
    decreases |p|
  {
    if |p| > 1 {
      ClosedBackward(es, s, stop, p[1..]);
      assert (p[0], p[1]) in es;
    }
  }

  /** More entries than values: two positions agree. */
  lemma {:induction false} Pigeonhole(s: set<string>, p: seq<string>) returns (i: nat, j: nat)
    requires |p| > |s| && forall x :: x in p ==> x in s
    ensures i < j < |p| && p[i] == p[j]
    decreases |p|
  {
    var x := p[0];
    if k :| 1 <= k < |p| && p[k] == x {
      i, j := 0, k;
    } else {
      var i', j' := Pigeonhole(s - {x}, p[1..]);
      i, j := i' + 1, j' + 1;
    }
  }

  /** Walking to predecessors inside `s` can go on for any number of steps. */
  lemma {:induction false} LongPathWithin(es: Edges, s: set<string>, n: nat) returns (p: seq<string>)
    requires s != {}
    requires forall x :: x in s ==> HasPredIn(es, s, x)
    ensures IsPath(es, p) && |p| == n + 1 && forall x :: x in p ==> x in s
  {
    if n == 0 {
      var x :| x in s;
      p := [x];
    } else {
      var q := LongPathWithin(es, s, n - 1);
      assert q[0] in s && HasPredIn(es, s, q[0]);
      var y :| y in s && (y, q[0]) in es;
      p := [y] + q;
      assert forall i :: 0 < i < |p| - 1 ==> (p[i], p[i + 1]) == (q[i - 1], q[i]);
    }
  }

  /**
   * A non-empty finite set in which every member still has a predecessor in the set
   * contains a cycle.
   */
  lemma StuckSetHasCycle(es: Edges, s: set<string>)
    requires s != {}
    requires forall x :: x in s ==> HasPredIn(es, s, x)
    ensures CyclicWithin(es, s)
  {
    var p := LongPathWithin(es, s, |s|);
    var i, j := Pigeonhole(s, p);
    var q := p[i..j + 1];
    assert forall k :: 0 <= k < |q| - 1 ==> (q[k], q[k + 1]) == (p[i + k], p[i + k + 1]);
    assert IsPath(es, q) && |q| > 1 && q[0] == q[|q| - 1];
    assert forall x :: x in q ==> x in s;
  }

  /** In an acyclic graph every non-empty set of ids has a member without predecessor in the set. */
  lemma AcyclicHasSource(es: Edges, s: set<string>) returns (x: string)
    requires s != {} && !Cyclic(es)
    ensures x in s && forall y :: y in s ==> (y, x) !in es
  {
    if forall x :: x in s ==> HasPredIn(es, s, x) {
      StuckSetHasCycle(es, s);
      assert false;
    }
    x :| x in s && !HasPredIn(es, s, x);
  }
}
