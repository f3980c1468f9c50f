/**
 * Tool-call ids: every id the model sends is made provider-safe, non-empty and unique in
 * the whole transcript (`uniqueToolIds` in runTurn.ts).
 */
module ToolIds {
  import opened Basics

  /** The characters providers accept in an id: letters, digits, `_` and `-`. */
  predicate SafeChar(c: char) {
    'a' <= c <= 'z' || 'A' <= c <= 'Z' || '0' <= c <= '9' || c == '_' || c == '-'
  }

  predicate SafeText(s: string) {
    forall i :: 0 <= i < |s| ==> SafeChar(s[i])
  }

  predicate SafeId(s: string) {
    s != "" && SafeText(s)
  }

  /** Replaces each unsafe character by `_`. */
  function Sanitize(s: string): (r: string)
    ensures |r| == |s| && SafeText(r)
    ensures forall i :: 0 <= i < |s| ==> r[i] == if SafeChar(s[i]) then s[i] else '_'
  {
    seq(|s|, i requires 0 <= i < |s| => if SafeChar(s[i]) then s[i] else '_')
  }

  function Digit(d: nat): (c: char)
    requires d < 10
    ensures '0' <= c <= '9' && c as int == '0' as int + d
  {
    '0' + d as char
  }

  /** Decimal digits of `n`. */
  function Decimal(n: nat): (s: string)
    ensures SafeId(s)
  {
    if n < 10 then [Digit(n)] else Decimal(n / 10) + [Digit(n % 10)]
  }

  lemma {:induction false} DecimalInjective(a: nat, b: nat)
    requires Decimal(a) == Decimal(b)
    ensures a == b
    decreases a + b
  {
    var s, t := Decimal(a), Decimal(b);
    assert s[|s| - 1] == Digit(a % 10) && t[|t| - 1] == Digit(b % 10);
    if a < 10 || b < 10 {
      assert |s| == 1;
    } else {
      assert s[..|s| - 1] == Decimal(a / 10) && t[..|t| - 1] == Decimal(b / 10);
      DecimalInjective(a / 10, b / 10);
    }
  }

  /** `call_<iteration>_<i>`: the name given when the model's own id cannot be used. */
  function BaseName(iteration: nat, i: nat): (s: string)
    ensures SafeId(s)
  {
    "call_" + Decimal(iteration) + "_" + Decimal(i)
  }

  /** `call_<iteration>_<i>_<n>`: the name tried after the base name and n - 1 others were taken. */
  function Candidate(iteration: nat, i: nat, n: nat): (s: string)
    ensures SafeId(s)
  {
    BaseName(iteration, i) + "_" + Decimal(n)
  }

  lemma CandidatesDiffer(iteration: nat, i: nat, m: nat, n: nat)
    requires m != n
    ensures Candidate(iteration, i, m) != Candidate(iteration, i, n)
  {
    var pre := BaseName(iteration, i) + "_";
    if Candidate(iteration, i, m) == Candidate(iteration, i, n) {
      assert Candidate(iteration, i, m)[|pre|..] == Decimal(m);
      assert Candidate(iteration, i, n)[|pre|..] == Decimal(n);
      DecimalInjective(m, n);
    }
  }

  /** The taken ids that the search will still run into, starting from candidate `n`. */
  ghost function Ahead(seen: set<string>, iteration: nat, i: nat, n: nat): set<string> {
    set s | s in seen && exists m: nat :: n <= m && s == Candidate(iteration, i, m)
  }

  lemma AheadShrinks(seen: set<string>, iteration: nat, i: nat, n: nat)
    requires Candidate(iteration, i, n) in seen
    ensures |Ahead(seen, iteration, i, n + 1)| < |Ahead(seen, iteration, i, n)|
  {
    var here, next := Ahead(seen, iteration, i, n), Ahead(seen, iteration, i, n + 1);
    var c := Candidate(iteration, i, n);
    forall m: nat | n + 1 <= m ensures Candidate(iteration, i, m) != c {
      CandidatesDiffer(iteration, i, m, n);
    }
    assert c in here && c !in next;
    assert next <= here - {c};
    assert |next| <= |here - {c}| by { SubsetSize(next, here - {c}); }
  }

  /** The first candidate from `n` on that is not taken; the search ends because `seen` is finite. */
  function FirstFree(seen: set<string>, iteration: nat, i: nat, n: nat): (s: string)
    ensures s !in seen && SafeId(s)
    decreases |Ahead(seen, iteration, i, n)|
  {
    var c := Candidate(iteration, i, n);
    if c in seen then
      AheadShrinks(seen, iteration, i, n);
      FirstFree(seen, iteration, i, n + 1)
    else c
  }

  /** The id a call gets, given the ids already in the transcript. */
  function PickId(raw: string, seen: set<string>, iteration: nat, i: nat): (s: string)
    ensures s !in seen && SafeId(s)
    ensures SafeId(raw) && raw !in seen ==> s == raw
  {
    var id := Sanitize(raw);
    assert SafeText(raw) ==> id == raw;
    if id != "" && id !in seen then id
    else if BaseName(iteration, i) !in seen then BaseName(iteration, i)
    else FirstFree(seen, iteration, i, 1)
  }

  /** The model's id with each unsafe character replaced. */
  ghost predicate Cleaned(raw: string, id: string) {
    |id| == |raw| && forall k :: 0 <= k < |raw| ==> id[k] == if SafeChar(raw[k]) then raw[k] else '_'
  }

  /** `id` is the first of the counted names that is not taken. */
  ghost predicate FirstCounted(seen: set<string>, base: string, n: nat, id: string) {
    && n >= 1 && id == base + "_" + Decimal(n) && id !in seen
    && forall m :: 1 <= m < n ==> base + "_" + Decimal(m) in seen
  }

  /**
   * The id a call gets: the model's own, cleaned, if that can be used; else `call_<iteration>_<i>` if that
   * is free; else the first free one of its counted names.
   */
  lemma PickExactly(raw: string, seen: set<string>, iteration: nat, i: nat)
    ensures var id := PickId(raw, seen, iteration, i);
            var base := "call_" + Decimal(iteration) + "_" + Decimal(i);
            if exists own :: Cleaned(raw, own) && own != "" && own !in seen then Cleaned(raw, id)
            else if base !in seen then id == base
            else exists n :: FirstCounted(seen, base, n, id)
  {
    forall own | Cleaned(raw, own) ensures own == Sanitize(raw) {}
    assert Cleaned(raw, Sanitize(raw));
    var base := BaseName(iteration, i);
    var n := FirstFreeIsFirst(seen, iteration, i, 1);
    assert forall m: nat :: Candidate(iteration, i, m) == base + "_" + Decimal(m);
    assert FirstCounted(seen, base, n, FirstFree(seen, iteration, i, 1));
  }

  lemma {:induction false} FirstFreeIsFirst(seen: set<string>, iteration: nat, i: nat, from: nat) returns (n: nat)
    ensures from <= n && FirstFree(seen, iteration, i, from) == Candidate(iteration, i, n)
    ensures forall m :: from <= m < n ==> Candidate(iteration, i, m) in seen
    decreases |Ahead(seen, iteration, i, from)|
  {
    if Candidate(iteration, i, from) in seen {
      AheadShrinks(seen, iteration, i, from);
      n := FirstFreeIsFirst(seen, iteration, i, from + 1);
    } else {
      n := from;
    }
  }

  function Elements(ids: seq<string>): set<string> {
    set x | x in ids
  }

  /** The ids of one reply's calls in order, each picked against the transcript and the ones before it. */
  function UniqueIds(raws: seq<string>, seen: set<string>, iteration: nat): (ids: seq<string>)
    ensures |ids| == |raws|
    decreases |raws|
  {
    if raws == [] then []
    else
      var rest := UniqueIds(raws[..|raws| - 1], seen, iteration);
      rest + [PickId(raws[|raws| - 1], seen + Elements(rest), iteration, |raws| - 1)]
  }

  /** Non-empty, safe, pairwise different, and different from every id already in the transcript. */
  ghost predicate FreshIds(ids: seq<string>, seen: set<string>) {
    && (forall i :: 0 <= i < |ids| ==> SafeId(ids[i]) && ids[i] !in seen)
    && (forall i, j :: 0 <= i < j < |ids| ==> ids[i] != ids[j])
  }

  lemma {:induction false} UniqueIdsAreFresh(raws: seq<string>, seen: set<string>, iteration: nat)
    ensures FreshIds(UniqueIds(raws, seen, iteration), seen)
    decreases |raws|
  {
    if raws != [] {
      UniqueIdsAreFresh(raws[..|raws| - 1], seen, iteration);
    }
  }

  /** Ids that were already safe and unused are kept exactly as the model sent them. */
  lemma {:induction false} GoodIdsAreKept(raws: seq<string>, seen: set<string>, iteration: nat)
    requires FreshIds(raws, seen)
    ensures UniqueIds(raws, seen, iteration) == raws
    decreases |raws|
  {
    if raws != [] {
      var front := raws[..|raws| - 1];
      GoodIdsAreKept(front, seen, iteration);
      assert raws[|raws| - 1] !in front;
      assert raws == front + [raws[|raws| - 1]];
    }
  }

  /** The inner loop: tries further names while the one at hand is taken. */
  method Rename(raw: string, taken: set<string>, iteration: nat, i: nat) returns (id: string)
    ensures id == PickId(raw, taken, iteration, i)
  {
    id := Sanitize(raw);
    if id == "" || id in taken {
      id := BaseName(iteration, i);
      if id !in taken { return; }
      var n := 1;
      id := Candidate(iteration, i, n);
      while id in taken
        invariant n >= 1 && id == Candidate(iteration, i, n)
        invariant FirstFree(taken, iteration, i, 1) == FirstFree(taken, iteration, i, n)
        decreases |Ahead(taken, iteration, i, n)|
      {
        AheadShrinks(taken, iteration, i, n);
        n := n + 1;
        id := Candidate(iteration, i, n);
      }
    }
  }

  /** The ids of one reply, adding each to the `seen` set on the way. */
  method AssignUniqueIds(raws: seq<string>, seen: set<string>, iteration: nat)
    returns (ids: seq<string>, taken: set<string>)
    ensures ids == UniqueIds(raws, seen, iteration)
    ensures FreshIds(ids, seen)
    ensures taken == seen + Elements(ids)
  {
    ids, taken := [], seen;
    for i := 0 to |raws|
      invariant ids == UniqueIds(raws[..i], seen, iteration)
      invariant taken == seen + Elements(ids)
    {
      var id := Rename(raws[i], taken, iteration, i);
      assert raws[..i + 1][..i] == raws[..i];
      taken := taken + {id};
      ids := ids + [id];
    }
    assert raws[..|raws|] == raws;
    UniqueIdsAreFresh(raws, seen, iteration);
  }
}
