/** Matching a free-text answer to one of a router's routes (`matchRoute` and the soft fallback). */
module Routes {
  import opened Wrappers
  import opened Basics
  import opened Texts
  import opened ToolIds

  datatype Route = Route(name: string, handleId: string)

  datatype Reason = BelowThreshold | Ambiguous

  datatype Match = Matched(route: Route) | Unmatched(reason: Reason, ranked: seq<Route>)

  function HandleOf(i: nat): string {
    "route-" + Decimal(i)
  }

  lemma HandlesDiffer(i: nat, j: nat)
    requires i != j
    ensures HandleOf(i) != HandleOf(j)
  {
    if HandleOf(i) == HandleOf(j) {
      assert HandleOf(i)[|"route-"|..] == Decimal(i) && HandleOf(j)[|"route-"|..] == Decimal(j);
      DecimalInjective(i, j);
    }
  }

  // ---- Similarity ----

  predicate IsWordChar(c: char) {
    'a' <= c <= 'z' || 'A' <= c <= 'Z' || '0' <= c <= '9' || c == '_'
  }

  function Flush(word: string): set<string> {
    if word == "" then {} else {word}
  }

  /** The maximal runs of word characters; `word` is the run being read. */
  function Words(s: string, word: string): set<string> {
    if s == "" then Flush(word)
    else if IsWordChar(s[0]) then Words(s[1..], word + [s[0]])
    else Flush(word) + Words(s[1..], "")
  }

  function Tokens(lower: string -> string, text: string): set<string> {
    Words(lower(text), "")
  }

  predicate AllWord(s: string) {
    forall k :: 0 <= k < |s| ==> IsWordChar(s[k])
  }

  /** The word stands in the text at `i`, with neither a word character before it nor one behind. */
  predicate StandsAt(text: string, w: string, i: nat) {
    && w != "" && AllWord(w)
    && i + |w| <= |text| && text[i..i + |w|] == w
    && (i > 0 ==> !IsWordChar(text[i - 1]))
    && (i + |w| < |text| ==> !IsWordChar(text[i + |w|]))
  }

  /** The tokens of a text are exactly the words that stand in it, split at anything else. */
  lemma TokensAreWords(lower: string -> string, text: string, w: string)
    ensures w in Tokens(lower, text) <==> exists i: nat :: StandsAt(lower(text), w, i)
  {
    WordsStand(lower(text), "", w);
    assert "" + lower(text) == lower(text);
  }

  lemma {:induction false} WordsStand(s: string, word: string, w: string)
    requires AllWord(word)
    ensures w in Words(s, word) <==> exists i: nat :: StandsAt(word + s, w, i)
  {
    var text := word + s;
    if s == "" {
      assert text == word;
      OnlyWord(word, w);
    } else if IsWordChar(s[0]) {
      assert word + [s[0]] + s[1..] == text;
      WordsStand(s[1..], word + [s[0]], w);
    } else {
      var rest := s[1..];
      assert text == word + [s[0]] + rest && "" + rest == rest;
      WordsStand(rest, "", w);
      SplitWords(word, s[0], rest, w);
    }
  }

  lemma OnlyWord(word: string, w: string)
    requires AllWord(word)
    ensures w in Flush(word) <==> exists i: nat :: StandsAt(word, w, i)
  {
    assert word[0..|word|] == word;
    if w in Flush(word) {
      assert StandsAt(word, w, 0);
    }
    forall i: nat | StandsAt(word, w, i) ensures i == 0 && |w| == |word| {}
  }

  /** Words of a text whose first word ends before a character that is none. */
  lemma SplitWords(word: string, c: char, rest: string, w: string)
    requires AllWord(word) && !IsWordChar(c)
    ensures (exists i: nat :: StandsAt(word + [c] + rest, w, i))
            <==> w in Flush(word) || exists i: nat :: StandsAt(rest, w, i)
  {
    var text, n := word + [c] + rest, |word| + 1;
    if w in Flush(word) {
      assert StandsAt(text, w, 0);
    }
    if i: nat :| StandsAt(rest, w, i) {
      StandsLater(text, rest, w, n, i);
    }
    if i: nat :| StandsAt(text, w, i) {
      if i < n {
        StandsFirst(word, c, rest, text, w, i);
      } else {
        StandsLater(text, rest, w, n, i - n);
      }
    }
  }

  lemma StandsLater(text: string, rest: string, w: string, n: nat, i: nat)
    requires 0 < n <= |text| && text[n..] == rest && !IsWordChar(text[n - 1])
    ensures StandsAt(text, w, n + i) <==> StandsAt(rest, w, i)
  {
    if i + |w| <= |rest| { SliceLater(text, rest, n, i, |w|); }
    assert i > 0 && i <= |rest| ==> text[n + i - 1] == rest[i - 1];
    assert i + |w| < |rest| ==> text[n + i + |w|] == rest[i + |w|];
  }

  lemma SliceLater(text: string, rest: string, n: nat, i: nat, m: nat)
    requires n <= |text| && text[n..] == rest && i + m <= |rest|
    ensures text[n + i..n + i + m] == rest[i..i + m]
  {
    var s, t := text[n + i..n + i + m], rest[i..i + m];
    forall k | 0 <= k < m ensures s[k] == t[k] {
      assert s[k] == text[n..][i + k];
    }
  }

  lemma InFirstWord(word: string, c: char, rest: string, text: string)
    requires AllWord(word) && !IsWordChar(c) && text == word + [c] + rest
    ensures forall k :: 0 <= k <= |word| ==> (IsWordChar(text[k]) <==> k < |word|)
  {
    forall k | 0 <= k <= |word| ensures IsWordChar(text[k]) <==> k < |word| {
      assert text[k] == if k < |word| then word[k] else c;
    }
  }

  lemma WordCharsAt(text: string, w: string, i: nat)
    requires StandsAt(text, w, i)
    ensures forall k :: i <= k < i + |w| ==> IsWordChar(text[k])
  {
    forall k | i <= k < i + |w| ensures IsWordChar(text[k]) {
      assert text[k] == text[i..i + |w|][k - i] == w[k - i];
    }
  }

  lemma StandsFirst(word: string, c: char, rest: string, text: string, w: string, i: nat)
    requires AllWord(word) && !IsWordChar(c) && text == word + [c] + rest && StandsAt(text, w, i) && i <= |word|
    ensures w in Flush(word)
  {
    InFirstWord(word, c, rest, text);
    WordCharsAt(text, w, i);
    assert !IsWordChar(text[|word|]);
    assert text[..|word|] == word;
  }

  /** Jaccard similarity of two token sets, as an exact ratio. */
  function Jaccard(a: set<string>, b: set<string>): real {
    if a == {} && b == {} then 1.0
    else if a == {} || b == {} then 0.0
    else |a * b| as real / |a + b| as real
  }

  /** A score lies in [0, 1]; it is 1 for equal token sets only, 0 for disjoint ones only, and symmetric. */
  lemma JaccardRange(a: set<string>, b: set<string>)
    ensures 0.0 <= Jaccard(a, b) <= 1.0
    ensures Jaccard(a, b) == 1.0 <==> a == b
    ensures Jaccard(a, b) == 0.0 <==> a * b == {} && a + b != {}
    ensures Jaccard(a, b) == Jaccard(b, a)
  {
    assert a * b == b * a && a + b == b + a;
    SubsetSize(a * b, a + b);
    if a != {} && b != {} {
      assert |a + b| > 0 by { SubsetSize(a, a + b); }
      Ratio(|a * b|, |a + b|);
      assert a * b == a + b <==> a == b;
      assert |a * b| == 0 <==> a * b == {};
    }
  }

  lemma Ratio(m: nat, n: nat)
    requires m <= n && n > 0
    ensures 0.0 <= m as real / n as real <= 1.0
    ensures m as real / n as real == 1.0 <==> m == n
    ensures m as real / n as real == 0.0 <==> m == 0
  {
    var q := m as real / n as real;
    assert q * n as real == m as real;
  }

  // ---- The cascade ----

  const THRESHOLD := 0.4
  const MARGIN := 0.15

  function Score(lower: string -> string, answer: string, r: Route): real {
    Jaccard(Tokens(lower, answer), Tokens(lower, r.name))
  }

  /** How well each route answers, as a function of the route. */
  function Scores(lower: string -> string, answer: string): Route -> real {
    r => Score(lower, answer, r)
  }

  function Insert(score: Route -> real, r: Route, ranked: seq<Route>): seq<Route> {
    if ranked == [] || score(ranked[0]) <= score(r) then [r] + ranked
    else [ranked[0]] + Insert(score, r, ranked[1..])
  }

  /** Routes by falling score; equal scores keep their order. */
  function Rank(score: Route -> real, routes: seq<Route>): seq<Route> {
    if routes == [] then [] else Insert(score, routes[0], Rank(score, routes[1..]))
  }

  function Exact(lower: string -> string, answer: string, routes: seq<Route>): (r: Option<Route>)
    ensures r.Some? ==> r.value in routes && lower(r.value.name) == lower(answer)
    ensures r.None? ==> forall x :: x in routes ==> lower(x.name) != lower(answer)
  {
    if routes == [] then None
    else if lower(routes[0].name) == lower(answer) then Some(routes[0])
    else Exact(lower, answer, routes[1..])
  }

  /** What the ranking decides. */
  function Judge(score: Route -> real, ranked: seq<Route>): Match
    requires ranked != []
  {
    var best := score(ranked[0]);
    if best < THRESHOLD then Unmatched(BelowThreshold, ranked)
    else if |ranked| > 1 && best - score(ranked[1]) < MARGIN then Unmatched(Ambiguous, ranked)
    else Matched(ranked[0])
  }

  /** A router always has a route, so the ranking has a first entry. */
  function MatchRoute(lower: string -> string, answer: string, routes: seq<Route>): Match
    requires routes != []
  {
    var trimmed := Trim(answer);
    var score := Scores(lower, trimmed);
    match Exact(lower, trimmed, routes)
    case Some(route) => Matched(route)
    case None =>
      RankedIsPermutation(score, routes);
      Judge(score, Rank(score, routes))
  }

  function FindByName(routes: seq<Route>, name: string): (r: Option<Route>)
    ensures r.Some? ==> r.value in routes && r.value.name == name
    ensures r.None? ==> forall x :: x in routes ==> x.name != name
  {
    if routes == [] then None
    else if routes[0].name == name then Some(routes[0])
    else FindByName(routes[1..], name)
  }

  /** After a failed retry: the best route, unless nothing overlaps at all. */
  function Fallback(score: Route -> real, routes: seq<Route>, ranked: seq<Route>): Option<Route> {
    if ranked == [] || score(ranked[0]) <= 0.0 then None
    else FindByName(routes, ranked[0].name)
  }

  // ---- Ranking ----

  ghost predicate Falling(score: Route -> real, ranked: seq<Route>) {
    forall i, j :: 0 <= i < j < |ranked| ==> score(ranked[i]) >= score(ranked[j])
  }

  lemma {:induction false} InsertAdds(score: Route -> real, r: Route, ranked: seq<Route>)
    ensures multiset(Insert(score, r, ranked)) == multiset(ranked) + multiset{r}
  {
    if ranked == [] || score(ranked[0]) <= score(r) {
    } else {
      InsertAdds(score, r, ranked[1..]);
      assert multiset([ranked[0]] + ranked[1..]) == multiset{ranked[0]} + multiset(ranked[1..]);
      assert ranked == [ranked[0]] + ranked[1..];
    }
  }

  lemma {:induction false} InsertKeepsOrder(score: Route -> real, r: Route, ranked: seq<Route>)
    requires Falling(score, ranked)
    ensures Falling(score, Insert(score, r, ranked))
  {
    if ranked == [] || score(ranked[0]) <= score(r) {
    } else {
      InsertKeepsOrder(score, r, ranked[1..]);
      InsertAdds(score, r, ranked[1..]);
      var rest := Insert(score, r, ranked[1..]);
      forall j | 0 <= j < |rest| ensures score(ranked[0]) >= score(rest[j]) {
        assert rest[j] in multiset(rest);
        assert rest[j] == r || rest[j] in ranked[1..];
      }
    }
  }

  lemma {:induction false} RankedIsPermutation(score: Route -> real, routes: seq<Route>)
    ensures multiset(Rank(score, routes)) == multiset(routes)
    ensures |Rank(score, routes)| == |routes|
    ensures Falling(score, Rank(score, routes))
  {
    if routes != [] {
      RankedIsPermutation(score, routes[1..]);
      InsertAdds(score, routes[0], Rank(score, routes[1..]));
      InsertKeepsOrder(score, routes[0], Rank(score, routes[1..]));
      assert routes == [routes[0]] + routes[1..];
      assert |multiset(Rank(score, routes))| == |multiset(routes)|;
    }
  }

  // ---- What the cascade promises ----

  /** No two routes carry the same label once case is ignored. */
  ghost predicate DistinctNames(lower: string -> string, routes: seq<Route>) {
    forall i, j :: 0 <= i < j < |routes| ==> lower(routes[i].name) != lower(routes[j].name)
  }

  /** No route occurs twice; routes of one decision have handles of their own. */
  ghost predicate Different(routes: seq<Route>) {
    forall i, j :: 0 <= i < j < |routes| ==> routes[i] != routes[j]
  }

  /** `r` scores enough and beats every other route by the margin. */
  ghost predicate ClearWinner(score: Route -> real, routes: seq<Route>, r: Route) {
    && r in routes
    && score(r) >= 0.4
    && forall x :: x in routes && x != r ==> score(r) - score(x) >= 0.15
  }

  lemma FallingFirst(score: Route -> real, ranked: seq<Route>, x: Route)
    requires Falling(score, ranked) && x in ranked
    ensures score(ranked[0]) >= score(x)
    ensures x != ranked[0] ==> |ranked| > 1 && score(ranked[1]) >= score(x)
  {
    var k :| 0 <= k < |ranked| && ranked[k] == x;
  }

  /**
   * Without an exact label, a route is chosen exactly when it is the clear winner: this names
   * the route without mentioning any order.
   */
  lemma SimilarityMatchExactly(lower: string -> string, answer: string, routes: seq<Route>, r: Route)
    requires routes != [] && Different(routes) && Exact(lower, Trim(answer), routes).None?
    ensures MatchRoute(lower, answer, routes) == Matched(r) <==> ClearWinner(Scores(lower, Trim(answer)), routes, r)
  {
    var score := Scores(lower, Trim(answer));
    var ranked := Rank(score, routes);
    RankedIsPermutation(score, routes);
    RankedMembers(routes, ranked);
    RankedDifferent(routes, ranked);
    if ClearWinner(score, routes, r) {
      FallingFirst(score, ranked, r);
      assert ranked[0] in routes;
    }
    if MatchRoute(lower, answer, routes) == Matched(r) {
      assert r == ranked[0];
      forall x | x in routes && x != r ensures score(r) - score(x) >= MARGIN {
        FallingFirst(score, ranked, x);
      }
    }
  }

  lemma RankedMembers(routes: seq<Route>, ranked: seq<Route>)
    requires multiset(ranked) == multiset(routes)
    ensures forall x :: x in ranked <==> x in routes
  {
    forall x ensures x in ranked <==> x in routes {
      assert x in ranked <==> x in multiset(ranked);
    }
  }

  /** Different routes occur once each, in whatever order. */
  lemma RankedDifferent(routes: seq<Route>, ranked: seq<Route>)
    requires multiset(ranked) == multiset(routes) && Different(routes)
    ensures Different(ranked)
  {
    RankedMembers(routes, ranked);
    forall i, j | 0 <= i < j < |ranked| ensures ranked[i] != ranked[j] {
      if ranked[i] == ranked[j] {
        assert ranked[i] in routes;
        var k :| 0 <= k < |routes| && routes[k] == ranked[i];
        Twice(ranked, i, j);
        Once(routes, k);
      }
    }
  }

  lemma RankedDistinct(lower: string -> string, routes: seq<Route>, ranked: seq<Route>)
    requires multiset(ranked) == multiset(routes) && DistinctNames(lower, routes)
    ensures Different(ranked) && DistinctNames(lower, ranked)
  {
    RankedMembers(routes, ranked);
    RankedDifferent(routes, ranked);
    forall i, j | 0 <= i < j < |ranked| ensures lower(ranked[i].name) != lower(ranked[j].name) {
      assert ranked[i] in routes && ranked[j] in routes;
    }
  }

  lemma Twice(s: seq<Route>, i: nat, j: nat)
    requires i < j < |s| && s[i] == s[j]
    ensures multiset(s)[s[i]] >= 2
  {
    assert s == s[..i] + [s[i]] + s[i + 1..j] + [s[j]] + s[j + 1..];
  }

  lemma Once(s: seq<Route>, k: nat)
    requires k < |s| && forall i :: 0 <= i < |s| && i != k ==> s[i] != s[k]
    ensures multiset(s)[s[k]] == 1
  {
    assert s == s[..k] + [s[k]] + s[k + 1..];
    assert s[k] !in s[..k] && s[k] !in s[k + 1..];
  }

  /** The same routes in another order: the same route is matched, or the same reason given. */
  lemma OrderDoesNotMatter(lower: string -> string, answer: string, routes: seq<Route>, shuffled: seq<Route>)
    requires routes != [] && multiset(routes) == multiset(shuffled) && DistinctNames(lower, routes)
    ensures shuffled != []
    ensures var a, b := MatchRoute(lower, answer, routes), MatchRoute(lower, answer, shuffled);
            && (a.Matched? ==> a == b)
            && (a.Unmatched? ==> b.Unmatched? && a.reason == b.reason)
  {
    var a := Trim(answer);
    var score := Scores(lower, a);
    RankedMembers(routes, shuffled);
    RankedDistinct(lower, routes, shuffled);
    assert routes[0] in shuffled;
    var x, y := Exact(lower, a, routes), Exact(lower, a, shuffled);
    if x.Some? {
      assert x.value in shuffled;
      SameExact(lower, routes, x.value, y.value);
    } else {
      var r, q := Rank(score, routes), Rank(score, shuffled);
      RankedIsPermutation(score, routes);
      RankedIsPermutation(score, shuffled);
      RankedDistinct(lower, routes, r);
      SameJudgement(score, r, q);
    }
  }

  lemma SameExact(lower: string -> string, routes: seq<Route>, x: Route, y: Route)
    requires DistinctNames(lower, routes) && x in routes && y in routes && lower(x.name) == lower(y.name)
    ensures x == y
  {
  }

  lemma SameJudgement(score: Route -> real, r: seq<Route>, q: seq<Route>)
    requires r != [] && multiset(r) == multiset(q) && |r| == |q|
    requires Falling(score, r) && Falling(score, q)
    requires forall i, j :: 0 <= i < j < |r| ==> r[i] != r[j]
    ensures q != []
    ensures var a, b := Judge(score, r), Judge(score, q);
            && (a.Matched? ==> a == b)
            && (a.Unmatched? ==> b.Unmatched? && a.reason == b.reason)
  {
    RankedMembers(r, q);
    FallingFirst(score, r, q[0]);
    FallingFirst(score, q, r[0]);
    if |r| > 1 {
      if r[0] == q[0] {
        SecondSame(score, r, q);
        SecondSame(score, q, r);
      }
    }
  }

  lemma SecondSame(score: Route -> real, r: seq<Route>, q: seq<Route>)
    requires |r| > 1 && |q| > 1 && multiset(r) == multiset(q) && r[0] == q[0]
    requires Falling(score, r)
    ensures score(r[1]) >= score(q[1])
  {
    TailMultiset(r);
    TailMultiset(q);
    TailMember(r[1..], q[1..], q[1]);
    var k :| 0 <= k < |r[1..]| && r[1..][k] == q[1];
    assert r[k + 1] == q[1];
  }

  lemma TailMultiset(r: seq<Route>)
    requires r != []
    ensures multiset(r[1..]) == multiset(r) - multiset{r[0]}
  {
    assert r == [r[0]] + r[1..];
  }

  lemma TailMember(r: seq<Route>, q: seq<Route>, x: Route)
    requires multiset(r) == multiset(q) && q != [] && x == q[0]
    ensures x in r
  {
    assert x in multiset(q);
  }

  /**
   * Without a match the routes are reported by falling score, as below the threshold if all of them are and
   * as ambiguous if some route is not.
   */
  lemma UnmatchedIsRanked(lower: string -> string, answer: string, routes: seq<Route>)
    requires routes != []
    ensures var m, score := MatchRoute(lower, answer, routes), Scores(lower, Trim(answer));
            m.Unmatched? ==>
              && m.ranked == Rank(score, routes)
              && (m.reason.BelowThreshold? <==> forall x :: x in routes ==> score(x) < 0.4)
  {
    var score := Scores(lower, Trim(answer));
    var ranked := Rank(score, routes);
    RankedIsPermutation(score, routes);
    RankedMembers(routes, ranked);
    forall x | x in routes ensures score(ranked[0]) >= score(x) {
      FallingFirst(score, ranked, x);
    }
    assert ranked[0] in ranked;
  }

  /** Routes of one name score the same, as similarity scores do. */
  ghost predicate ScoresNames(score: Route -> real, routes: seq<Route>) {
    forall x, y {:trigger score(x), score(y)} :: x in routes && y in routes && x.name == y.name ==> score(x) == score(y)
  }

  lemma DistinctScore(lower: string -> string, score: Route -> real, routes: seq<Route>)
    requires DistinctNames(lower, routes)
    ensures ScoresNames(score, routes)
  {
  }

  lemma SimilarityScoresNames(lower: string -> string, answer: string, routes: seq<Route>)
    ensures ScoresNames(Scores(lower, answer), routes)
  {
  }

  /** The fallback takes a top scorer. */
  lemma FallbackIsBest(score: Route -> real, routes: seq<Route>)
    requires ScoresNames(score, routes)
    ensures var f := Fallback(score, routes, Rank(score, routes));
            if f.Some? then f.value in routes && IsTop(score, routes, f.value)
            else forall x :: x in routes ==> score(x) <= 0.0
  {
    var ranked := Rank(score, routes);
    RankedIsPermutation(score, routes);
    RankedMembers(routes, ranked);
    if ranked != [] {
      assert ranked[0] in routes;
      forall x | x in routes ensures score(ranked[0]) >= score(x) {
        FallingFirst(score, ranked, x);
      }
      assert FindByName(routes, ranked[0].name).Some?;
    }
  }

  /** Of several top scorers the fallback takes the one that comes first. */
  lemma FallbackIsFirst(score: Route -> real, routes: seq<Route>, k: nat)
    requires ScoresNames(score, routes) && k < |routes| && IsTop(score, routes, routes[k])
    requires forall j :: 0 <= j < k ==> !IsTop(score, routes, routes[j])
    ensures Fallback(score, routes, Rank(score, routes)) == Some(routes[k])
  {
    RankFirst(score, routes, k);
    FirstOfName(routes, k);
  }

  lemma {:induction false} RankFirst(score: Route -> real, routes: seq<Route>, k: nat)
    requires k < |routes| && forall j :: 0 <= j < |routes| ==> score(routes[k]) >= score(routes[j])
    requires forall j :: 0 <= j < k ==> score(routes[k]) > score(routes[j])
    ensures Rank(score, routes) != [] && Rank(score, routes)[0] == routes[k]
    decreases k
  {
    var tail := Rank(score, routes[1..]);
    RankedIsPermutation(score, routes[1..]);
    if k == 0 {
      if tail != [] { assert tail[0] in multiset(tail) && tail[0] in routes[1..]; }
    } else {
      RankFirst(score, routes[1..], k - 1);
    }
  }

  lemma {:induction false} FirstOfName(routes: seq<Route>, k: nat)
    requires k < |routes| && forall j :: 0 <= j < k ==> routes[j].name != routes[k].name
    ensures FindByName(routes, routes[k].name) == Some(routes[k])
    decreases k
  {
    if k > 0 {
      FirstOfName(routes[1..], k - 1);
    }
  }

  /** Of several exact labels the one that comes first is taken, whatever the case of the letters. */
  lemma {:induction false} ExactIsFirst(lower: string -> string, answer: string, routes: seq<Route>, k: nat)
    requires k < |routes| && lower(routes[k].name) == lower(answer)
    requires forall j :: 0 <= j < k ==> lower(routes[j].name) != lower(answer)
    ensures Exact(lower, answer, routes) == Some(routes[k])
    decreases k
  {
    if k > 0 {
      ExactIsFirst(lower, answer, routes[1..], k - 1);
    }
  }

  lemma RankTopFirst(score: Route -> real, x: Route, rest: seq<Route>)
    requires forall y :: y in rest ==> score(x) >= score(y)
    ensures Rank(score, [x] + rest) == [x] + Rank(score, rest)
  {
    var tail := Rank(score, rest);
    RankedIsPermutation(score, rest);
    assert tail != [] ==> tail[0] in multiset(tail);
    assert ([x] + rest)[1..] == rest;
  }

  lemma MovedFirst(routes: seq<Route>, k: nat) returns (shuffled: seq<Route>, rest: seq<Route>)
    requires k < |routes|
    ensures shuffled == [routes[k]] + rest && multiset(shuffled) == multiset(routes)
    ensures forall x :: x in rest ==> x in routes
  {
    rest := routes[..k] + routes[k + 1..];
    shuffled := [routes[k]] + rest;
    assert routes == routes[..k] + [routes[k]] + routes[k + 1..];
  }

  /** Another top scorer: putting it first makes the fallback take it instead. */
  lemma FallbackFollowsOrderOfTies(lower: string -> string, score: Route -> real, routes: seq<Route>, k: nat)
    returns (shuffled: seq<Route>)
    requires DistinctNames(lower, routes) && k < |routes| && score(routes[k]) > 0.0
    requires forall x :: x in routes ==> score(routes[k]) >= score(x)
    ensures multiset(shuffled) == multiset(routes)
    ensures Fallback(score, shuffled, Rank(score, shuffled)) == Some(routes[k])
  {
    var rest;
    shuffled, rest := MovedFirst(routes, k);
    RankTopFirst(score, routes[k], rest);
    assert shuffled[0] == routes[k];
  }

  /**
   * The fallback is the same for every order of the routes exactly when no two routes tie for
   * the top score (or nothing overlaps at all).
   */
  lemma FallbackOrderExactly(lower: string -> string, score: Route -> real, routes: seq<Route>)
    requires DistinctNames(lower, routes)
    ensures (forall shuffled :: multiset(shuffled) == multiset(routes) ==>
               Fallback(score, shuffled, Rank(score, shuffled))
               == Fallback(score, routes, Rank(score, routes)))
            <==> !TiedAtTop(score, routes)
  {
    if TiedAtTop(score, routes) {
      var i, j :| 0 <= i < j < |routes| && IsTop(score, routes, routes[i]) && IsTop(score, routes, routes[j]);
      var p := FallbackFollowsOrderOfTies(lower, score, routes, i);
      var q := FallbackFollowsOrderOfTies(lower, score, routes, j);
      assert lower(routes[i].name) != lower(routes[j].name);
    } else {
      forall shuffled | multiset(shuffled) == multiset(routes)
        ensures Fallback(score, shuffled, Rank(score, shuffled))
                == Fallback(score, routes, Rank(score, routes))
      {
        UniqueTopFallback(lower, score, routes, shuffled);
      }
    }
  }

  lemma UniqueTopFallback(lower: string -> string, score: Route -> real, routes: seq<Route>, shuffled: seq<Route>)
    requires DistinctNames(lower, routes) && !TiedAtTop(score, routes) && multiset(shuffled) == multiset(routes)
    ensures Fallback(score, shuffled, Rank(score, shuffled))
            == Fallback(score, routes, Rank(score, routes))
  {
    RankedMembers(routes, shuffled);
    RankedDistinct(lower, routes, shuffled);
    DistinctScore(lower, score, routes);
    DistinctScore(lower, score, shuffled);
    FallbackIsBest(score, routes);
    FallbackIsBest(score, shuffled);
    SameBest(score, routes, shuffled, Fallback(score, routes, Rank(score, routes)),
             Fallback(score, shuffled, Rank(score, shuffled)));
  }

  /** The route of a best score, or none when nothing scores. */
  ghost predicate IsBest(score: Route -> real, routes: seq<Route>, f: Option<Route>) {
    if f.Some? then f.value in routes && IsTop(score, routes, f.value) else forall x :: x in routes ==> score(x) <= 0.0
  }

  lemma SameBest(score: Route -> real, routes: seq<Route>, shuffled: seq<Route>, f: Option<Route>, g: Option<Route>)
    requires !TiedAtTop(score, routes) && (forall x :: x in shuffled <==> x in routes)
    requires IsBest(score, routes, f) && IsBest(score, shuffled, g)
    ensures f == g
  {
    if f.Some? && g.Some? {
      var i :| 0 <= i < |routes| && routes[i] == f.value;
      var j :| 0 <= j < |routes| && routes[j] == g.value;
      assert IsTop(score, routes, routes[i]) && IsTop(score, routes, routes[j]);
    }
  }

  ghost predicate IsTop(score: Route -> real, routes: seq<Route>, r: Route) {
    score(r) > 0.0 && forall x :: x in routes ==> score(r) >= score(x)
  }

  ghost predicate TiedAtTop(score: Route -> real, routes: seq<Route>) {
    exists i, j :: 0 <= i < j < |routes| && IsTop(score, routes, routes[i]) && IsTop(score, routes, routes[j])
  }
}
