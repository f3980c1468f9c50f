/** Directory listings: names in code point order, read page by page. */
module FilesListing {
  import opened Basics
  import opened FilesIndex

  // ---- Names in order ----

  predicate Less(a: string, b: string) {
    if b == "" then false
    else if a == "" then true
    else a[0] < b[0] || (a[0] == b[0] && Less(a[1..], b[1..]))
  }

  /** `a` is a proper prefix of `b`, or its first different character is the smaller one. */
  ghost predicate Before(a: string, b: string) {
    exists k :: 0 <= k <= |a| && k < |b| && a[..k] == b[..k] && (k == |a| || a[k] < b[k])
  }

  /** Names are ordered by their characters. */
  lemma {:induction false} LessExactly(a: string, b: string)
    ensures Less(a, b) <==> Before(a, b)
    decreases |a|
  {
    if a == "" || b == "" {
      assert a[..0] == b[..0];
    } else if a[0] == b[0] {
      LessExactly(a[1..], b[1..]);
      OneCharacterMore(a, b);
    } else {
      assert a[..0] == b[..0];
      assert forall k :: 0 < k <= |a| && k < |b| ==> a[..k][0] != b[..k][0];
    }
  }

  lemma OneCharacterMore(a: string, b: string)
    requires a != "" && b != "" && a[0] == b[0]
    ensures Before(a, b) <==> Before(a[1..], b[1..])
  {
    if k :| 0 <= k <= |a| && k < |b| && a[..k] == b[..k] && (k == |a| || a[k] < b[k]) {
      assert k > 0 && a[1..][..k - 1] == a[..k][1..] && b[1..][..k - 1] == b[..k][1..];
    }
    var x, y := a[1..], b[1..];
    if k :| 0 <= k <= |x| && k < |y| && x[..k] == y[..k] && (k == |x| || x[k] < y[k]) {
      assert a[..k + 1] == [a[0]] + x[..k] && b[..k + 1] == [b[0]] + y[..k];
    }
  }

  lemma {:induction false} LessOrMore(a: string, b: string)
    requires a != b
    ensures Less(a, b) || Less(b, a)
    decreases |a|
  {
    if a != "" && b != "" && a[0] == b[0] {
      assert a == [a[0]] + a[1..] && b == [b[0]] + b[1..];
      LessOrMore(a[1..], b[1..]);
    }
  }

  lemma {:induction false} LessOn(a: string, b: string, c: string)
    requires Less(a, b) && Less(b, c)
    ensures Less(a, c)
    decreases |a|
  {
    if a != "" && a[0] == b[0] == c[0] {
      LessOn(a[1..], b[1..], c[1..]);
    }
  }

  lemma {:induction false} NotLessItself(a: string)
    ensures !Less(a, a)
    decreases |a|
  {
    if a != "" {
      NotLessItself(a[1..]);
    }
  }

  ghost predicate Sorted(names: seq<string>) {
    forall i, j :: 0 <= i < j < |names| ==> Less(names[i], names[j])
  }

  function NamesOf(names: seq<string>): set<string> {
    set n | n in names
  }

  /** There is one sorted listing of a set of names. */
  lemma {:induction false} SortedIsUnique(xs: seq<string>, ys: seq<string>)
    requires Sorted(xs) && Sorted(ys) && NamesOf(xs) == NamesOf(ys)
    ensures xs == ys
    decreases |xs|
  {
    assert ys != [] ==> ys[0] in NamesOf(ys);
    if xs != [] {
      assert xs[0] in NamesOf(xs);
      SameFirst(xs, ys);
      SameRest(xs, ys);
      assert xs == [xs[0]] + xs[1..] && ys == [ys[0]] + ys[1..];
      SortedIsUnique(xs[1..], ys[1..]);
    }
  }

  lemma SameFirst(xs: seq<string>, ys: seq<string>)
    requires Sorted(xs) && Sorted(ys) && NamesOf(xs) == NamesOf(ys) && xs != []
    ensures ys != [] && xs[0] == ys[0]
  {
    assert xs[0] in NamesOf(ys);
    assert ys[0] in NamesOf(xs);
    var i :| 0 <= i < |ys| && ys[i] == xs[0];
    var j :| 0 <= j < |xs| && xs[j] == ys[0];
    if i > 0 && j > 0 {
      LessOn(xs[0], ys[0], xs[0]);
      NotLessItself(xs[0]);
    }
  }

  lemma SameRest(xs: seq<string>, ys: seq<string>)
    requires Sorted(xs) && Sorted(ys) && NamesOf(xs) == NamesOf(ys) && xs != [] && ys != [] && xs[0] == ys[0]
    ensures NamesOf(xs[1..]) == NamesOf(ys[1..])
  {
    RestOf(xs);
    RestOf(ys);
  }

  lemma RestOf(xs: seq<string>)
    requires Sorted(xs) && xs != []
    ensures NamesOf(xs[1..]) == NamesOf(xs) - {xs[0]}
  {
    assert xs == [xs[0]] + xs[1..];
    forall i | 0 < i < |xs| ensures xs[i] != xs[0] {
      NotLessItself(xs[0]);
    }
  }

  /** Inserts a new name into a sorted listing. */
  method Insert(names: seq<string>, name: string) returns (r: seq<string>)
    requires Sorted(names) && name !in names
    ensures Sorted(r) && NamesOf(r) == NamesOf(names) + {name}
  {
    var at := 0;
    while at < |names| && Less(names[at], name)
      invariant at <= |names| && forall i :: 0 <= i < at ==> Less(names[i], name)
    {
      at := at + 1;
    }
    InsertedIsSorted(names, at, name);
    r := names[..at] + [name] + names[at..];
  }

  lemma InsertedIsSorted(names: seq<string>, at: nat, name: string)
    requires Sorted(names) && name !in names && at <= |names|
    requires forall i :: 0 <= i < at ==> Less(names[i], name)
    requires at < |names| ==> !Less(names[at], name)
    ensures var r := names[..at] + [name] + names[at..]; Sorted(r) && NamesOf(r) == NamesOf(names) + {name}
  {
    hide Less;
    var r := names[..at] + [name] + names[at..];
    forall i | at <= i < |names| ensures Less(name, names[i]) {
      LessOrMore(name, names[at]);
      if i > at { LessOn(name, names[at], names[i]); }
    }
    forall x ensures x in r <==> x in names || x == name {
      assert names == names[..at] + names[at..];
    }
  }

  method SortNames(names: set<string>) returns (r: seq<string>)
    ensures Sorted(r) && NamesOf(r) == names
  {
    r := [];
    var left := names;
    while left != {}
      invariant left <= names && Sorted(r) && NamesOf(r) == names - left
      decreases |left|
    {
      var name :| name in left;
      assert name in r ==> name in NamesOf(r);
      r := Insert(r, name);
      left := left - {name};
    }
  }

  // ---- Pages ----

  ghost predicate ListingOf(ix: Index, dir: Path, names: seq<string>) {
    Sorted(names) && NamesOf(names) == Children(ix, dir).Keys
  }

  /** What one read from `start` with room for `room` entries returns. */
  ghost predicate PageOf(ix: Index, dir: Path, start: nat, room: nat, page: seq<string>) {
    exists names :: ListingOf(ix, dir, names) && page == names[Min(start, |names|)..Min(start + room, |names|)]
  }

  function Joined(pages: seq<seq<string>>): seq<string> {
    if pages == [] then [] else Joined(pages[..|pages| - 1]) + pages[|pages| - 1]
  }

  /** Every page continues where those before it ended. */
  ghost predicate Continued(ix: Index, dir: Path, rooms: seq<nat>, pages: seq<seq<string>>)
    requires |rooms| == |pages|
  {
    pages == [] ||
    var n := |pages| - 1;
    Continued(ix, dir, rooms[..n], pages[..n]) && PageOf(ix, dir, |Joined(pages[..n])|, rooms[n], pages[n])
  }

  lemma PageIs(ix: Index, dir: Path, start: nat, room: nat, page: seq<string>, names: seq<string>)
    requires PageOf(ix, dir, start, room, page) && ListingOf(ix, dir, names) && start <= |names|
    ensures names[..start] + page == names[..Min(start + room, |names|)]
    ensures page == [] && room > 0 ==> start == |names|
  {
    var names' :| ListingOf(ix, dir, names') && page == names'[Min(start, |names'|)..Min(start + room, |names'|)];
    SortedIsUnique(names, names');
    OnePage(names, start, Min(start + room, |names|), page);
  }

  lemma OnePage(names: seq<string>, start: nat, end: nat, page: seq<string>)
    requires start <= end <= |names| && page == names[start..end]
    ensures names[..start] + page == names[..end]
  {
  }

  lemma {:induction false} PagesArePrefix(ix: Index, dir: Path, rooms: seq<nat>, pages: seq<seq<string>>,
                                          names: seq<string>)
    requires |rooms| == |pages| && Continued(ix, dir, rooms, pages) && ListingOf(ix, dir, names)
    ensures |Joined(pages)| <= |names| && Joined(pages) == names[..|Joined(pages)|]
    decreases |pages|
  {
    if pages != [] {
      var n := |pages| - 1;
      PagesArePrefix(ix, dir, rooms[..n], pages[..n], names);
      PageIs(ix, dir, |Joined(pages[..n])|, rooms[n], pages[n], names);
    }
  }

  /**
   * Reading page after page of an unchanged directory, whatever the sizes, until a page comes back
   * empty although there was room lists every name exactly once, in order.
   */
  lemma PagesListEverything(ix: Index, dir: Path, rooms: seq<nat>, pages: seq<seq<string>>, names: seq<string>)
    requires |rooms| == |pages| && Continued(ix, dir, rooms, pages) && ListingOf(ix, dir, names)
    requires pages != [] && pages[|pages| - 1] == [] && rooms[|pages| - 1] > 0
    ensures Joined(pages) == names
  {
    var n := |pages| - 1;
    PagesArePrefix(ix, dir, rooms[..n], pages[..n], names);
    PageIs(ix, dir, |Joined(pages[..n])|, rooms[n], pages[n], names);
  }
}
