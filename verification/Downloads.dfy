/**
 * The dependency downloads (scripts/postinstall.ts): a download starts when the last download it
 * depends on is done, and a download that fails counts as done.
 */
module Downloads {
  import opened Wrappers
  import opened Basics
  import opened Graphs

  /** A dependency for a platform, under its key, with the keys it depends on. */
  datatype Item = Item(key: string, deps: seq<string>)

  /** What the console shows: a download starting, and ending well or not. */
  datatype Event = Start(name: string) | End(name: string, ok: bool)

  datatype Outcome =
    | Finished(failed: seq<string>)
    | Unknown(item: string, dependency: string)
    | Stuck(remaining: set<string>)

  function Keys(items: seq<Item>): set<string> {
    set item | item in items :: item.key
  }

  /** What a key depends on: items with the same key add up. */
  function Deps(items: seq<Item>, key: string): seq<string> {
    if items == [] then []
    else Deps(items[..|items| - 1], key) + (if items[|items| - 1].key == key then items[|items| - 1].deps else [])
  }

  predicate DepsKnown(items: seq<Item>, item: Item) {
    forall d :: d in item.deps ==> d in Keys(items)
  }

  predicate AllKnown(items: seq<Item>) {
    forall item :: item in items ==> DepsKnown(items, item)
  }

  ghost function DepGraph(items: seq<Item>): Edges {
    set k, d | k in Keys(items) && d in Deps(items, k) :: (d, k)
  }

  // ---- What a log promises ----

  predicate Ended(log: seq<Event>, name: string) {
    End(name, true) in log || End(name, false) in log
  }

  /** The downloads that ended badly, in the order in which they ended. */
  function Failures(log: seq<Event>): seq<string> {
    if log == [] then []
    else Failures(log[..|log| - 1]) + (match log[|log| - 1] case End(name, false) => [name] case _ => [])
  }

  /** The downloads that started and did not end yet. */
  function InFlight(log: seq<Event>): multiset<string> {
    if log == [] then multiset{}
    else
      var before := InFlight(log[..|log| - 1]);
      match log[|log| - 1]
      case Start(name) => before + multiset{name}
      case End(name, _) => before - multiset{name}
  }

  /** What the installer keeps about its downloads is what the log shows. */
  ghost predicate Shown(inflight: multiset<string>, warnings: seq<string>, log: seq<Event>) {
    inflight == InFlight(log) && warnings == Failures(log)
  }

  lemma ShownOneMore(inflight: multiset<string>, warnings: seq<string>, log: seq<Event>, e: Event)
    requires Shown(inflight, warnings, log)
    ensures Shown(if e.Start? then inflight + multiset{e.name} else inflight - multiset{e.name},
                  if e.End? && !e.ok then warnings + [e.name] else warnings, log + [e])
  {
    assert (log + [e])[..|log|] == log;
  }

  /** Downloads end in the order and the way the world has them end. */
  ghost predicate EndsAs(next: multiset<string> -> (string, bool), log: seq<Event>) {
    forall i :: 0 <= i < |log| && log[i].End? ==> next(InFlight(log[..i])) == (log[i].name, log[i].ok)
  }

  /** Behind the log `before` only starts follow. */
  ghost predicate OnlyStarts(before: seq<Event>, log: seq<Event>) {
    before <= log && forall i :: |before| <= i < |log| ==> log[i].Start?
  }

  lemma NoStartsYet(log: seq<Event>)
    ensures OnlyStarts(log, log)
  {
  }

  lemma StartsOn(a: seq<Event>, b: seq<Event>, c: seq<Event>)
    requires OnlyStarts(a, b) && OnlyStarts(b, c)
    ensures OnlyStarts(a, c)
  {
  }

  lemma EndsOneMore(next: multiset<string> -> (string, bool), before: seq<Event>, name: string, ok: bool,
                    log: seq<Event>)
    requires EndsAs(next, before) && next(InFlight(before)) == (name, ok)
    requires OnlyStarts(before + [End(name, ok)], log)
    ensures EndsAs(next, log)
  {
    var n := |before|;
    assert log[..n] == before && log[n] == End(name, ok);
    forall i | 0 <= i < |log| && log[i].End? ensures next(InFlight(log[..i])) == (log[i].name, log[i].ok) {
      assert i <= n;
      if i < n {
        assert log[..i] == before[..i] && log[i] == before[i];
      }
    }
  }

  ghost predicate StartsOnce(log: seq<Event>) {
    forall i, j :: 0 <= i < j < |log| && log[i].Start? && log[j].Start? ==> log[i].name != log[j].name
  }

  ghost predicate StartsAfterDeps(items: seq<Item>, log: seq<Event>) {
    forall i :: 0 <= i < |log| && log[i].Start? ==> DepsEnded(items, log[..i], log[i].name)
  }

  ghost predicate DepsEnded(items: seq<Item>, log: seq<Event>, name: string) {
    forall d :: d in Deps(items, name) ==> Ended(log, d)
  }

  ghost predicate Orderly(items: seq<Item>, log: seq<Event>) {
    StartsOnce(log) && StartsAfterDeps(items, log)
  }

  /** Items share a key only if all of them have dependencies. */
  ghost predicate WellKeyed(items: seq<Item>) {
    forall i, j :: 0 <= i < j < |items| && items[i].key == items[j].key ==> items[i].deps != [] && items[j].deps != []
  }

  lemma OrderlyOneMore(items: seq<Item>, log: seq<Event>, name: string)
    requires Orderly(items, log) && Start(name) !in log
    requires DepsEnded(items, log, name)
    ensures Orderly(items, log + [Start(name)])
  {
    var more := log + [Start(name)];
    assert more[..|log|] == log;
    forall i | 0 <= i < |log| ensures more[..i] == log[..i] {}
  }

  /** Disorder in a log cannot be repaired later. */
  lemma DisorderStays(items: seq<Item>, log: seq<Event>, more: seq<Event>)
    requires !Orderly(items, log) && log <= more
    ensures !Orderly(items, more)
  {
    forall i | 0 <= i < |log| ensures more[..i] == log[..i] && more[i] == log[i] {}
    if Orderly(items, more) {
      forall i | 0 <= i < |log| && log[i].Start? ensures DepsEnded(items, log[..i], log[i].name) {
        assert more[i].Start?;
      }
      assert StartsOnce(log);
      assert false;
    }
  }

  // ---- Keys and dependencies ----

  lemma {:induction false} DepsOfItem(items: seq<Item>, key: string, d: string)
    ensures d in Deps(items, key) <==> exists item :: item in items && item.key == key && d in item.deps
    decreases |items|
  {
    if items != [] {
      var last := items[|items| - 1];
      assert items == items[..|items| - 1] + [last];
      DepsOfItem(items[..|items| - 1], key, d);
    }
  }

  lemma DepsAreOfKeys(items: seq<Item>, key: string, d: string)
    requires d in Deps(items, key)
    ensures key in Keys(items)
  {
    DepsOfItem(items, key, d);
  }

  lemma {:induction false} RootHasNoDeps(items: seq<Item>, i: nat)
    requires i < |items| && items[i].deps == []
    requires forall j :: 0 <= j < |items| && j != i ==> items[j].key != items[i].key
    ensures Deps(items, items[i].key) == []
  {
    var deps := Deps(items, items[i].key);
    assert deps != [] ==> deps[0] in deps;
    forall d ensures d !in deps {
      DepsOfItem(items, items[i].key, d);
    }
  }

  // ---- The first starts ----

  function RootLog(items: seq<Item>): seq<Event> {
    if items == [] then []
    else RootLog(items[..|items| - 1]) + (if items[|items| - 1].deps == [] then [Start(items[|items| - 1].key)] else [])
  }

  /** An item without dependencies has this key. */
  ghost predicate IsRoot(items: seq<Item>, k: string) {
    exists j :: 0 <= j < |items| && items[j].key == k && items[j].deps == []
  }

  lemma OneItemMore(items: seq<Item>, k: string)
    requires items != []
    ensures var n := |items| - 1;
            IsRoot(items, k) <==> IsRoot(items[..n], k) || (items[n].key == k && items[n].deps == [])
  {
    var n := |items| - 1;
    if IsRoot(items[..n], k) {
      var j :| 0 <= j < n && items[..n][j].key == k && items[..n][j].deps == [];
      assert items[j].key == k && items[j].deps == [];
    }
    if j :| 0 <= j < n && items[j].key == k && items[j].deps == [] {
      assert items[..n][j].key == k && items[..n][j].deps == [];
    }
  }

  lemma {:induction false} RootLogHolds(items: seq<Item>, k: string)
    ensures Start(k) in RootLog(items) <==> IsRoot(items, k)
    ensures forall e :: e in RootLog(items) ==> e.Start?
    decreases |items|
  {
    if items != [] {
      RootLogHolds(items[..|items| - 1], k);
      OneItemMore(items, k);
    }
  }

  lemma RootStartsInOrder(items: seq<Item>, n: nat)
    requires n < |items| && WellKeyed(items) && items[n].deps == [] && Orderly(items, RootLog(items[..n]))
    ensures Orderly(items, RootLog(items[..n]) + [Start(items[n].key)])
  {
    RootLogHolds(items[..n], items[n].key);
    RootHasNoDeps(items, n);
    OrderlyOneMore(items, RootLog(items[..n]), items[n].key);
  }

  lemma {:induction false} RootsAreOrderly(items: seq<Item>, n: nat)
    requires n <= |items| && WellKeyed(items)
    ensures Orderly(items, RootLog(items[..n]))
    decreases n
  {
    if n > 0 {
      RootsAreOrderly(items, n - 1);
      assert items[..n][..n - 1] == items[..n - 1];
      if items[n - 1].deps == [] {
        RootStartsInOrder(items, n - 1);
      } else {
        assert RootLog(items[..n]) == RootLog(items[..n - 1]);
      }
    }
  }

  lemma {:induction false} RootLogGrows(items: seq<Item>, n: nat, m: nat)
    requires n <= m <= |items|
    ensures RootLog(items[..n]) <= RootLog(items[..m])
    decreases m
  {
    if n < m {
      RootLogGrows(items, n, m - 1);
      assert items[..m][..m - 1] == items[..m - 1];
    }
  }

  /** Two roots with one key start twice. */
  lemma TwoRootsDisorder(items: seq<Item>, i: nat, j: nat)
    requires i < j < |items| && items[i].key == items[j].key && items[i].deps == [] == items[j].deps
    ensures !Orderly(items, RootLog(items))
  {
    var log := RootLog(items[..j]);
    var key := items[j].key;
    assert items[..j + 1][..j] == items[..j] && items[..j][i] == items[i];
    RootLogHolds(items[..j], key);
    var p :| 0 <= p < |log| && log[p] == Start(key);
    var more := RootLog(items[..j + 1]);
    assert more[p] == Start(key) && more[|log|] == Start(key);
    RootLogGrows(items, j + 1, |items|);
    assert items[..|items|] == items;
    DisorderStays(items, more, RootLog(items));
  }

  lemma NothingEnded(items: seq<Item>, p: nat, d: string)
    requires p <= |RootLog(items)|
    ensures !Ended(RootLog(items)[..p], d)
  {
    RootLogHolds(items, d);
    var log := RootLog(items);
    assert forall e :: e in log[..p] ==> e in log;
  }

  /** A root that shares its key with an item that has dependencies starts before them. */
  lemma SharedRootDisorder(items: seq<Item>, i: nat, j: nat)
    requires i < |items| && j < |items| && items[i].key == items[j].key && items[i].deps == [] != items[j].deps
    ensures !Orderly(items, RootLog(items))
  {
    var key, d := items[i].key, items[j].deps[0];
    RootLogHolds(items, key);
    DepsOfItem(items, key, d);
    var p :| 0 <= p < |RootLog(items)| && RootLog(items)[p] == Start(key);
    NothingEnded(items, p, d);
    assert !DepsEnded(items, RootLog(items)[..p], key);
  }

  /** The roots start in order exactly when no root shares its key. */
  lemma RootsOrderlyExactly(items: seq<Item>)
    ensures Orderly(items, RootLog(items)) <==> WellKeyed(items)
  {
    if WellKeyed(items) {
      RootsAreOrderly(items, |items|);
      assert items[..|items|] == items;
    } else {
      var i, j :| 0 <= i < j < |items| && items[i].key == items[j].key && !(items[i].deps != [] && items[j].deps != []);
      if items[i].deps == [] == items[j].deps { TwoRootsDisorder(items, i, j); }
      else if items[i].deps == [] { SharedRootDisorder(items, i, j); }
      else { SharedRootDisorder(items, j, i); }
    }
  }

  lemma RootsLeaveWaiting(items: seq<Item>, running: set<string>, done: set<string>, inflight: multiset<string>)
    requires Books(items, running, done, inflight, RootLog(items))
    ensures Waiting(items, running, done) && done == {}
  {
    forall k ensures k !in done {
      RootLogHolds(items, k);
    }
    forall k | k in Keys(items) - running ensures Waits(items, done, k) {
      RootLogHolds(items, k);
      var item :| item in items && item.key == k;
      DepsOfItem(items, k, item.deps[0]);
    }
  }

  // ---- The state ----

  /** What always holds, and once every root is started, that nothing is left out. */
  ghost predicate Books(items: seq<Item>, running: set<string>, done: set<string>, inflight: multiset<string>,
                        log: seq<Event>) {
    && done <= running <= Keys(items)
    && (forall k :: k in running <==> Start(k) in log)
    && (forall k :: k in done <==> Ended(log, k))
    && (forall k :: k in inflight ==> k in running)
    && (forall k :: k in running - done ==> k in inflight)
  }

  ghost predicate Waiting(items: seq<Item>, running: set<string>, done: set<string>) {
    WaitingBut(items, running, done, [])
  }

  ghost predicate Waits(items: seq<Item>, done: set<string>, k: string) {
    exists d :: d in Deps(items, k) && d !in done
  }

  /** Every download that is not started, those of a list aside, waits for one that is not done. */
  ghost predicate WaitingBut(items: seq<Item>, running: set<string>, done: set<string>, but: seq<string>) {
    forall k {:trigger Waits(items, done, k)} :: k in Keys(items) - running && k !in but ==> Waits(items, done, k)
  }

  lemma BooksStart(items: seq<Item>, running: set<string>, done: set<string>, inflight: multiset<string>,
                   log: seq<Event>, name: string)
    requires Books(items, running, done, inflight, log) && name in Keys(items)
    ensures Books(items, running + {name}, done, inflight + multiset{name}, log + [Start(name)])
  {
    var more := log + [Start(name)];
    forall e: Event ensures e in more <==> e in log || e == Start(name) {}
  }

  lemma BooksEnd(items: seq<Item>, running: set<string>, done: set<string>, inflight: multiset<string>,
                 log: seq<Event>, name: string, ok: bool)
    requires Books(items, running, done, inflight, log) && name in inflight
    ensures Books(items, running, done + {name}, inflight - multiset{name}, log + [End(name, ok)])
  {
    var more := log + [End(name, ok)];
    forall e: Event ensures e in more <==> e in log || e == End(name, ok) {}
  }

  /**
   * Behind the first starts, a download starts only if it did not before and its dependencies have
   * ended, and ends only if it started.
   */
  ghost predicate Legal(items: seq<Item>, roots: seq<Event>, log: seq<Event>) {
    && roots <= log
    && forall i :: |roots| <= i < |log| ==> LegalEvent(items, log[..i], log[i])
  }

  ghost predicate LegalEvent(items: seq<Item>, log: seq<Event>, e: Event) {
    if e.Start? then LegalStart(items, log, e.name) else Start(e.name) in log
  }

  ghost predicate LegalStart(items: seq<Item>, log: seq<Event>, name: string) {
    Start(name) !in log && DepsEnded(items, log, name)
  }

  lemma LegalOneMore(items: seq<Item>, roots: seq<Event>, log: seq<Event>, e: Event)
    requires Legal(items, roots, log) && LegalEvent(items, log, e)
    ensures Legal(items, roots, log + [e])
  {
    var more := log + [e];
    forall i | |roots| <= i < |more| ensures LegalEvent(items, more[..i], more[i]) {
      assert i < |log| ==> more[i] == log[i] && more[..i] == log[..i];
      assert i == |log| ==> more[..i] == log;
    }
  }

  lemma LegalFront(items: seq<Item>, roots: seq<Event>, log: seq<Event>)
    requires Legal(items, roots, log) && |roots| < |log|
    ensures var front, e := log[..|log| - 1], log[|log| - 1];
            log == front + [e] && Legal(items, roots, front) && LegalEvent(items, front, e)
  {
    var front := log[..|log| - 1];
    forall i | |roots| <= i < |front| ensures LegalEvent(items, front[..i], front[i]) {
      assert LegalEvent(items, log[..i], log[i]) && log[..i] == front[..i];
    }
    assert LegalEvent(items, log[..|front|], log[|front|]);
  }

  lemma OneEventMore(items: seq<Item>, log: seq<Event>, e: Event)
    requires LegalEvent(items, log, e)
    ensures Orderly(items, log + [e]) <==> Orderly(items, log)
  {
    if !Orderly(items, log) {
      DisorderStays(items, log, log + [e]);
    } else if e.Start? {
      OrderlyOneMore(items, log, e.name);
    } else {
      OrderlyEnd(items, log, e);
    }
  }

  /** Order is decided by the first starts: the later ones neither bring nor mend disorder. */
  lemma {:induction false} LegalKeepsOrder(items: seq<Item>, roots: seq<Event>, log: seq<Event>)
    requires Legal(items, roots, log)
    ensures Orderly(items, log) <==> Orderly(items, roots)
    decreases |log|
  {
    if |roots| < |log| {
      var front, e := log[..|log| - 1], log[|log| - 1];
      LegalFront(items, roots, log);
      LegalKeepsOrder(items, roots, front);
      OneEventMore(items, front, e);
    } else {
      assert log == roots;
    }
  }

  lemma OrderlyEnd(items: seq<Item>, log: seq<Event>, e: Event)
    requires Orderly(items, log) && e.End?
    ensures Orderly(items, log + [e])
  {
    var more := log + [e];
    forall i | 0 <= i < |more| && more[i].Start? ensures DepsEnded(items, more[..i], more[i].name) {
      assert log[i].Start? && more[..i] == log[..i];
    }
  }

  lemma OneLess(items: seq<Item>, before: set<string>, running: set<string>, done: set<string>, k: string,
                but: seq<string>)
    requires WaitingBut(items, before, done, [k] + but)
    requires running == if k in before || Waits(items, done, k) then before else before + {k}
    ensures WaitingBut(items, running, done, but)
  {
    forall x | x in Keys(items) - running && x !in but ensures Waits(items, done, x) {
      assert x != k ==> x !in [k] + but;
    }
  }

  /** When one more download is done, only its dependents can be ready. */
  lemma OthersWait(items: seq<Item>, running: set<string>, before: set<string>, done: set<string>, name: string,
                   dependents: seq<string>)
    requires Waiting(items, running, before) && done == before + {name}
    requires Dependents(items, name, dependents)
    ensures WaitingBut(items, running, done, dependents)
    ensures forall k :: k in dependents ==> k in Keys(items)
  {
    forall k | k in dependents ensures k in Keys(items) {
      DepsAreOfKeys(items, k, name);
    }
    forall k | k in Keys(items) - running && k !in dependents ensures Waits(items, done, k) {
      assert Waits(items, before, k);
    }
  }

  // ---- The dependency tables ----

  ghost predicate Dependents(items: seq<Item>, d: string, ks: seq<string>) {
    forall k :: k in ks <==> d in Deps(items, k)
  }

  ghost predicate TablesFor(all: set<string>, items: seq<Item>, forward: map<string, seq<string>>,
                            reverse: map<string, seq<string>>) {
    && (forall k {:trigger k in forward} :: k in forward <==> k in all)
    && (forall d {:trigger d in reverse} :: d in reverse <==> d in all)
    && (forall k {:trigger forward[k]} :: k in all ==> forward[k] == Deps(items, k))
    && (forall d {:trigger reverse[d]} :: d in all ==> Dependents(items, d, reverse[d]))
  }

  /** The first dependency, in the order of the items, that no item provides. */
  ghost predicate FirstUnknown(items: seq<Item>, i: nat, n: nat) {
    && i < |items| && n < |items[i].deps| && items[i].deps[n] !in Keys(items)
    && (forall j :: 0 <= j < i ==> DepsKnown(items, items[j]))
    && (forall m :: 0 <= m < n ==> items[i].deps[m] in Keys(items))
  }

  ghost predicate IsFirstUnknown(items: seq<Item>, key: string, d: string) {
    exists i: nat, n: nat :: FirstUnknown(items, i, n) && items[i].key == key && items[i].deps[n] == d
  }

  lemma UnknownDep(items: seq<Item>, item: Item, n: nat)
    requires item in items && n < |item.deps| && item.deps[n] !in Keys(items)
    ensures !AllKnown(items)
  {
    assert !DepsKnown(items, item);
  }

  lemma NoUnknownDep(items: seq<Item>)
    requires forall j :: 0 <= j < |items| ==> DepsKnown(items, items[j])
    ensures AllKnown(items)
  {
  }

  /** The item is noted as a dependent for the first `n` of its dependencies. */
  ghost predicate Noted(before: seq<string>, after: seq<string>, item: Item, n: nat, d: string)
    requires n <= |item.deps|
  {
    forall k :: k in after <==> k in before || (k == item.key && d in item.deps[..n])
  }

  lemma NotedInFull(items: seq<Item>, item: Item, d: string, before: seq<string>, after: seq<string>)
    requires Dependents(items, d, before) && Noted(before, after, item, |item.deps|, d)
    ensures Dependents(items + [item], d, after)
  {
    assert (items + [item])[..|items|] == items && item.deps[..|item.deps|] == item.deps;
  }

  lemma EnteredInFull(all: set<string>, items: seq<Item>, item: Item, forward: map<string, seq<string>>,
                      reverse: map<string, seq<string>>,
                      reverse': map<string, seq<string>>)
    requires TablesFor(all, items, forward, reverse) && item.key in all && reverse'.Keys == all
    requires forall d {:trigger reverse'[d]} :: d in all ==> Noted(reverse[d], reverse'[d], item, |item.deps|, d)
    ensures TablesFor(all, items + [item], forward[item.key := forward[item.key] + item.deps], reverse')
  {
    assert (items + [item])[..|items|] == items;
    forall d | d in all ensures Dependents(items + [item], d, reverse'[d]) {
      NotedInFull(items, item, d, reverse[d], reverse'[d]);
    }
  }

  class Installer {
    const items: seq<Item>
    var forward: map<string, seq<string>>
    var reverse: map<string, seq<string>>
    var running: set<string>
    var done: set<string>
    var inflight: multiset<string>
    var warnings: seq<string>
    var log: seq<Event>

    constructor (items: seq<Item>)
      ensures this.items == items
      ensures Tables(0)
      ensures running == {} && done == {} && inflight == multiset{} && warnings == [] && log == []
    {
      this.items := items;
      forward := map k | k in Keys(items) :: [];
      reverse := map k | k in Keys(items) :: [];
      running, done, inflight, warnings, log := {}, {}, multiset{}, [], [];
    }

    /** The tables hold the dependencies of the first `n` items. */
    ghost predicate Tables(n: nat)
      requires n <= |items|
      reads `forward, `reverse
    {
      TablesFor(Keys(items), items[..n], forward, reverse)
    }

    /** Fills the dependency tables; the first unknown dependency ends the installation. */
    method Prepare() returns (unknown: Option<(string, string)>)
      requires Tables(0)
      modifies `forward, `reverse
      ensures unknown.None? <==> AllKnown(items)
      ensures unknown.None? ==> Tables(|items|)
      ensures unknown.Some? ==> IsFirstUnknown(items, unknown.value.0, unknown.value.1)
    {
      for i := 0 to |items|
        invariant Tables(i)
        invariant forall j :: 0 <= j < i ==> DepsKnown(items, items[j])
      {
        var known := Enter(i);
        if known < |items[i].deps| {
          UnknownDep(items, items[i], known);
          assert FirstUnknown(items, i, known);
          return Some((items[i].key, items[i].deps[known]));
        }
      }
      NoUnknownDep(items);
      return None;
    }

    /** Enters one item into the tables; the result counts its known dependencies up to the first unknown one. */
    method Enter(i: nat) returns (known: nat)
      requires i < |items| && Tables(i)
      modifies `forward, `reverse
      ensures known <= |items[i].deps|
      ensures known == |items[i].deps| ==> Tables(i + 1) && DepsKnown(items, items[i])
      ensures known < |items[i].deps| ==> items[i].deps[known] !in Keys(items)
      ensures forall j :: 0 <= j < known ==> items[i].deps[j] in Keys(items)
    {
      var item := items[i];
      assert items[..i + 1] == items[..i] + [item];
      ghost var forward0, reverse0 := forward, reverse;
      forward := forward[item.key := forward[item.key] + item.deps];
      known := PushReverse(item);
      if known == |item.deps| {
        EnteredInFull(Keys(items), items[..i], item, forward0, reverse0, reverse);
      }
    }

    /** Notes the item as a dependent of each of its dependencies, up to the first unknown one. */
    method PushReverse(item: Item) returns (n: nat)
      modifies `reverse
      ensures reverse.Keys == old(reverse.Keys) && n <= |item.deps|
      ensures forall d {:trigger reverse[d]} :: d in reverse ==> Noted(old(reverse)[d], reverse[d], item, n, d)
      ensures forall j :: 0 <= j < n ==> item.deps[j] in reverse
      ensures n < |item.deps| ==> item.deps[n] !in reverse
    {
      n := 0;
      while n < |item.deps| && item.deps[n] in reverse
        invariant n <= |item.deps| && reverse.Keys == old(reverse.Keys)
        invariant forall j :: 0 <= j < n ==> item.deps[j] in reverse
        invariant forall d {:trigger reverse[d]} :: d in reverse ==> Noted(old(reverse)[d], reverse[d], item, n, d)
      {
        var d := item.deps[n];
        assert item.deps[..n + 1] == item.deps[..n] + [d];
        ghost var before := reverse;
        reverse := reverse[d := reverse[d] + [item.key]];
        forall x | x in reverse ensures Noted(old(reverse)[x], reverse[x], item, n + 1, x) {
          assert Noted(old(reverse)[x], before[x], item, n, x);
        }
        n := n + 1;
      }
    }

    ghost predicate Ready()
      reads `running, `done, `inflight, `warnings, `log
    {
      Books(items, running, done, inflight, log) && Shown(inflight, warnings, log)
    }

    /** The synchronous part of `process`: the download is running and its START is shown. */
    method Launch(name: string)
      requires Ready() && name in Keys(items)
      modifies `running, `inflight, `log
      ensures Ready() && log == old(log) + [Start(name)] && running == old(running) + {name}
      ensures name !in old(running) ==> |inflight| - |running| == old(|inflight| - |running|)
    {
      hide Books, Shown;
      BooksStart(items, running, done, inflight, log, name);
      ShownOneMore(inflight, warnings, log, Start(name));
      running := running + {name};
      inflight := inflight + multiset{name};
      log := log + [Start(name)];
    }

    /** Starts every item without dependencies. */
    method LaunchRoots()
      requires Ready() && log == []
      modifies `running, `inflight, `log
      ensures Ready() && Waiting(items, running, done)
      ensures log == RootLog(items) && (Orderly(items, log) <==> WellKeyed(items))
    {
      hide Books, Shown, WellKeyed, Orderly;
      for i := 0 to |items|
        invariant Ready() && log == RootLog(items[..i])
      {
        assert items[..i + 1][..i] == items[..i];
        if items[i].deps == [] {
          Launch(items[i].key);
        }
      }
      assert items[..|items|] == items;
      RootsOrderlyExactly(items);
      RootsLeaveWaiting(items, running, done, inflight);
    }

    /** Starts a dependent unless it runs already or waits for another download. */
    method LaunchDependent(k: string, ghost roots: seq<Event>)
      requires Tables(|items|) && Ready() && k in Keys(items) && Legal(items, roots, log)
      modifies `running, `inflight, `log
      ensures Ready() && |inflight| - |running| == old(|inflight| - |running|)
      ensures running == if k in old(running) || Waits(items, done, k) then old(running) else old(running) + {k}
      ensures Legal(items, roots, log) && OnlyStarts(old(log), log)
    {
      DoneDeps(k);
      if k !in running && forall d :: d in forward[k] ==> d in done {
        LegalOneMore(items, roots, log, Start(k));
        Launch(k);
      }
    }

    lemma DoneDeps(k: string)
      requires Tables(|items|) && Ready() && k in Keys(items)
      ensures Waits(items, done, k) <==> !forall d :: d in forward[k] ==> d in done
      ensures k !in running && !Waits(items, done, k) ==> LegalStart(items, log, k)
    {
      assert items[..|items|] == items;
    }

    /** Starts the dependents of a download that have nothing left to wait for. */
    method LaunchDependents(dependents: seq<string>, ghost roots: seq<Event>)
      requires Tables(|items|) && Ready() && WaitingBut(items, running, done, dependents) && Legal(items, roots, log)
      requires forall k :: k in dependents ==> k in Keys(items)
      modifies `running, `inflight, `log
      ensures Ready() && Waiting(items, running, done)
      ensures |inflight| - |running| == old(|inflight| - |running|)
      ensures Legal(items, roots, log) && OnlyStarts(old(log), log)
    {
      hide Books, Shown, TablesFor, Waits, Legal, OnlyStarts;
      NoStartsYet(log);
      for i := 0 to |dependents|
        invariant Ready() && |inflight| - |running| == old(|inflight| - |running|)
        invariant Legal(items, roots, log) && OnlyStarts(old(log), log)
        invariant WaitingBut(items, running, done, dependents[i..])
      {
        assert dependents[i..] == [dependents[i]] + dependents[i + 1..];
        ghost var before, shown := running, log;
        LaunchDependent(dependents[i], roots);
        StartsOn(old(log), shown, log);
        OneLess(items, before, running, done, dependents[i], dependents[i + 1..]);
      }
    }

    /** The end of a download, well or not: it is done and its end is shown. */
    method Finish(name: string, ok: bool)
      requires Ready() && name in inflight
      modifies `done, `inflight, `warnings, `log
      ensures Ready() && log == old(log) + [End(name, ok)] && done == old(done) + {name}
      ensures |inflight| == |old(inflight)| - 1
      ensures warnings == if ok then old(warnings) else old(warnings) + [name]
    {
      hide Books, Shown;
      BooksEnd(items, running, done, inflight, log, name, ok);
      ShownOneMore(inflight, warnings, log, End(name, ok));
      if !ok {
        warnings := warnings + [name];
      }
      done, inflight, log := done + {name}, inflight - multiset{name}, log + [End(name, ok)];
    }

    /** What `process` does when a download ends: dependents with nothing left to wait for start. */
    method Complete(name: string, ok: bool, ghost roots: seq<Event>)
      requires Tables(|items|) && Ready() && name in inflight && Waiting(items, running, done)
               && Legal(items, roots, log)
      modifies `running, `done, `inflight, `warnings, `log
      ensures Ready() && Waiting(items, running, done)
      ensures done == old(done) + {name}
      ensures warnings == if ok then old(warnings) else old(warnings) + [name]
      ensures |inflight| - |running| == old(|inflight| - |running|) - 1
      ensures Legal(items, roots, log) && OnlyStarts(old(log) + [End(name, ok)], log)
    {
      hide Books, Shown, TablesFor, Waits, Legal, OnlyStarts;
      DependentsWait(name);
      LegalOneMore(items, roots, log, End(name, ok));
      Finish(name, ok);
      LaunchDependents(reverse[name], roots);
    }

    lemma DependentsWait(name: string)
      requires Tables(|items|) && Ready() && Waiting(items, running, done) && name in inflight
      ensures name in reverse && WaitingBut(items, running, done + {name}, reverse[name]) && Start(name) in log
      ensures forall k :: k in reverse[name] ==> k in Keys(items)
    {
      assert items[..|items|] == items;
      OthersWait(items, running, done, done + {name}, name, reverse[name]);
    }

    /** Waits for the running downloads until none is left. */
    method Drain(next: multiset<string> -> (string, bool), ghost roots: seq<Event>)
      requires Tables(|items|) && Ready() && Waiting(items, running, done) && Legal(items, roots, log)
      requires EndsAs(next, log) && forall m {:trigger next(m)} :: m != multiset{} ==> next(m).0 in m
      modifies `running, `done, `inflight, `warnings, `log
      ensures Ready() && Waiting(items, running, done) && Legal(items, roots, log) && running == done
      ensures EndsAs(next, log)
    {
      while |running| > |done|
        invariant Tables(|items|) && Ready() && Waiting(items, running, done) && Legal(items, roots, log)
        invariant EndsAs(next, log)
        decreases |Keys(items)| + |inflight| - |running|
      {
        SomeInFlight(items, running, done, inflight, log);
        SubsetSize(running, Keys(items));
        var (name, ok) := next(inflight);
        ghost var before := log;
        Complete(name, ok, roots);
        EndsOneMore(next, before, name, ok, log);
      }
      SubsetSize(done, running);
    }

    /**
     * The whole run. `next` is the order in which running downloads end, and how; the time limit
     * is not reached.
     */
    method DownloadAll(next: multiset<string> -> (string, bool)) returns (r: Outcome)
      requires Tables(0) && running == {} && done == {} && inflight == multiset{} && warnings == [] && log == []
      requires forall m {:trigger next(m)} :: m != multiset{} ==> next(m).0 in m
      modifies this
      ensures r.Unknown? <==> !AllKnown(items)
      ensures r.Unknown? ==> IsFirstUnknown(items, r.item, r.dependency) && log == []
      ensures !r.Unknown? ==> Quiet(items, done, log) && (Orderly(items, log) <==> WellKeyed(items))
      ensures !r.Unknown? ==> EndsAs(next, log)
      ensures !r.Unknown? ==> r == if done == Keys(items) then Finished(Failures(log)) else Stuck(Keys(items) - done)
    {
      var unknown := Prepare();
      if unknown.Some? {
        return Unknown(unknown.value.0, unknown.value.1);
      }
      LaunchRoots();
      ghost var roots := log;
      LegalAtFirst(items, roots);
      NothingEndsYet(next);
      Drain(next, roots);
      ItIsQuiet(roots);
      return if done == Keys(items) then Finished(warnings) else Stuck(Keys(items) - done);
    }

    lemma NothingEndsYet(next: multiset<string> -> (string, bool))
      requires log == RootLog(items)
      ensures EndsAs(next, log)
    {
      RootLogHolds(items, "");
      assert forall i :: 0 <= i < |log| ==> log[i] in log;
    }

    lemma ItIsQuiet(roots: seq<Event>)
      requires Ready() && Waiting(items, running, done) && Legal(items, roots, log) && running == done
      requires roots == RootLog(items) && (Orderly(items, roots) <==> WellKeyed(items))
      ensures Quiet(items, done, log) && (Orderly(items, log) <==> WellKeyed(items))
    {
      LegalKeepsOrder(items, roots, log);
      LegalEnds(items, roots, log);
    }
  }

  lemma LegalAtFirst(items: seq<Item>, roots: seq<Event>)
    ensures Legal(items, roots, roots)
  {
  }

  lemma SomeInFlight(items: seq<Item>, running: set<string>, done: set<string>, inflight: multiset<string>,
                     log: seq<Event>)
    requires Books(items, running, done, inflight, log) && |running| > |done|
    ensures inflight != multiset{}
  {
    assert running * done == done;
    assert |running| == |running - done| + |running * done|;
    var k :| k in running - done;
  }

  // ---- When nothing runs any more ----

  ghost predicate EndsFollowStarts(log: seq<Event>) {
    forall i :: 0 <= i < |log| && log[i].End? ==> Start(log[i].name) in log[..i]
  }

  lemma LegalEnds(items: seq<Item>, roots: seq<Event>, log: seq<Event>)
    requires Legal(items, roots, log) && roots == RootLog(items)
    ensures EndsFollowStarts(log)
  {
    RootLogHolds(items, "");
    assert forall i :: 0 <= i < |roots| ==> roots[i] in roots && log[i] == roots[i];
    forall i | |roots| <= i < |log| && log[i].End? ensures Start(log[i].name) in log[..i] {
      assert LegalEvent(items, log[..i], log[i]);
    }
  }

  /** All that started has ended, and all that did not start waits for something that did not. */
  ghost predicate Quiet(items: seq<Item>, done: set<string>, log: seq<Event>) {
    && done <= Keys(items)
    && (forall k :: k in done <==> Start(k) in log)
    && Waiting(items, done, done)
    && EndsFollowStarts(log)
  }

  ghost predicate OnCycle(es: Edges, c: string) {
    exists d :: (c, d) in es && Reaches(es, d, c)
  }

  ghost predicate NeedsCycle(items: seq<Item>, k: string) {
    exists c :: OnCycle(DepGraph(items), c) && Reaches(DepGraph(items), c, k)
  }

  lemma StuckDependency(items: seq<Item>, done: set<string>, log: seq<Event>, x: string) returns (d: string)
    requires AllKnown(items) && Quiet(items, done, log) && x in Keys(items) - done
    ensures d in Keys(items) - done && (d, x) in DepGraph(items)
  {
    assert Waits(items, done, x);
    d :| d in Deps(items, x) && d !in done;
    DepIsKey(items, x, d);
  }

  lemma StuckSetIsClosed(items: seq<Item>, done: set<string>, log: seq<Event>, es: Edges, k: string, stuck: set<string>)
    requires AllKnown(items) && Quiet(items, done, log) && es == DepGraph(items)
    requires stuck == set x | x in Keys(items) - done && Reaches(es, x, k)
    ensures forall x :: x in stuck ==> HasPredIn(es, stuck, x)
  {
    forall x | x in stuck ensures HasPredIn(es, stuck, x) {
      var d := StuckDependency(items, done, log, x);
      StepReaches(es, d, x, k);
      assert d in stuck;
    }
  }

  lemma CycleInSet(es: Edges, s: set<string>) returns (c: string)
    requires CyclicWithin(es, s)
    ensures c in s && OnCycle(es, c)
  {
    var p :| IsPath(es, p) && |p| > 1 && p[0] == p[|p| - 1] && (forall x :: x in p ==> x in s);
    var q := p[1..];
    assert forall i :: 0 <= i < |q| - 1 ==> (q[i], q[i + 1]) == (p[i + 1], p[i + 2]);
    assert IsPath(es, q) && q[0] == p[1] && q[|q| - 1] == p[0];
    c := p[0];
    assert (c, p[1]) in es && Reaches(es, p[1], c);
  }

  /** A download that never started needs, directly or not, one that needs itself. */
  lemma StuckNeedsCycle(items: seq<Item>, done: set<string>, log: seq<Event>, k: string)
    requires AllKnown(items) && Quiet(items, done, log) && k in Keys(items) - done
    ensures NeedsCycle(items, k)
  {
    var es := DepGraph(items);
    var stuck := set x | x in Keys(items) - done && Reaches(es, x, k);
    ReachesSelf(es, k);
    assert k in stuck;
    StuckSetIsClosed(items, done, log, es, k, stuck);
    StuckSetHasCycle(es, stuck);
    var c := CycleInSet(es, stuck);
  }

  lemma DepIsKey(items: seq<Item>, x: string, d: string)
    requires AllKnown(items) && d in Deps(items, x)
    ensures d in Keys(items) && (d, x) in DepGraph(items)
  {
    DepsOfItem(items, x, d);
    var item :| item in items && item.key == x && d in item.deps;
    assert DepsKnown(items, item);
  }

  ghost predicate DependencyEdges(items: seq<Item>, es: Edges) {
    forall d, x :: (d, x) in es ==> d in Deps(items, x)
  }

  lemma DependencyStartedBefore(items: seq<Item>, log: seq<Event>, d: string, x: string, i: nat) returns (j: nat)
    requires Orderly(items, log) && EndsFollowStarts(log) && d in Deps(items, x)
    requires i < |log| && log[i] == Start(x)
    ensures j < i && log[j] == Start(d)
  {
    assert DepsEnded(items, log[..i], x);
    var e :| 0 <= e < i && log[e].End? && log[e].name == d;
    j :| 0 <= j < e && log[j] == Start(d);
  }

  /** What leads to a started download started before it. */
  lemma {:induction false} StartedBefore(items: seq<Item>, es: Edges, log: seq<Event>, p: seq<string>, i: nat)
    returns (j: nat)
    requires Orderly(items, log) && EndsFollowStarts(log) && DependencyEdges(items, es) && IsPath(es, p)
    requires i < |log| && log[i] == Start(p[|p| - 1])
    ensures j <= i && log[j] == Start(p[0]) && (|p| > 1 ==> j < i)
    decreases |p|
  {
    if |p| == 1 {
      j := i;
    } else {
      var n := |p| - 1;
      assert (p[n - 1], p[n]) in es;
      var i' := DependencyStartedBefore(items, log, p[n - 1], p[n], i);
      j := StartedBefore(items, es, log, p[..n], i');
    }
  }

  /** A path that returns to its start never starts. */
  lemma RoundNeverStarts(items: seq<Item>, es: Edges, log: seq<Event>, p: seq<string>)
    requires Orderly(items, log) && EndsFollowStarts(log) && DependencyEdges(items, es)
    requires IsPath(es, p) && |p| > 1 && p[0] == p[|p| - 1]
    ensures Start(p[0]) !in log
  {
    if Start(p[0]) in log {
      var i :| 0 <= i < |log| && log[i] == Start(p[0]);
      var j := StartedBefore(items, es, log, p, i);
      assert false;
    }
  }

  lemma CycleNeverStarts(items: seq<Item>, es: Edges, log: seq<Event>, c: string, k: string)
    requires Orderly(items, log) && EndsFollowStarts(log) && DependencyEdges(items, es)
    requires OnCycle(es, c) && Reaches(es, c, k)
    ensures Start(k) !in log
  {
    var d :| (c, d) in es && Reaches(es, d, c);
    var q :| IsPath(es, q) && q[0] == d && q[|q| - 1] == c;
    var round := [c] + q;
    assert forall i :: 0 < i < |round| - 1 ==> (round[i], round[i + 1]) == (q[i - 1], q[i]);
    RoundNeverStarts(items, es, log, round);
    var p :| IsPath(es, p) && p[0] == c && p[|p| - 1] == k;
    if Start(k) in log {
      var i :| 0 <= i < |log| && log[i] == Start(k);
      var j := StartedBefore(items, es, log, p, i);
      assert false;
    }
  }

  lemma EdgesAreDependencies(items: seq<Item>)
    ensures DependencyEdges(items, DepGraph(items))
  {
  }

  lemma NeedsCycleNeverStarts(items: seq<Item>, log: seq<Event>, k: string)
    requires Orderly(items, log) && EndsFollowStarts(log) && NeedsCycle(items, k)
    ensures Start(k) !in log
  {
    var es := DepGraph(items);
    var c :| OnCycle(es, c) && Reaches(es, c, k);
    EdgesAreDependencies(items);
    CycleNeverStarts(items, es, log, c, k);
  }

  /**
   * When nothing runs any more, the downloads left over are exactly those that need, directly or
   * not, one that needs itself.
   */
  lemma LeftOverExactly(items: seq<Item>, done: set<string>, log: seq<Event>, k: string)
    requires AllKnown(items) && Orderly(items, log) && Quiet(items, done, log) && k in Keys(items)
    ensures k !in done <==> NeedsCycle(items, k)
  {
    if k !in done {
      StuckNeedsCycle(items, done, log, k);
    } else if NeedsCycle(items, k) {
      NeedsCycleNeverStarts(items, log, k);
    }
  }

  /** On an acyclic graph everything is done in the end. */
  lemma AcyclicFinishes(items: seq<Item>, done: set<string>, log: seq<Event>)
    requires AllKnown(items) && Quiet(items, done, log) && !Cyclic(DepGraph(items))
    ensures done == Keys(items)
  {
    forall k | k in Keys(items) ensures k in done {
      if k !in done {
        StuckNeedsCycle(items, done, log, k);
        NeedsCycleIsCyclic(items, k);
      }
    }
  }

  lemma NeedsCycleIsCyclic(items: seq<Item>, k: string)
    requires NeedsCycle(items, k)
    ensures Cyclic(DepGraph(items))
  {
    var c :| OnCycle(DepGraph(items), c) && Reaches(DepGraph(items), c, k);
    var d :| (c, d) in DepGraph(items) && Reaches(DepGraph(items), d, c);
    BackEdgeCloses(DepGraph(items), c, d);
  }

  /** Two roots with one key: the download starts twice. */
  lemma SharedKeyStartsTwice()
    ensures var items := [Item("tool:linux", []), Item("tool:linux", [])];
            !WellKeyed(items) && !StartsOnce(RootLog(items))
  {
    var items := [Item("tool:linux", []), Item("tool:linux", [])];
    assert items[..1][..0] == [] && items[..1] == [items[0]];
    assert RootLog(items) == [Start("tool:linux"), Start("tool:linux")];
    assert items[0].key == items[1].key;
    var log := RootLog(items);
    assert log[0].Start? && log[1].Start? && log[0].name == log[1].name;
  }
}
