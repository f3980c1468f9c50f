/**
 * What a mount shows of a snapshot, told from the snapshot's own lists: where its collections,
 * folders and files are, and which entry decides about a path that several of them name.
 */
module FilesShown {
  import opened Wrappers
  import opened FilesIndex
  import opened FilesSnapshot
  import opened FilesSteps

  // ---- Places ----

  ghost predicate LastWithId(cs: seq<Collection>, id: string, i: nat) {
    i < |cs| && cs[i].id == id && forall j :: i < j < |cs| ==> cs[j].id != id
  }

  /** The collection's place: that of the last collection with this id, or the root for the root collection. */
  ghost predicate MountedAt(rootId: string, cs: seq<Collection>, id: string, root: Path) {
    || (exists i: nat :: LastWithId(cs, id, i) && root == cs[i].treePath)
    || (id == rootId && id != "" && root == [] && forall i :: 0 <= i < |cs| ==> cs[i].id != id)
  }

  lemma {:induction false} RootsAreMounts(rootId: string, cs: seq<Collection>, id: string, root: Path)
    ensures id in RootsOf(rootId, cs) && RootsOf(rootId, cs)[id] == root <==> MountedAt(rootId, cs, id, root)
    decreases |cs|
  {
    if cs != [] {
      var n := |cs| - 1;
      RootsAreMounts(rootId, cs[..n], id, root);
      if cs[n].id == id {
        assert LastWithId(cs, id, n);
        assert forall i: nat :: LastWithId(cs, id, i) ==> i == n;
      } else {
        forall i: nat ensures LastWithId(cs, id, i) <==> LastWithId(cs[..n], id, i) {}
      }
    }
  }

  /** The path is on the way to a place, or the place itself; the mount's root is on the way to itself only. */
  predicate OnTheWay(p: Path, full: Path) {
    p <= full && (p != [] || full == [])
  }

  // ---- What one entry says of a path ----

  function Base(n: Option<Node>, p: Path, directory: bool): Node {
    if n.Some? then n.value else Node(p, directory, "", false, false, None, 0)
  }

  function CollectionSays(n: Option<Node>, c: Collection, p: Path): Option<Node> {
    if c.treePath == [] || !OnTheWay(p, c.treePath) then n
    else if p == c.treePath then Some(Base(n, p, true).(collection := c.id, collectionRoot := true))
    else Some(Base(n, p, true))
  }

  function FolderSays(n: Option<Node>, full: Path, id: string, p: Path): Option<Node> {
    if OnTheWay(p, full) then Some(Base(n, p, true).(collection := id)) else n
  }

  function FileSays(n: Option<Node>, full: Path, row: FileRow, p: Path): Option<Node> {
    if !OnTheWay(p, full) then n
    else if p == full then
      Some(Base(n, p, false).(collection := row.collectionId, fileId := Some(row.id), size := row.size))
    else Some(Base(n, p, true).(collection := row.collectionId))
  }

  lemma {:induction false} AfterBoth(n: Option<Node>, xs: seq<Mention>, ys: seq<Mention>, p: Path)
    ensures After(n, xs + ys, p) == After(After(n, xs, p), ys, p)
    decreases |ys|
  {
    if ys == [] {
      assert xs + ys == xs;
    } else {
      assert (xs + ys)[..|xs + ys| - 1] == xs + ys[..|ys| - 1];
      AfterBoth(n, xs, ys[..|ys| - 1], p);
    }
  }

  lemma {:induction false} AfterPrefixes(n: Option<Node>, full: Path, k: nat, change: Change, p: Path)
    requires k <= |full|
    ensures After(n, Prefixes(full, k, change), p)
            == if p <= full && 0 < |p| <= k then Some(Changed(Base(n, p, true), change)) else n
    decreases k
  {
    var ms := Prefixes(full, k, change);
    if k > 0 {
      assert ms[..k - 1] == Prefixes(full, k - 1, change);
      AfterPrefixes(n, full, k - 1, change, p);
      assert p == full[..k] <==> p <= full && |p| == k;
    }
  }

  lemma AfterOne(n: Option<Node>, m: Mention, p: Path)
    ensures After(n, [m], p) == if p == m.path then Some(Mentioned1(n, m)) else n
  {
    assert [m][..0] == [];
  }

  lemma AfterCollection(n: Option<Node>, c: Collection, p: Path)
    ensures After(n, OfCollection(c), p) == CollectionSays(n, c, p)
  {
    if c.treePath != [] {
      var way, m := Prefixes(c.treePath, |c.treePath| - 1, Keep), Mention(c.treePath, true, AsRoot(c.id));
      AfterBoth(n, way, [m], p);
      AfterPrefixes(n, c.treePath, |c.treePath| - 1, Keep, p);
      AfterOne(After(n, way, p), m, p);
      SamePrefix(p, c.treePath);
    }
  }

  lemma SamePrefix(p: Path, full: Path)
    ensures p <= full && |p| == |full| <==> p == full
  {
  }

  lemma AfterFolder(n: Option<Node>, roots: map<string, Path>, f: Folder, p: Path)
    ensures After(n, OfFolder(roots, f), p)
            == if f.collectionId in roots then FolderSays(n, roots[f.collectionId] + f.path, f.collectionId, p) else n
  {
    if f.collectionId in roots {
      var full := roots[f.collectionId] + f.path;
      if full == [] {
        AfterOne(n, Mention([], true, InCollection(f.collectionId)), p);
      } else {
        AfterPrefixes(n, full, |full|, InCollection(f.collectionId), p);
      }
    }
  }

  lemma NoMentions(n: Option<Node>, p: Path)
    ensures After(n, [], p) == n
  {
  }

  lemma AfterFile(n: Option<Node>, roots: map<string, Path>, row: FileRow, p: Path)
    ensures After(n, OfFile(roots, row), p)
            == if row.collectionId in roots then FileSays(n, roots[row.collectionId] + row.path, row, p) else n
  {
    hide After, Prefixes;
    NoMentions(n, p);
    if row.collectionId in roots {
      var full := roots[row.collectionId] + row.path;
      var k := if full == [] then 0 else |full| - 1;
      var way, m := Prefixes(full, k, InCollection(row.collectionId)), Mention(full, false, AsFile(row));
      AfterBoth(n, way, [m], p);
      AfterPrefixes(n, full, k, InCollection(row.collectionId), p);
      AfterOne(After(n, way, p), m, p);
      SamePrefix(p, full);
    }
  }

  // ---- The entries of a snapshot, in the order in which they count ----

  datatype Entry = ACollection(c: Collection) | AFolder(f: Folder) | AFile(row: FileRow)

  function CollectionEntries(cs: seq<Collection>): seq<Entry> {
    if cs == [] then [] else CollectionEntries(cs[..|cs| - 1]) + [ACollection(cs[|cs| - 1])]
  }

  function FolderEntries(fs: seq<Folder>): seq<Entry> {
    if fs == [] then [] else FolderEntries(fs[..|fs| - 1]) + [AFolder(fs[|fs| - 1])]
  }

  function FileEntries(rows: seq<FileRow>): seq<Entry> {
    if rows == [] then [] else FileEntries(rows[..|rows| - 1]) + [AFile(rows[|rows| - 1])]
  }

  function EntriesOf(s: Snapshot): seq<Entry> {
    CollectionEntries(s.collections) + FolderEntries(s.folders) + FileEntries(s.files)
  }

  function EntrySays(roots: map<string, Path>, n: Option<Node>, e: Entry, p: Path): Option<Node> {
    match e
    case ACollection(c) => CollectionSays(n, c, p)
    case AFolder(f) =>
      if f.collectionId in roots then FolderSays(n, roots[f.collectionId] + f.path, f.collectionId, p) else n
    case AFile(row) =>
      if row.collectionId in roots then FileSays(n, roots[row.collectionId] + row.path, row, p) else n
  }

  /** The path after all entries have had their say. */
  function Said(roots: map<string, Path>, n: Option<Node>, es: seq<Entry>, p: Path): Option<Node> {
    if es == [] then n else EntrySays(roots, Said(roots, n, es[..|es| - 1], p), es[|es| - 1], p)
  }

  lemma {:induction false} SaidBoth(roots: map<string, Path>, n: Option<Node>, xs: seq<Entry>, ys: seq<Entry>, p: Path)
    ensures Said(roots, n, xs + ys, p) == Said(roots, Said(roots, n, xs, p), ys, p)
    decreases |ys|
  {
    if ys == [] {
      assert xs + ys == xs;
    } else {
      assert (xs + ys)[..|xs + ys| - 1] == xs + ys[..|ys| - 1];
      SaidBoth(roots, n, xs, ys[..|ys| - 1], p);
    }
  }

  lemma SaidOneMore(roots: map<string, Path>, n: Option<Node>, es: seq<Entry>, e: Entry, p: Path)
    ensures Said(roots, n, es + [e], p) == EntrySays(roots, Said(roots, n, es, p), e, p)
  {
    assert (es + [e])[..|es|] == es;
  }

  lemma {:induction false} AfterCollections(roots: map<string, Path>, n: Option<Node>, cs: seq<Collection>, p: Path)
    ensures After(n, OfCollections(cs), p) == Said(roots, n, CollectionEntries(cs), p)
    decreases |cs|
  {
    if cs != [] {
      var front, c := cs[..|cs| - 1], cs[|cs| - 1];
      AfterCollections(roots, n, front, p);
      AfterBoth(n, OfCollections(front), OfCollection(c), p);
      AfterCollection(After(n, OfCollections(front), p), c, p);
      SaidOneMore(roots, n, CollectionEntries(front), ACollection(c), p);
    }
  }

  lemma {:induction false} AfterFolders(roots: map<string, Path>, n: Option<Node>, fs: seq<Folder>, p: Path)
    ensures After(n, OfFolders(roots, fs), p) == Said(roots, n, FolderEntries(fs), p)
    decreases |fs|
  {
    if fs != [] {
      var front, f := fs[..|fs| - 1], fs[|fs| - 1];
      AfterFolders(roots, n, front, p);
      AfterBoth(n, OfFolders(roots, front), OfFolder(roots, f), p);
      AfterFolder(After(n, OfFolders(roots, front), p), roots, f, p);
      SaidOneMore(roots, n, FolderEntries(front), AFolder(f), p);
    }
  }

  lemma {:induction false} AfterFiles(roots: map<string, Path>, n: Option<Node>, rows: seq<FileRow>, p: Path)
    ensures After(n, OfFiles(roots, rows), p) == Said(roots, n, FileEntries(rows), p)
    decreases |rows|
  {
    if rows != [] {
      var front, row := rows[..|rows| - 1], rows[|rows| - 1];
      AfterFiles(roots, n, front, p);
      AfterBoth(n, OfFiles(roots, front), OfFile(roots, row), p);
      AfterFile(After(n, OfFiles(roots, front), p), roots, row, p);
      SaidOneMore(roots, n, FileEntries(front), AFile(row), p);
    }
  }

  /** The root collection is what the mount's root belongs to unless an entry says otherwise. */
  function AtFirst(s: Snapshot, n: Option<Node>, p: Path): Option<Node> {
    if p == [] && s.rootCollectionId != "" then Some(Base(n, p, true).(collection := s.rootCollectionId)) else n
  }

  lemma AfterMentions(s: Snapshot, n: Option<Node>, p: Path)
    ensures After(n, Mentions(s), p)
            == Said(RootsOf(s.rootCollectionId, s.collections), AtFirst(s, n, p), EntriesOf(s), p)
  {
    var roots := RootsOf(s.rootCollectionId, s.collections);
    var r, c, f, rows := OfRoot(s.rootCollectionId), OfCollections(s.collections), OfFolders(roots, s.folders),
      OfFiles(roots, s.files);
    var cs, fs, es := CollectionEntries(s.collections), FolderEntries(s.folders), FileEntries(s.files);
    if s.rootCollectionId != "" { AfterOne(n, Mention([], true, InCollection(s.rootCollectionId)), p); }
    var n0 := AtFirst(s, n, p);
    var n1, n2 := Said(roots, n0, cs, p), Said(roots, Said(roots, n0, cs, p), fs, p);
    AfterBoth(n, r + c + f, rows, p);
    AfterBoth(n, r + c, f, p);
    AfterBoth(n, r, c, p);
    AfterCollections(roots, n0, s.collections, p);
    AfterFolders(roots, n1, s.folders, p);
    AfterFiles(roots, n2, s.files, p);
    SaidBoth(roots, n0, cs + fs, es, p);
    SaidBoth(roots, n0, cs, fs, p);
  }

  // ---- Which entry decides ----

  /** Where an entry is; a collection at the root of the mount is nowhere, nor is an entry of an unknown collection. */
  ghost predicate PlaceOf(s: Snapshot, e: Entry, full: Path) {
    match e
    case ACollection(c) => full == c.treePath && full != []
    case AFolder(f) =>
      exists root :: MountedAt(s.rootCollectionId, s.collections, f.collectionId, root) && full == root + f.path
    case AFile(row) =>
      exists root :: MountedAt(s.rootCollectionId, s.collections, row.collectionId, root) && full == root + row.path
  }

  /** The path is an entry's place or on the way to it. */
  ghost predicate Names(s: Snapshot, e: Entry, p: Path) {
    exists full :: PlaceOf(s, e, full) && OnTheWay(p, full)
  }

  /** The entry puts the path into a collection; a collection does so with its own place only. */
  ghost predicate Claims(s: Snapshot, e: Entry, p: Path) {
    if e.ACollection? then PlaceOf(s, e, p) else Names(s, e, p)
  }

  function CollectionOf(e: Entry): string {
    match e
    case ACollection(c) => c.id
    case AFolder(f) => f.collectionId
    case AFile(row) => row.collectionId
  }

  /** The place as the loops of the mount compute it. */
  function Place(roots: map<string, Path>, e: Entry): Option<Path> {
    match e
    case ACollection(c) => if c.treePath == [] then None else Some(c.treePath)
    case AFolder(f) => if f.collectionId in roots then Some(roots[f.collectionId] + f.path) else None
    case AFile(row) => if row.collectionId in roots then Some(roots[row.collectionId] + row.path) else None
  }

  lemma PlacesAgree(s: Snapshot, e: Entry, full: Path)
    ensures PlaceOf(s, e, full) <==> Place(RootsOf(s.rootCollectionId, s.collections), e) == Some(full)
  {
    var roots := RootsOf(s.rootCollectionId, s.collections);
    if !e.ACollection? {
      var id := CollectionOf(e);
      forall root ensures id in roots && roots[id] == root <==> MountedAt(s.rootCollectionId, s.collections, id, root) {
        RootsAreMounts(s.rootCollectionId, s.collections, id, root);
      }
    }
  }

  lemma NamesAgree(s: Snapshot, e: Entry, p: Path)
    ensures var place := Place(RootsOf(s.rootCollectionId, s.collections), e);
            && (Names(s, e, p) <==> place.Some? && OnTheWay(p, place.value))
            && (PlaceOf(s, e, p) <==> place == Some(p))
  {
    hide PlaceOf, Place;
    forall full ensures PlaceOf(s, e, full) <==> Place(RootsOf(s.rootCollectionId, s.collections), e) == Some(full) {
      PlacesAgree(s, e, full);
    }
  }

  // ---- What the entries make of a path ----

  /** The entry is a file, and this is its place. */
  ghost predicate FileAt(s: Snapshot, e: Entry, p: Path) {
    e.AFile? && PlaceOf(s, e, p)
  }

  /** What one entry changes about a path that it names, if the path was this node before. */
  ghost predicate Changes(s: Snapshot, e: Entry, p: Path, before: Option<Node>, n: Node) {
    var base := Base(before, p, true);
    && n.collection == (if Claims(s, e, p) then CollectionOf(e) else base.collection)
    && n.fileId == (if FileAt(s, e, p) then Some(e.row.id) else base.fileId)
    && n.size == (if FileAt(s, e, p) then e.row.size else base.size)
    && n.directory == (if before.Some? then before.value.directory else !FileAt(s, e, p))
    && n.collectionRoot == (base.collectionRoot || (e.ACollection? && PlaceOf(s, e, p)))
    && n.virtualMetadata == base.virtualMetadata && n.path == base.path
  }

  lemma EntryChanges(s: Snapshot, e: Entry, p: Path, before: Option<Node>)
    ensures var after := EntrySays(RootsOf(s.rootCollectionId, s.collections), before, e, p);
            if Names(s, e, p) then after.Some? && Changes(s, e, p, before, after.value) else after == before
  {
    hide Names, PlaceOf;
    NamesAgree(s, e, p);
  }

  ghost predicate LastClaim(s: Snapshot, es: seq<Entry>, p: Path, k: nat) {
    k < |es| && Claims(s, es[k], p) && forall j :: k < j < |es| ==> !Claims(s, es[j], p)
  }

  ghost predicate LastFileAt(s: Snapshot, es: seq<Entry>, p: Path, k: nat) {
    k < |es| && FileAt(s, es[k], p) && forall j :: k < j < |es| ==> !FileAt(s, es[j], p)
  }

  ghost predicate FirstNaming(s: Snapshot, es: seq<Entry>, p: Path, k: nat) {
    k < |es| && Names(s, es[k], p) && forall j :: 0 <= j < k ==> !Names(s, es[j], p)
  }

  /** The last entry that claims the path decides about its collection. */
  ghost predicate CollectionShown(s: Snapshot, es: seq<Entry>, p: Path, before: string, now: string) {
    || (exists k: nat :: LastClaim(s, es, p, k) && now == CollectionOf(es[k]))
    || (now == before && forall k :: 0 <= k < |es| ==> !Claims(s, es[k], p))
  }

  /** The last file at the path decides about its contents. */
  ghost predicate FileShown(s: Snapshot, es: seq<Entry>, p: Path, before: Node, now: Node) {
    || (exists k: nat :: LastFileAt(s, es, p, k) && now.fileId == Some(es[k].row.id) && now.size == es[k].row.size)
    || (now.fileId == before.fileId && now.size == before.size && forall k :: 0 <= k < |es| ==> !FileAt(s, es[k], p))
  }

  /** A path that was there keeps its kind; the first entry that names a new one decides about it. */
  ghost predicate KindShown(s: Snapshot, es: seq<Entry>, p: Path, before: Option<Node>, now: Node) {
    if before.Some? then now.directory == before.value.directory
    else exists k: nat :: FirstNaming(s, es, p, k) && now.directory == !FileAt(s, es[k], p)
  }

  /** A collection marks its own place, for good. */
  ghost predicate MarksShown(s: Snapshot, es: seq<Entry>, p: Path, before: Node, now: Node) {
    && (now.collectionRoot <==>
          before.collectionRoot || exists k :: 0 <= k < |es| && es[k].ACollection? && PlaceOf(s, es[k], p))
    && now.virtualMetadata == before.virtualMetadata && now.path == before.path
  }

  ghost predicate Named(s: Snapshot, es: seq<Entry>, p: Path) {
    exists k :: 0 <= k < |es| && Names(s, es[k], p)
  }

  ghost predicate Shown(s: Snapshot, es: seq<Entry>, p: Path, before: Option<Node>, now: Node) {
    var base := Base(before, p, true);
    && CollectionShown(s, es, p, base.collection, now.collection)
    && FileShown(s, es, p, base, now)
    && KindShown(s, es, p, before, now)
    && MarksShown(s, es, p, base, now)
  }

  /** `all` are the entries `es` and one more. */
  ghost predicate OneEntryMore(es: seq<Entry>, all: seq<Entry>) {
    |all| == |es| + 1 && all[..|es|] == es
  }

  lemma CollectionOneMore(s: Snapshot, es: seq<Entry>, all: seq<Entry>, p: Path, before: string, now: string,
                          next: string)
    requires OneEntryMore(es, all) && CollectionShown(s, es, p, before, now)
    requires next == if Claims(s, all[|es|], p) then CollectionOf(all[|es|]) else now
    ensures CollectionShown(s, all, p, before, next)
  {
    hide Claims;
    if Claims(s, all[|es|], p) {
      assert LastClaim(s, all, p, |es|);
    } else if k: nat :| LastClaim(s, es, p, k) && now == CollectionOf(es[k]) {
      assert LastClaim(s, all, p, k) by { assert forall j :: 0 <= j < |es| ==> all[j] == es[j]; }
    } else {
      assert forall j :: 0 <= j < |es| ==> all[j] == es[j];
    }
  }

  lemma FileOneMore(s: Snapshot, es: seq<Entry>, all: seq<Entry>, p: Path, before: Node, now: Node, next: Node)
    requires OneEntryMore(es, all) && FileShown(s, es, p, before, now)
    requires var e := all[|es|];
             if FileAt(s, e, p) then next.fileId == Some(e.row.id) && next.size == e.row.size
             else next.fileId == now.fileId && next.size == now.size
    ensures FileShown(s, all, p, before, next)
  {
    hide PlaceOf;
    if FileAt(s, all[|es|], p) {
      assert LastFileAt(s, all, p, |es|);
    } else if k: nat :| LastFileAt(s, es, p, k) && now.fileId == Some(es[k].row.id) && now.size == es[k].row.size {
      assert LastFileAt(s, all, p, k) by { assert forall j :: 0 <= j < |es| ==> all[j] == es[j]; }
    } else {
      assert forall j :: 0 <= j < |es| ==> all[j] == es[j];
    }
  }

  lemma KindOneMore(s: Snapshot, es: seq<Entry>, all: seq<Entry>, p: Path, before: Option<Node>, now: Node, next: Node)
    requires OneEntryMore(es, all) && KindShown(s, es, p, before, now) && next.directory == now.directory
    ensures KindShown(s, all, p, before, next)
  {
    hide Names, FileAt;
    if before.None? {
      var k: nat :| FirstNaming(s, es, p, k) && now.directory == !FileAt(s, es[k], p);
      assert forall j :: 0 <= j < |es| ==> all[j] == es[j];
      assert FirstNaming(s, all, p, k);
    }
  }

  lemma MarksOneMore(s: Snapshot, es: seq<Entry>, all: seq<Entry>, p: Path, before: Node, now: Node, next: Node)
    requires OneEntryMore(es, all) && MarksShown(s, es, p, before, now)
    requires var e := all[|es|];
             && next.collectionRoot == (now.collectionRoot || (e.ACollection? && PlaceOf(s, e, p)))
             && next.virtualMetadata == now.virtualMetadata && next.path == now.path
    ensures MarksShown(s, all, p, before, next)
  {
    hide PlaceOf;
    assert forall j :: 0 <= j < |es| ==> all[j] == es[j];
  }

  /** The path was there or is named already, and one more entry names it. */
  lemma ShownOneMore(s: Snapshot, es: seq<Entry>, all: seq<Entry>, p: Path, before: Option<Node>, now: Node, next: Node)
    requires OneEntryMore(es, all) && Shown(s, es, p, before, now)
    requires if Names(s, all[|es|], p) then Changes(s, all[|es|], p, Some(now), next) else next == now
    ensures Shown(s, all, p, before, next)
  {
    var base := Base(before, p, true);
    NamedIfSaid(s, all[|es|], p);
    CollectionOneMore(s, es, all, p, base.collection, now.collection, next.collection);
    FileOneMore(s, es, all, p, base, now, next);
    KindOneMore(s, es, all, p, before, now, next);
    MarksOneMore(s, es, all, p, base, now, next);
  }

  lemma NamedIfSaid(s: Snapshot, e: Entry, p: Path)
    ensures Claims(s, e, p) || FileAt(s, e, p) || PlaceOf(s, e, p) ==> Names(s, e, p)
  {
    if PlaceOf(s, e, p) {
      assert OnTheWay(p, p);
    }
  }

  /** The first entry that names a new path. */
  lemma ShownAtFirst(s: Snapshot, es: seq<Entry>, all: seq<Entry>, p: Path, next: Node)
    requires OneEntryMore(es, all) && !Named(s, es, p) && Names(s, all[|es|], p)
    requires Changes(s, all[|es|], p, None, next)
    ensures Shown(s, all, p, None, next)
  {
    hide Names;
    var n, base := |es|, Base(None, p, true);
    NothingNamed(s, es, all, p);
    assert FirstNaming(s, all, p, n);
    assert Claims(s, all[n], p) ==> LastClaim(s, all, p, n);
    assert FileAt(s, all[n], p) ==> LastFileAt(s, all, p, n);
  }

  lemma NothingNamed(s: Snapshot, es: seq<Entry>, all: seq<Entry>, p: Path)
    requires OneEntryMore(es, all) && !Named(s, es, p)
    ensures forall k :: 0 <= k < |es| ==>
              !Names(s, all[k], p) && !Claims(s, all[k], p) && !FileAt(s, all[k], p) && !PlaceOf(s, all[k], p)
  {
    hide Names, Claims, PlaceOf;
    forall k | 0 <= k < |es|
      ensures !Names(s, all[k], p) && !Claims(s, all[k], p) && !FileAt(s, all[k], p) && !PlaceOf(s, all[k], p)
    {
      assert all[k] == es[k];
      NamedIfSaid(s, all[k], p);
    }
  }

  lemma NothingShown(s: Snapshot, p: Path, before: Node)
    ensures Shown(s, [], p, Some(before), before)
  {
  }

  lemma NamedOneMore(s: Snapshot, es: seq<Entry>, all: seq<Entry>, p: Path)
    requires OneEntryMore(es, all)
    ensures Named(s, all, p) <==> Named(s, es, p) || Names(s, all[|es|], p)
  {
    hide Names;
    assert forall j :: 0 <= j < |es| ==> all[j] == es[j];
    if k :| 0 <= k < |es| && Names(s, es[k], p) {
      assert Names(s, all[k], p);
    }
  }

  /** After all entries a path is there if it was or is named, and is what they show. */
  lemma {:induction false} SaidIsShown(s: Snapshot, es: seq<Entry>, before: Option<Node>, p: Path)
    ensures var after := Said(RootsOf(s.rootCollectionId, s.collections), before, es, p);
            && (after.Some? <==> before.Some? || Named(s, es, p))
            && (after.Some? ==> Shown(s, es, p, before, after.value))
    decreases |es|
  {
    hide Shown, Named, Names, Changes, EntrySays;
    if es == [] {
      if before.Some? { NothingShown(s, p, before.value); }
      NobodyNamed(s, p);
    } else {
      var front, e := es[..|es| - 1], es[|es| - 1];
      SaidIsShown(s, front, before, p);
      var now := Said(RootsOf(s.rootCollectionId, s.collections), before, front, p);
      EntryChanges(s, e, p, now);
      NamedOneMore(s, front, es, p);
      var next := EntrySays(RootsOf(s.rootCollectionId, s.collections), now, e, p);
      if now.Some? {
        ShownOneMore(s, front, es, p, before, now.value, next.value);
      } else if Names(s, e, p) {
        ShownAtFirst(s, front, es, p, next.value);
      }
    }
  }

  lemma NobodyNamed(s: Snapshot, p: Path)
    ensures !Named(s, [], p)
  {
  }

  // ---- The mount after a snapshot ----

  /** What a snapshot shows at a path that was this node, or was not there. */
  ghost predicate ShownIn(s: Snapshot, before: Option<Node>, p: Path, now: Node) {
    Shown(s, EntriesOf(s), p, AtFirst(s, before, p), now)
  }

  ghost predicate NamedIn(s: Snapshot, p: Path) {
    Named(s, EntriesOf(s), p)
  }

  /** What is at a path once the entries have been gone through, before anything is dropped. */
  ghost predicate StandsAt(s: Snapshot, a: Index, p: Path, now: Node) {
    (a.Live(p) || NamedIn(s, p)) && ShownIn(s, NodeAt(a, p), p, now)
  }

  /** A `.git` entry, old or new, in the directory or in one above it. */
  ghost predicate InRepository(s: Snapshot, a: Index, d: Path) {
    exists k :: 0 <= k <= |d| && (d[..k] + [".git"] in a.pathInode || NamedIn(s, d[..k] + [".git"]))
  }

  /** The path is the manifest of a directory of a collection that lies in no repository. */
  ghost predicate HasManifest(s: Snapshot, a: Index, p: Path) {
    && p != [] && Name(p) == "_folder-metadata.yaml"
    && (exists n :: StandsAt(s, a, Parent(p), n) && n.directory && n.collection != "")
    && !InRepository(s, a, Parent(p))
  }

  /** The collection of a manifest is that of its directory, before or after that became a manifest itself. */
  ghost predicate OfItsDirectory(s: Snapshot, a: Index, b: Index, p: Path)
    requires b.Live(p)
  {
    && p != []
    && var d := Parent(p);
    || (exists n :: StandsAt(s, a, d, n) && b.At(p).collection == n.collection)
    || (b.Live(d) && !NamedIn(s, d) && d != [] && b.At(p).collection == b.At(d).collection)
  }

  /**
   * The index after a snapshot: the root, the paths that entries name and the manifests are there and
   * nothing else is; named paths are what the entries show, other manifests are empty virtual files.
   */
  ghost predicate Shows(s: Snapshot, a: Index, b: Index) {
    && (forall p {:trigger b.Live(p)} :: b.Live(p) <==> p == [] || NamedIn(s, p) || HasManifest(s, a, p))
    && (forall p {:trigger b.At(p)} :: p == [] || NamedIn(s, p) ==> b.Live(p) && ShownIn(s, NodeAt(a, p), p, b.At(p)))
    && (forall p {:trigger b.Live(p)} :: b.Live(p) && p != [] && !NamedIn(s, p) ==>
          ManifestOf(NodeAt(a, p), p, b.At(p)) && OfItsDirectory(s, a, b, p))
  }

  lemma AfterIsShown(s: Snapshot, before: Option<Node>, p: Path)
    ensures var after := After(before, Mentions(s), p);
            && (after.Some? <==> AtFirst(s, before, p).Some? || NamedIn(s, p))
            && (after.Some? ==> ShownIn(s, before, p, after.value))
  {
    hide Shown, Named;
    AfterMentions(s, before, p);
    SaidIsShown(s, EntriesOf(s), AtFirst(s, before, p), p);
  }

  lemma MentionedIsNamed(s: Snapshot, p: Path)
    ensures p in PathsOf(Mentions(s)) <==> p == [] || NamedIn(s, p)
  {
    hide ShownIn, NamedIn, Mentions;
    AfterIsShown(s, None, p);
    KindIsFirstMention(None, Mentions(s), p);
  }

  /** Two nodes shown at a path agree about kind and collection. */
  lemma ShownIsUnique(s: Snapshot, es: seq<Entry>, p: Path, before: Option<Node>, n: Node, m: Node)
    requires Shown(s, es, p, before, n) && Shown(s, es, p, before, m)
    ensures n.directory == m.directory && n.collection == m.collection
  {
    hide Names, Claims, FileAt, PlaceOf;
    assert forall j: nat, k: nat :: LastClaim(s, es, p, j) && LastClaim(s, es, p, k) ==> j == k;
    assert forall j: nat, k: nat :: FirstNaming(s, es, p, j) && FirstNaming(s, es, p, k) ==> j == k;
  }

  lemma DirectoryStands(s: Snapshot, a: Index, d: Path)
    requires a.Valid()
    ensures ListedDirectory(a, Mentions(s), d) <==>
              exists n :: StandsAt(s, a, d, n) && n.directory && n.collection != ""
    ensures forall n :: StandsAt(s, a, d, n) ==>
              var after := After(NodeAt(a, d), Mentions(s), d); after.Some? && after.value.collection == n.collection
    ensures var after := After(NodeAt(a, d), Mentions(s), d); after.Some? ==> StandsAt(s, a, d, after.value)
  {
    hide Shown, Named, After, Mentions;
    LiveInValid(a, d);
    RootIsLive(a);
    AfterIsShown(s, NodeAt(a, d), d);
    var after := After(NodeAt(a, d), Mentions(s), d);
    forall n | StandsAt(s, a, d, n)
      ensures after.Some? && after.value.collection == n.collection && after.value.directory == n.directory
    {
      ShownIsUnique(s, EntriesOf(s), d, AtFirst(s, NodeAt(a, d), d), n, after.value);
    }
  }

  lemma RepositoriesAgree(s: Snapshot, a: Index, d: Path)
    ensures InGit(a.Paths() + PathsOf(Mentions(s)), d) <==> InRepository(s, a, d)
  {
    hide NamedIn, PathsOf, Mentions;
    forall k | 0 <= k <= |d|
      ensures d[..k] + [GIT] in a.Paths() + PathsOf(Mentions(s)) <==>
                d[..k] + [GIT] in a.pathInode || NamedIn(s, d[..k] + [GIT])
    {
      MentionedIsNamed(s, d[..k] + [GIT]);
    }
  }

  lemma ManifestsAgree(s: Snapshot, a: Index, p: Path)
    requires a.Valid()
    ensures IsManifest(a, Mentions(s), p) <==> HasManifest(s, a, p)
  {
    hide ListedDirectory, StandsAt, InGit, InRepository, PathsOf, Mentions;
    if p != [] {
      DirectoryStands(s, a, Parent(p));
      RepositoriesAgree(s, a, Parent(p));
    }
  }

  lemma CollectionsAgree(s: Snapshot, a: Index, b: Index, p: Path)
    requires a.Valid() && b.Live(p) && InCollectionOf(a, Mentions(s), b, p)
    ensures OfItsDirectory(s, a, b, p)
  {
    hide StandsAt, NamedIn, PathsOf, Mentions, After;
    DirectoryStands(s, a, Parent(p));
    MentionedIsNamed(s, Parent(p));
  }

  /** An index that reflects the mentions of a snapshot shows the snapshot. */
  lemma ReflectsShows(s: Snapshot, a: Index, b: Index)
    requires a.Valid() && Reflects(a, Mentions(s), b)
    ensures Shows(s, a, b)
  {
    hide NamedIn, ShownIn, HasManifest, IsManifest, InCollectionOf, OfItsDirectory, PathsOf, Mentions, After,
         ManifestOf;
    forall p ensures p in PathsOf(Mentions(s)) <==> p == [] || NamedIn(s, p) {
      MentionedIsNamed(s, p);
    }
    forall p ensures b.Live(p) <==> p == [] || NamedIn(s, p) || HasManifest(s, a, p) {
      ManifestsAgree(s, a, p);
    }
    forall p | p == [] || NamedIn(s, p) ensures b.Live(p) && ShownIn(s, NodeAt(a, p), p, b.At(p)) {
      AfterIsShown(s, NodeAt(a, p), p);
    }
    forall p | b.Live(p) && p != [] && !NamedIn(s, p) ensures OfItsDirectory(s, a, b, p) {
      CollectionsAgree(s, a, b, p);
    }
  }

  // ---- Read list by list ----

  lemma {:induction false} EntriesInOrder(cs: seq<Collection>, fs: seq<Folder>, rows: seq<FileRow>)
    ensures |CollectionEntries(cs)| == |cs|
    ensures forall k :: 0 <= k < |cs| ==> CollectionEntries(cs)[k] == ACollection(cs[k])
    ensures |FolderEntries(fs)| == |fs| && forall k :: 0 <= k < |fs| ==> FolderEntries(fs)[k] == AFolder(fs[k])
    ensures |FileEntries(rows)| == |rows| && forall k :: 0 <= k < |rows| ==> FileEntries(rows)[k] == AFile(rows[k])
    decreases |cs| + |fs| + |rows|
  {
    if cs != [] {
      EntriesInOrder(cs[..|cs| - 1], fs, rows);
    } else if fs != [] {
      EntriesInOrder(cs, fs[..|fs| - 1], rows);
    } else if rows != [] {
      EntriesInOrder(cs, fs, rows[..|rows| - 1]);
    }
  }

  /** A file of a known collection is there, in its collection's place, and shows the last row of that place. */
  lemma FileRowsAreShown(s: Snapshot, a: Index, b: Index, k: nat, root: Path)
    requires Shows(s, a, b) && k < |s.files|
    requires MountedAt(s.rootCollectionId, s.collections, s.files[k].collectionId, root)
    ensures var p := root + s.files[k].path;
            b.Live(p) && exists j :: k <= j < |s.files| && PlaceOf(s, AFile(s.files[j]), p)
                                     && b.At(p).fileId == Some(s.files[j].id) && b.At(p).size == s.files[j].size
                                     && forall i :: j < i < |s.files| ==> !PlaceOf(s, AFile(s.files[i]), p)
  {
    hide MountedAt;
    var p, es, first := root + s.files[k].path, EntriesOf(s), |s.collections| + |s.folders|;
    EntriesInOrder(s.collections, s.folders, s.files);
    assert es[first + k] == AFile(s.files[k]) && PlaceOf(s, es[first + k], p);
    NamedIfSaid(s, es[first + k], p);
    assert ShownIn(s, NodeAt(a, p), p, b.At(p));
    LastRowDecides(s, es, first, k, p, Base(AtFirst(s, NodeAt(a, p), p), p, true), b.At(p));
  }

  lemma LastRowDecides(s: Snapshot, es: seq<Entry>, first: nat, k: nat, p: Path, before: Node, now: Node)
    requires k < |s.files| && |es| == first + |s.files| && FileShown(s, es, p, before, now)
    requires forall i :: 0 <= i < |s.files| ==> es[first + i] == AFile(s.files[i])
    requires PlaceOf(s, es[first + k], p)
    ensures exists j :: k <= j < |s.files| && PlaceOf(s, AFile(s.files[j]), p)
                        && now.fileId == Some(s.files[j].id) && now.size == s.files[j].size
                        && forall i :: j < i < |s.files| ==> !PlaceOf(s, AFile(s.files[i]), p)
  {
    hide PlaceOf, Base;
    assert es[first + k] == AFile(s.files[k]) && FileAt(s, es[first + k], p);
    var m: nat :| LastFileAt(s, es, p, m) && now.fileId == Some(es[m].row.id) && now.size == es[m].row.size;
    var j := m - first;
    assert es[first + j] == AFile(s.files[j]);
    forall i | j < i < |s.files| ensures !PlaceOf(s, AFile(s.files[i]), p) {
      assert !FileAt(s, es[first + i], p);
    }
  }

  /** A folder of a known collection is there, with everything above it; so is a collection, which is marked. */
  lemma FoldersAreShown(s: Snapshot, a: Index, b: Index, k: nat, root: Path, p: Path)
    requires Shows(s, a, b) && k < |s.folders| && OnTheWay(p, root + s.folders[k].path)
    requires MountedAt(s.rootCollectionId, s.collections, s.folders[k].collectionId, root)
    ensures b.Live(p)
  {
    EntriesInOrder(s.collections, s.folders, s.files);
    var e := EntriesOf(s)[|s.collections| + k];
    assert e == AFolder(s.folders[k]) && PlaceOf(s, e, root + s.folders[k].path);
    assert Names(s, e, p);
  }

  lemma CollectionsAreShown(s: Snapshot, a: Index, b: Index, k: nat, p: Path)
    requires Shows(s, a, b) && k < |s.collections| && s.collections[k].treePath != []
    requires OnTheWay(p, s.collections[k].treePath)
    ensures b.Live(p) && (p == s.collections[k].treePath ==> b.At(p).collectionRoot)
  {
    EntriesInOrder(s.collections, s.folders, s.files);
    var e := EntriesOf(s)[k];
    assert e == ACollection(s.collections[k]) && PlaceOf(s, e, s.collections[k].treePath);
    assert Names(s, e, p);
    assert ShownIn(s, NodeAt(a, p), p, b.At(p));
  }
}
