/**
 * What a snapshot of the Files service means for the mount, one path at a time: the reference
 * the index updates are proved against.
 */
module FilesSnapshot {
  import opened Wrappers
  import opened FilesIndex

  datatype Collection = Collection(id: string, treePath: Path)
  datatype Folder = Folder(collectionId: string, path: Path)
  datatype FileRow = FileRow(id: string, collectionId: string, path: Path, size: nat)

  /** `rootCollectionId` is "" when no collection is mounted at the root. */
  datatype Snapshot = Snapshot(rootCollectionId: string, collections: seq<Collection>, folders: seq<Folder>,
                               files: seq<FileRow>)

  // ---- Mentions of a path ----

  datatype Change = Keep | InCollection(id: string) | AsRoot(id: string) | AsFile(row: FileRow)

  /** A snapshot mentions a path, as a directory or as a file. */
  datatype Mention = Mention(path: Path, directory: bool, change: Change)

  function Changed(n: Node, c: Change): Node {
    match c
    case Keep => n
    case InCollection(id) => n.(collection := id)
    case AsRoot(id) => n.(collection := id, collectionRoot := true)
    case AsFile(row) => n.(fileId := Some(row.id), size := row.size, collection := row.collectionId)
  }

  /** What a path is after one mention of it: its kind and its manifest mark are those it had. */
  function Mentioned1(n: Option<Node>, m: Mention): Node {
    Changed(if n.Some? then n.value else Node(m.path, m.directory, "", false, false, None, 0), m.change)
  }

  /** What a path is after all mentions. */
  function After(n: Option<Node>, ms: seq<Mention>, p: Path): Option<Node>
    decreases |ms|
  {
    if ms == [] then n
    else
      var before := After(n, ms[..|ms| - 1], p);
      if ms[|ms| - 1].path == p then Some(Mentioned1(before, ms[|ms| - 1])) else before
  }

  function PathsOf(ms: seq<Mention>): set<Path> {
    {[]} + set m | m in ms :: m.path
  }

  /** The directories on the way to a path, the first `n` of them. */
  function Prefixes(full: Path, n: nat, change: Change): seq<Mention>
    requires n <= |full|
  {
    seq(n, k requires 0 <= k < n => Mention(full[..k + 1], true, change))
  }

  function OfCollection(c: Collection): seq<Mention> {
    if c.treePath == [] then []
    else Prefixes(c.treePath, |c.treePath| - 1, Keep) + [Mention(c.treePath, true, AsRoot(c.id))]
  }

  function OfCollections(cs: seq<Collection>): seq<Mention> {
    if cs == [] then [] else OfCollections(cs[..|cs| - 1]) + OfCollection(cs[|cs| - 1])
  }

  function RootsOf(rootCollectionId: string, cs: seq<Collection>): map<string, Path> {
    if cs == [] then (if rootCollectionId == "" then map[] else map[rootCollectionId := []])
    else RootsOf(rootCollectionId, cs[..|cs| - 1])[cs[|cs| - 1].id := cs[|cs| - 1].treePath]
  }

  /** Folders and files of unknown collections are not mentioned. */
  function OfFolder(roots: map<string, Path>, f: Folder): seq<Mention> {
    if f.collectionId !in roots then []
    else
      var full := roots[f.collectionId] + f.path;
      if full == [] then [Mention([], true, InCollection(f.collectionId))]
      else Prefixes(full, |full|, InCollection(f.collectionId))
  }

  function OfFolders(roots: map<string, Path>, fs: seq<Folder>): seq<Mention> {
    if fs == [] then [] else OfFolders(roots, fs[..|fs| - 1]) + OfFolder(roots, fs[|fs| - 1])
  }

  function OfFile(roots: map<string, Path>, row: FileRow): seq<Mention> {
    if row.collectionId !in roots then []
    else
      var full := roots[row.collectionId] + row.path;
      Prefixes(full, if full == [] then 0 else |full| - 1, InCollection(row.collectionId))
        + [Mention(full, false, AsFile(row))]
  }

  function OfFiles(roots: map<string, Path>, rows: seq<FileRow>): seq<Mention> {
    if rows == [] then [] else OfFiles(roots, rows[..|rows| - 1]) + OfFile(roots, rows[|rows| - 1])
  }

  function OfRoot(id: string): seq<Mention> {
    if id == "" then [] else [Mention([], true, InCollection(id))]
  }

  function Mentions(s: Snapshot): seq<Mention> {
    var roots := RootsOf(s.rootCollectionId, s.collections);
    OfRoot(s.rootCollectionId) + OfCollections(s.collections) + OfFolders(roots, s.folders) + OfFiles(roots, s.files)
  }

  // ---- What the mentions come to ----

  /** The first mention of a path in the list, if there is one. */
  function FirstMention(ms: seq<Mention>, p: Path): Option<Mention>
    ensures FirstMention(ms, p).None? <==> forall m :: m in ms ==> m.path != p
  {
    if ms == [] then None
    else
      var before := FirstMention(ms[..|ms| - 1], p);
      assert ms == ms[..|ms| - 1] + [ms[|ms| - 1]];
      if before.Some? then before
      else if ms[|ms| - 1].path == p then Some(ms[|ms| - 1])
      else None
  }

  /** The last file row of the list at a path, if there is one. */
  function LastFile(ms: seq<Mention>, p: Path): Option<FileRow> {
    if ms == [] then None
    else if ms[|ms| - 1].path == p && ms[|ms| - 1].change.AsFile? then Some(ms[|ms| - 1].change.row)
    else LastFile(ms[..|ms| - 1], p)
  }

  lemma LastMention(ms: seq<Mention>, p: Path)
    requires ms != []
    ensures (set m | m in ms :: m.path) == (set m | m in ms[..|ms| - 1] :: m.path) + {ms[|ms| - 1].path}
  {
    assert ms == ms[..|ms| - 1] + [ms[|ms| - 1]];
  }

  /**
   * Which paths are there after the mentions and of what kind: a path that was there keeps its
   * kind and its manifest mark, a new one takes its kind from its first mention.
   */
  lemma {:induction false} KindIsFirstMention(n: Option<Node>, ms: seq<Mention>, p: Path)
    ensures After(n, ms, p).Some? <==> n.Some? || p in set m | m in ms :: m.path
    ensures After(n, ms, p).Some? ==>
              var after := After(n, ms, p).value;
              && after.directory == (if n.Some? then n.value.directory else FirstMention(ms, p).value.directory)
              && after.virtualMetadata == (n.Some? && n.value.virtualMetadata)
              && after.path == (if n.Some? then n.value.path else p)
    decreases |ms|
  {
    if ms != [] {
      KindIsFirstMention(n, ms[..|ms| - 1], p);
      LastMention(ms, p);
    }
  }

  /** Which file a path shows: the last file row that names it decides, if there is one. */
  lemma {:induction false} LastFileShows(n: Option<Node>, ms: seq<Mention>, p: Path)
    requires After(n, ms, p).Some?
    ensures var after := After(n, ms, p).value;
            && (LastFile(ms, p).Some? ==>
                  after.fileId == Some(LastFile(ms, p).value.id) && after.size == LastFile(ms, p).value.size)
            && (LastFile(ms, p).None? ==> after.fileId == (if n.Some? then n.value.fileId else None)
                                          && after.size == (if n.Some? then n.value.size else 0))
    decreases |ms|
  {
    if ms != [] {
      var front := ms[..|ms| - 1];
      KindIsFirstMention(n, front, p);
      if LastFile(front, p).Some? {
        LastFileIsMentioned(front, p);
      }
      if After(n, front, p).Some? {
        LastFileShows(n, front, p);
      }
    }
  }

  // ---- Manifests ----

  /** The path lies in a repository: some directory on the way has a `.git` entry. */
  predicate InGit(paths: set<Path>, path: Path) {
    exists k :: 0 <= k <= |path| && path[..k] + [GIT] in paths
  }

  /** The path is a directory of a collection once the mentions are applied to the old index. */
  ghost predicate ListedDirectory(a: Index, ms: seq<Mention>, d: Path) {
    var n := After(NodeAt(a, d), ms, d);
    n.Some? && n.value.directory && n.value.collection != ""
  }

  function NodeAt(ix: Index, p: Path): Option<Node> {
    if ix.Live(p) then Some(ix.At(p)) else None
  }

  /**
   * Where the manifests of a snapshot are: in every directory of a collection outside repositories,
   * old directories included.
   */
  ghost predicate IsManifest(a: Index, ms: seq<Mention>, p: Path) {
    && p != [] && Name(p) == METADATA_NAME
    && ListedDirectory(a, ms, Parent(p)) && !InGit(a.Paths() + PathsOf(ms), Parent(p))
  }

  /**
   * The index after a snapshot: exactly the mentioned paths and the manifests are live; mentioned
   * paths are what the mentions say, other manifests are empty virtual files of their directory's
   * collection.
   */
  ghost predicate Reflects(a: Index, ms: seq<Mention>, b: Index) {
    && (forall p {:trigger b.Live(p)} :: b.Live(p) <==> p in PathsOf(ms) || IsManifest(a, ms, p))
    && (forall p :: p in PathsOf(ms) ==> NodeAt(b, p) == After(NodeAt(a, p), ms, p))
    && (forall p {:trigger b.Live(p)} :: b.Live(p) && p !in PathsOf(ms) ==>
          ManifestOf(NodeAt(a, p), p, b.At(p)) && InCollectionOf(a, ms, b, p))
  }

  /** What is stored of a path that is made a manifest: a kind, a file id and a root mark it had stay. */
  predicate ManifestOf(before: Option<Node>, p: Path, n: Node) {
    && n.virtualMetadata && n.size == 0 && n.path == p
    && n.directory == (before.Some? && before.value.directory)
    && n.collectionRoot == (before.Some? && before.value.collectionRoot)
    && n.fileId == if before.Some? then before.value.fileId else None
  }

  /**
   * A manifest belongs to the collection of its directory: the one the mentions leave it in, or the
   * one it has in the end if that directory is made a manifest itself.
   */
  ghost predicate InCollectionOf(a: Index, ms: seq<Mention>, b: Index, p: Path)
    requires b.Live(p)
  {
    && p != []
    && var d := Parent(p);
    && After(NodeAt(a, d), ms, d).Some?
    && (|| b.At(p).collection == After(NodeAt(a, d), ms, d).value.collection
        || (b.Live(d) && d !in PathsOf(ms) && b.At(p).collection == b.At(d).collection))
  }

  /** A path that stays live keeps its inode number and its kind. */
  ghost predicate SurvivorsKeep(a: Index, b: Index) {
    forall p {:trigger b.Live(p)} :: a.Live(p) && b.Live(p) ==>
      b.pathInode[p] == a.pathInode[p] && b.At(p).directory == a.At(p).directory
  }

  /** The path shows the last file row of the list, as a file with the row's contents. */
  ghost predicate ShowsFile(ms: seq<Mention>, b: Index, p: Path)
    requires b.Live(p) && LastFile(ms, p).Some?
  {
    b.At(p).fileId == Some(LastFile(ms, p).value.id) && !b.At(p).virtualMetadata && !b.At(p).directory
  }

  /**
   * A real file of a snapshot is shown as one exactly when its path was neither a manifest nor a
   * directory before and, if it is new, the snapshot mentions it first as a file: the mark and
   * the kind of an old path stay, and a new one takes its kind from its first mention. The
   * file's id is there in any case.
   */
  lemma RealFileWinsExactly(a: Index, ms: seq<Mention>, b: Index, p: Path)
    requires Reflects(a, ms, b) && LastFile(ms, p).Some?
    ensures b.Live(p) && b.At(p).fileId == Some(LastFile(ms, p).value.id) && FirstMention(ms, p).Some?
    ensures !b.At(p).virtualMetadata <==> !(a.Live(p) && a.At(p).virtualMetadata)
    ensures ShowsFile(ms, b, p) <==>
              if a.Live(p) then !a.At(p).virtualMetadata && !a.At(p).directory else !FirstMention(ms, p).value.directory
  {
    LastFileIsMentioned(ms, p);
    KindIsFirstMention(NodeAt(a, p), ms, p);
    LastFileShows(NodeAt(a, p), ms, p);
    assert b.Live(p);
  }

  /** A folder of the manifest's name. */
  const METADATA_FOLDER := Snapshot("c", [], [Folder("c", [METADATA_NAME])], [])

  /**
   * An old directory does occur: the folder of the first snapshot is no manifest, and the second one's
   * file is then shown as a directory.
   */
  lemma DirectoryHidesFile(a: Index, b: Index, c: Index)
    requires a.Valid() && a.Paths() == {[]}
    requires Reflects(a, Mentions(METADATA_FOLDER), b) && Reflects(b, Mentions(WITH_METADATA), c)
    ensures var p := [METADATA_NAME];
            && b.Live(p) && !b.At(p).virtualMetadata
            && c.Live(p) && c.At(p).fileId == Some("f") && !c.At(p).virtualMetadata && c.At(p).directory
  {
    FolderIsDirectory(a, b);
    FileOfMetadata();
    RealFileWinsExactly(b, Mentions(WITH_METADATA), c, [METADATA_NAME]);
  }

  lemma FolderIsDirectory(a: Index, b: Index)
    requires a.Paths() == {[]} && Reflects(a, Mentions(METADATA_FOLDER), b)
    ensures var p := [METADATA_NAME]; b.Live(p) && b.At(p).directory && !b.At(p).virtualMetadata
  {
    var p, ms := [METADATA_NAME], Mentions(METADATA_FOLDER);
    FolderMentions();
    assert ms[1] in ms && p in PathsOf(ms);
    assert NodeAt(a, p) == None;
    KindIsFirstMention(None, ms, p);
    assert b.Live(p);
  }

  lemma FolderMentions()
    ensures Mentions(METADATA_FOLDER)
            == [Mention([], true, InCollection("c")), Mention([METADATA_NAME], true, InCollection("c"))]
    ensures FirstMention(Mentions(METADATA_FOLDER), [METADATA_NAME])
            == Some(Mention([METADATA_NAME], true, InCollection("c")))
  {
    var roots, folder := RootsOf("c", []), Folder("c", [METADATA_NAME]);
    assert roots == map["c" := []] && [] + folder.path == folder.path;
    assert OfFolders(roots, [folder]) == OfFolders(roots, []) + OfFolder(roots, folder);
    assert folder.path[..1] == folder.path;
    var ms := Mentions(METADATA_FOLDER);
    assert ms[..1] == [ms[0]] && ms[..1][..0] == [];
  }

  /**
   * The snapshots of an empty collection at the root, and of that collection with a real file of the
   * manifest's name.
   */
  const EMPTY_COLLECTION := Snapshot("c", [], [], [])
  const WITH_METADATA := Snapshot("c", [], [], [FileRow("f", "c", [METADATA_NAME], 5)])

  /**
   * An old manifest does occur: the first of these snapshots makes it, and the second one's file is
   * then shown as virtual.
   */
  lemma ManifestHidesFile(a: Index, b: Index, c: Index)
    requires a.Valid() && a.Paths() == {[]}
    requires Reflects(a, Mentions(EMPTY_COLLECTION), b) && Reflects(b, Mentions(WITH_METADATA), c)
    ensures var p := [METADATA_NAME];
            && b.Live(p) && b.At(p).virtualMetadata
            && c.Live(p) && c.At(p).fileId == Some("f") && c.At(p).virtualMetadata
  {
    EmptyCollectionGetsManifest(a, b);
    FileOfMetadata();
    RealFileWinsExactly(b, Mentions(WITH_METADATA), c, [METADATA_NAME]);
  }

  lemma EmptyCollectionGetsManifest(a: Index, b: Index)
    requires a.Valid() && a.Paths() == {[]} && Reflects(a, Mentions(EMPTY_COLLECTION), b)
    ensures b.Live([METADATA_NAME]) && b.At([METADATA_NAME]).virtualMetadata
  {
    var p, ms := [METADATA_NAME], Mentions(EMPTY_COLLECTION);
    assert ms == [Mention([], true, InCollection("c"))];
    assert Parent(p) == [] && a.InodeOf([]).Some?;
    assert After(NodeAt(a, []), ms[..0], []) == NodeAt(a, []);
    assert ListedDirectory(a, ms, []);
    assert IsManifest(a, ms, p);
  }

  lemma FileOfMetadata()
    ensures LastFile(Mentions(WITH_METADATA), [METADATA_NAME]) == Some(FileRow("f", "c", [METADATA_NAME], 5))
  {
    var row := FileRow("f", "c", [METADATA_NAME], 5);
    var roots := RootsOf("c", []);
    assert [] + row.path == row.path;
    assert OfFiles(roots, [row]) == OfFiles(roots, []) + OfFile(roots, row);
    var ms := Mentions(WITH_METADATA);
    assert ms[|ms| - 1] == Mention([METADATA_NAME], false, AsFile(row));
  }

  lemma {:induction false} LastFileIsMentioned(ms: seq<Mention>, p: Path)
    requires LastFile(ms, p).Some?
    ensures p in (set m | m in ms :: m.path) && p in PathsOf(ms)
    decreases |ms|
  {
    assert ms == ms[..|ms| - 1] + [ms[|ms| - 1]];
    if !(ms[|ms| - 1].path == p && ms[|ms| - 1].change.AsFile?) {
      LastFileIsMentioned(ms[..|ms| - 1], p);
    }
  }

  /**
   * After a snapshot the directory of a live path is live too, except exactly for the manifests
   * built in directories that this snapshot drops.
   */
  lemma OrphansExactly(a: Index, s: Snapshot, b: Index, p: Path)
    requires a.Live([]) && b.Live([]) && Reflects(a, Mentions(s), b) && b.Live(p) && p != []
    ensures !b.Live(Parent(p)) <==>
              p !in PathsOf(Mentions(s)) && Parent(p) !in PathsOf(Mentions(s)) && !IsManifest(a, Mentions(s), Parent(p))
  {
    if p in PathsOf(Mentions(s)) {
      ParentsAreMentioned(s, p);
    }
  }

  /** A collection at a directory, and no collection any more. */
  const ONE_COLLECTION := Snapshot("", [Collection("d", ["x"])], [], [])
  const NO_COLLECTION := Snapshot("", [], [], [])

  /** Such a manifest does occur: the second of these snapshots drops the directory and keeps the manifest in it. */
  lemma ManifestIsOrphaned(a: Index, b: Index, c: Index)
    requires a.Valid() && a.Paths() == {[]} && b.Valid()
    requires Reflects(a, Mentions(ONE_COLLECTION), b) && Reflects(b, Mentions(NO_COLLECTION), c)
    ensures !c.Live(["x"]) && c.Live(["x", METADATA_NAME])
  {
    OneCollectionShows(a, b);
    var d, p, ms := ["x"], ["x", METADATA_NAME], Mentions(NO_COLLECTION);
    assert ms == [] && PathsOf(ms) == {[]};
    assert Parent(p) == d && Name(d) == "x" && !IsManifest(b, ms, d);
    assert ListedDirectory(b, ms, d);
    assert IsManifest(b, ms, p);
  }

  lemma OneCollectionShows(a: Index, b: Index)
    requires a.Valid() && a.Paths() == {[]} && b.Valid() && Reflects(a, Mentions(ONE_COLLECTION), b)
    ensures b.Live(["x"]) && b.At(["x"]).directory && b.At(["x"]).collection == "d"
    ensures !InGit(b.Paths() + {[]}, ["x"])
  {
    var d, m := ["x"], Mention(["x"], true, AsRoot("d"));
    var ms := Mentions(ONE_COLLECTION);
    assert OfCollection(Collection("d", d)) == [m] && ms == [m];
    assert ms[0] in ms && NodeAt(a, d) == None && After(None, ms[..0], d) == None;
    assert After(NodeAt(a, d), ms, d) == Some(Mentioned1(None, m));
    assert b.Live(d) && NodeAt(b, d) == Some(Mentioned1(None, m));
    forall k | 0 <= k <= |d| ensures d[..k] + [GIT] !in b.Paths() + {[]} {
      var g := d[..k] + [GIT];
      assert Name(g) == GIT && |GIT| != |METADATA_NAME| && g[|g| - 1] != "x";
      assert g !in PathsOf(ms) && !b.Live(g) && b.InodeOf([]).Some?;
      assert g in b.pathInode ==> b.Live(g);
    }
  }

  /** A list of mentions names with each path its parent. */
  ghost predicate Rooted(ms: seq<Mention>) {
    forall m {:trigger m in ms} :: m in ms && m.path != [] ==> Parent(m.path) in PathsOf(ms)
  }

  lemma RootedPair(xs: seq<Mention>, ys: seq<Mention>)
    requires Rooted(xs) && Rooted(ys)
    ensures Rooted(xs + ys)
  {
    assert PathsOf(xs + ys) == PathsOf(xs) + PathsOf(ys);
  }

  lemma RootedPrefixes(full: Path, n: nat, change: Change, last: Mention)
    requires n <= |full|
    ensures Rooted(Prefixes(full, n, change))
    ensures full != [] && n == |full| - 1 && last.path == full ==> Rooted(Prefixes(full, n, change) + [last])
  {
    var ms := Prefixes(full, n, change);
    forall k | 0 < k < n ensures Parent(ms[k].path) in PathsOf(ms) {
      assert Parent(full[..k + 1]) == full[..k] == ms[k - 1].path;
      assert ms[k - 1] in ms;
    }
    forall m | m in ms && m.path != [] ensures Parent(m.path) in PathsOf(ms) {
      var k :| 0 <= k < n && m == ms[k];
      if k == 0 { assert Parent(full[..1]) == []; }
    }
    if full != [] && n == |full| - 1 && last.path == full {
      var all := ms + [last];
      assert PathsOf(all) == PathsOf(ms) + {full};
      if n == 0 {
        assert Parent(full) == [];
      } else {
        assert Parent(full) == ms[n - 1].path && ms[n - 1] in all;
      }
    }
  }

  lemma CollectionRooted(c: Collection)
    ensures Rooted(OfCollection(c))
  {
    if c.treePath != [] {
      RootedPrefixes(c.treePath, |c.treePath| - 1, Keep, Mention(c.treePath, true, AsRoot(c.id)));
    }
  }

  lemma FolderRooted(roots: map<string, Path>, f: Folder)
    ensures Rooted(OfFolder(roots, f))
  {
    if f.collectionId in roots && roots[f.collectionId] + f.path != [] {
      var full := roots[f.collectionId] + f.path;
      RootedPrefixes(full, |full|, InCollection(f.collectionId), Mention([], true, Keep));
    }
  }

  lemma FileRooted(roots: map<string, Path>, row: FileRow)
    ensures Rooted(OfFile(roots, row))
  {
    if row.collectionId in roots {
      var full := roots[row.collectionId] + row.path;
      if full != [] {
        RootedPrefixes(full, |full| - 1, InCollection(row.collectionId), Mention(full, false, AsFile(row)));
      }
    }
  }

  lemma {:induction false} CollectionsRooted(cs: seq<Collection>)
    ensures Rooted(OfCollections(cs))
    decreases |cs|
  {
    if cs != [] {
      CollectionsRooted(cs[..|cs| - 1]);
      CollectionRooted(cs[|cs| - 1]);
      RootedPair(OfCollections(cs[..|cs| - 1]), OfCollection(cs[|cs| - 1]));
    }
  }

  lemma {:induction false} FoldersRooted(roots: map<string, Path>, fs: seq<Folder>)
    ensures Rooted(OfFolders(roots, fs))
    decreases |fs|
  {
    if fs != [] {
      FoldersRooted(roots, fs[..|fs| - 1]);
      FolderRooted(roots, fs[|fs| - 1]);
      RootedPair(OfFolders(roots, fs[..|fs| - 1]), OfFolder(roots, fs[|fs| - 1]));
    }
  }

  lemma {:induction false} FilesRooted(roots: map<string, Path>, rows: seq<FileRow>)
    ensures Rooted(OfFiles(roots, rows))
    decreases |rows|
  {
    if rows != [] {
      FilesRooted(roots, rows[..|rows| - 1]);
      FileRooted(roots, rows[|rows| - 1]);
      RootedPair(OfFiles(roots, rows[..|rows| - 1]), OfFile(roots, rows[|rows| - 1]));
    }
  }

  lemma ParentsAreMentioned(s: Snapshot, p: Path)
    requires p in PathsOf(Mentions(s)) && p != []
    ensures Parent(p) in PathsOf(Mentions(s))
  {
    var roots := RootsOf(s.rootCollectionId, s.collections);
    var r, c, f, rows := OfRoot(s.rootCollectionId), OfCollections(s.collections), OfFolders(roots, s.folders),
      OfFiles(roots, s.files);
    CollectionsRooted(s.collections);
    FoldersRooted(roots, s.folders);
    FilesRooted(roots, s.files);
    RootedPair(r, c);
    RootedPair(r + c, f);
    RootedPair(r + c + f, rows);
    var m :| m in Mentions(s) && m.path == p;
  }
}
