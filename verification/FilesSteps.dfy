/** How single updates of the indexes add up to a snapshot. */
module FilesSteps {
  import opened Wrappers
  import opened FilesIndex
  import opened FilesSnapshot

  // ---- Following a snapshot ----

  /** Paths that were there keep their inode number, new ones have new numbers. */
  ghost predicate Grows(a: Index, b: Index) {
    && a.nextInode <= b.nextInode
    && (forall p {:trigger p in a.pathInode} :: p in a.pathInode ==> b.InodeOf(p) == a.InodeOf(p))
    && (forall p {:trigger p in b.pathInode} :: p in b.pathInode && p !in a.pathInode ==> b.pathInode[p] >= a.nextInode)
  }

  ghost predicate Contents(a: Index, b: Index, ms: seq<Mention>) {
    forall p {:trigger NodeAt(b, p)} :: NodeAt(b, p) == After(NodeAt(a, p), ms, p)
  }

  /** Index `b` is index `a` after the mentions `ms`, with no path dropped yet. */
  ghost predicate Follows(a: Index, b: Index, ms: seq<Mention>) {
    a.Valid() && b.Valid() && Grows(a, b) && Contents(a, b, ms)
  }

  lemma GrowsOn(a: Index, b: Index, c: Index)
    requires Grows(a, b) && Grows(b, c)
    ensures Grows(a, c)
  {
    forall p | p in a.pathInode ensures c.InodeOf(p) == a.InodeOf(p) {
      assert b.InodeOf(p) == a.InodeOf(p);
    }
  }

  lemma LiveInValid(ix: Index, p: Path)
    requires ix.Valid()
    ensures ix.Live(p) <==> p in ix.pathInode
    ensures NodeAt(ix, p).Some? <==> p in ix.pathInode
  {
  }

  /** The index after `node` is stored at a path, which is added as a directory or a file if it is new. */
  function Store(ix: Index, path: Path, directory: bool, node: Node): Index
    requires ix.Live([])
  {
    Put(AddNode(ix, path, directory), path, node)
  }

  lemma AddGrows(ix: Index, path: Path, directory: bool, added: Index)
    requires ix.Valid() && ix.Live([]) && added == AddNode(ix, path, directory)
    ensures added.Valid() && Grows(ix, added) && added.Paths() == ix.Paths() + {path}
    ensures forall p :: p in ix.pathInode ==> added.At(p) == ix.At(p)
    ensures path !in ix.pathInode ==> added.At(path) == Node(path, directory, "", false, false, None, 0)
  {
    AddNodeKeeps(ix, path, directory);
  }

  lemma StoreGrows(ix: Index, path: Path, directory: bool, node: Node, added: Index, ix': Index)
    requires ix.Valid() && ix.Live([]) && added == AddNode(ix, path, directory) && ix' == Put(added, path, node)
    requires node.path == path && node.directory == if path in ix.pathInode then ix.At(path).directory else directory
    ensures ix'.Valid() && Grows(ix, ix') && ix'.Paths() == ix.Paths() + {path}
    ensures ix'.At(path) == node
    ensures forall p :: p in ix.pathInode && p != path ==> ix'.At(p) == ix.At(p)
  {
    AddGrows(ix, path, directory, added);
    PutKeeps(added, path, node);
  }

  /** `c` is `b` but for the node at one path. */
  ghost predicate Stored(b: Index, c: Index, path: Path, node: Node) {
    && c.Valid() && Grows(b, c) && c.Paths() == b.Paths() + {path}
    && (forall p {:trigger NodeAt(c, p)} :: NodeAt(c, p) == if p == path then Some(node) else NodeAt(b, p))
  }

  lemma StoreNodes(ix: Index, path: Path, directory: bool, node: Node)
    requires ix.Valid() && ix.Live([])
    requires node.path == path && node.directory == if path in ix.pathInode then ix.At(path).directory else directory
    ensures Stored(ix, Store(ix, path, directory, node), path, node)
  {
    var ix' := Store(ix, path, directory, node);
    StoreGrows(ix, path, directory, node, AddNode(ix, path, directory), ix');
    forall p ensures NodeAt(ix', p) == if p == path then Some(node) else NodeAt(ix, p) {
      LiveInValid(ix, p);
      LiveInValid(ix', p);
      assert p in ix'.Paths() <==> p in ix.Paths() || p == path;
    }
  }

  lemma ContentsOneMore(a: Index, b: Index, c: Index, ms: seq<Mention>, m: Mention)
    requires Contents(a, b, ms)
    requires forall p {:trigger NodeAt(c, p)} ::
               NodeAt(c, p) == if p == m.path then Some(Mentioned1(NodeAt(b, p), m)) else NodeAt(b, p)
    ensures Contents(a, c, ms + [m])
  {
    assert (ms + [m])[..|ms + [m]| - 1] == ms;
    forall p ensures NodeAt(c, p) == After(NodeAt(a, p), ms + [m], p) {
      assert NodeAt(b, p) == After(NodeAt(a, p), ms, p);
    }
  }

  lemma FollowsOneMore(a: Index, b: Index, c: Index, ms: seq<Mention>, m: Mention)
    requires Follows(a, b, ms) && Stored(b, c, m.path, Mentioned1(NodeAt(b, m.path), m))
    ensures Follows(a, c, ms + [m])
  {
    GrowsOn(a, b, c);
    ContentsOneMore(a, b, c, ms, m);
  }

  /** A node that is looked up or added and then changed. */
  lemma MentionStored(b: Index, added: Index, c: Index, m: Mention)
    requires b.Valid() && b.Live([]) && added == AddNode(b, m.path, m.directory)
    requires added.Live(m.path) && c == Put(added, m.path, Changed(added.At(m.path), m.change))
    ensures Stored(b, c, m.path, Mentioned1(NodeAt(b, m.path), m))
  {
    AddGrows(b, m.path, m.directory, added);
    LiveInValid(b, m.path);
    StoreNodes(b, m.path, m.directory, Mentioned1(NodeAt(b, m.path), m));
  }

  lemma RootIsLive(ix: Index)
    requires ix.Valid()
    ensures ix.Live([])
  {
    assert ix.InodeOf([]).Some?;
  }

  // ---- Manifests ----

  function ManifestPath(d: Path): Path {
    d + [METADATA_NAME]
  }

  /** The manifests that directories `dirs` get, given the paths there were. */
  ghost predicate InManifests(dirs: seq<Path>, paths: set<Path>, p: Path) {
    exists d {:trigger d in dirs} :: d in dirs && p == ManifestPath(d) && !InGit(paths, d)
  }

  ghost predicate MadeAt(b: Index, c: Index, p: Path) {
    && p != [] && Name(p) == METADATA_NAME && c.Live(p) && ManifestOf(NodeAt(b, p), p, c.At(p))
    && TakesCollection(b, c, p)
  }

  /** The collection is that of the directory, before or after this was made a manifest itself. */
  ghost predicate TakesCollection(b: Index, c: Index, p: Path)
    requires p != [] && c.Live(p)
  {
    var before, after := NodeAt(b, Parent(p)), NodeAt(c, Parent(p));
    && before.Some? && after.Some?
    && (c.At(p).collection == before.value.collection || c.At(p).collection == after.value.collection)
  }

  /** `c` is `b` with a manifest at each path of `made`. */
  ghost predicate Manifested(b: Index, c: Index, made: set<Path>) {
    && b.Valid() && c.Valid() && Grows(b, c)
    && c.Paths() == b.Paths() + made
    && (forall p {:trigger NodeAt(c, p)} :: p !in made ==> NodeAt(c, p) == NodeAt(b, p))
    && (forall p {:trigger MadeAt(b, c, p)} :: p in made ==> MadeAt(b, c, p))
  }

  function ManifestNode(n: Option<Node>, path: Path, collection: string): Node {
    (if n.Some? then n.value else Node(path, false, "", false, false, None, 0))
      .(virtualMetadata := true, size := 0, collection := collection)
  }

  lemma OneManifest(b: Index, c': Index, path: Path, collection: string)
    requires b.Valid() && path != [] && Name(path) == METADATA_NAME
    requires NodeAt(c', path) == Some(ManifestNode(NodeAt(b, path), path, collection))
    requires NodeAt(b, Parent(path)).Some? && NodeAt(c', Parent(path)).Some?
    requires NodeAt(c', Parent(path)).value.collection == collection
    ensures MadeAt(b, c', path)
  {
    LiveInValid(b, path);
  }

  lemma OldManifest(b: Index, c: Index, c': Index, p: Path)
    requires MadeAt(b, c, p) && NodeAt(c', p) == NodeAt(c, p)
    requires NodeAt(c', Parent(p)) == NodeAt(c, Parent(p))
             || (NodeAt(c', Parent(p)).Some? && NodeAt(c, Parent(p)) == NodeAt(b, Parent(p)))
    ensures MadeAt(b, c', p)
  {
  }

  lemma OldManifests(b: Index, c: Index, c': Index, made: set<Path>, path: Path, node: Node)
    requires Manifested(b, c, made) && path !in made && Stored(c, c', path, node)
    ensures forall p :: p in made ==> MadeAt(b, c', p)
  {
    forall p | p in made ensures MadeAt(b, c', p) {
      assert MadeAt(b, c, p);
      assert NodeAt(c, path) == NodeAt(b, path) && NodeAt(c', path) == Some(node);
      OldManifest(b, c, c', p);
    }
  }

  lemma ManifestOneMore(b: Index, c: Index, c': Index, made: set<Path>, path: Path, collection: string)
    requires Manifested(b, c, made) && path !in made && path != [] && Name(path) == METADATA_NAME
    requires Stored(c, c', path, ManifestNode(NodeAt(b, path), path, collection))
    requires NodeAt(b, Parent(path)).Some? && NodeAt(c, Parent(path)).Some?
    requires NodeAt(c, Parent(path)).value.collection == collection
    ensures Manifested(b, c', made + {path})
  {
    hide MadeAt, Grows, ManifestNode, NodeAt, Index.Valid;
    GrowsOn(b, c, c');
    assert NodeAt(c', Parent(path)) == NodeAt(c, Parent(path));
    var node := ManifestNode(NodeAt(b, path), path, collection);
    assert NodeAt(c', path) == Some(node);
    OneManifest(b, c', path, collection);
    OldManifests(b, c, c', made, path, node);
  }

  lemma ManifestStored(b: Index, added: Index, c: Index, path: Path, collection: string)
    requires b.Valid() && b.Live([]) && added == AddNode(b, path, false)
    requires added.Live(path)
             && c == Put(added, path, added.At(path).(virtualMetadata := true, size := 0, collection := collection))
    ensures Stored(b, c, path, ManifestNode(NodeAt(b, path), path, collection))
  {
    AddGrows(b, path, false, added);
    LiveInValid(b, path);
    StoreNodes(b, path, false, ManifestNode(NodeAt(b, path), path, collection));
  }

  lemma NotManifest(b: Index, c: Index, path: Path)
    requires path != [] && Name(path) == GIT
    ensures !MadeAt(b, c, path)
  {
    assert |GIT| != |METADATA_NAME|;
  }

  /** A manifest never makes a directory a repository. */
  lemma ManifestsAreNotGit(b: Index, c: Index, made: set<Path>, d: Path)
    requires Manifested(b, c, made)
    ensures InGit(c.Paths(), d) <==> InGit(b.Paths(), d)
  {
    forall k | 0 <= k <= |d| ensures d[..k] + [GIT] in c.Paths() <==> d[..k] + [GIT] in b.Paths() {
      assert Name(d[..k] + [GIT]) == GIT;
      NotManifest(b, c, d[..k] + [GIT]);
    }
  }

  // ---- Forgetting ----

  /** `d` is `c` without the paths `gone`. */
  ghost predicate Dropped(c: Index, d: Index, gone: set<Path>) {
    && c.Valid() && d.Valid() && d.nextInode == c.nextInode
    && d.Paths() == c.Paths() - gone
    && (forall p {:trigger NodeAt(d, p)} :: p in d.pathInode ==>
          NodeAt(d, p) == NodeAt(c, p) && d.InodeOf(p) == c.InodeOf(p))
  }

  lemma DroppedOneMore(c: Index, d: Index, gone: set<Path>, path: Path)
    requires Dropped(c, d, gone) && path != []
    ensures Dropped(c, Drop(d, path), gone + {path})
  {
    var d' := Drop(d, path);
    DropKeeps(d, path);
    forall p | p in d'.pathInode ensures NodeAt(d', p) == NodeAt(c, p) && d'.InodeOf(p) == c.InodeOf(p) {
      assert NodeAt(d, p) == NodeAt(c, p);
      assert d'.At(p) == d.At(p);
    }
  }

  // ---- A whole snapshot ----

  lemma StageOnePaths(a: Index, b: Index, ms: seq<Mention>)
    requires Follows(a, b, ms)
    ensures b.Paths() == a.Paths() + PathsOf(ms)
  {
    forall p ensures p in b.Paths() <==> p in a.Paths() + PathsOf(ms) {
      LiveInValid(a, p);
      LiveInValid(b, p);
      assert NodeAt(b, p) == After(NodeAt(a, p), ms, p);
      KindIsFirstMention(NodeAt(a, p), ms, p);
    }
  }

  /** The directories the manifests are made in are those the mentions leave in a collection. */
  ghost predicate ListsDirectories(b: Index, dirs: seq<Path>) {
    forall p {:trigger p in dirs} ::
      p in dirs <==> NodeAt(b, p).Some? && NodeAt(b, p).value.directory && NodeAt(b, p).value.collection != ""
  }

  lemma ManifestsExactly(a: Index, b: Index, ms: seq<Mention>, dirs: seq<Path>, p: Path)
    requires Follows(a, b, ms) && ListsDirectories(b, dirs)
    ensures InManifests(dirs, b.Paths(), p) <==> IsManifest(a, ms, p)
  {
    StageOnePaths(a, b, ms);
    if IsManifest(a, ms, p) {
      assert Parent(p) + [METADATA_NAME] == p;
      assert NodeAt(b, Parent(p)) == After(NodeAt(a, Parent(p)), ms, Parent(p));
      assert Parent(p) in dirs;
    }
    if InManifests(dirs, b.Paths(), p) {
      var d :| d in dirs && p == ManifestPath(d) && !InGit(b.Paths(), d);
      assert Parent(p) == d;
      assert NodeAt(b, d) == After(NodeAt(a, d), ms, d);
    }
  }

  /** The three stages of a snapshot: mentions, manifests at `made`, and dropping what is not present. */
  ghost predicate Stages(a: Index, b: Index, c: Index, d: Index, ms: seq<Mention>, made: set<Path>) {
    && Follows(a, b, ms) && Manifested(b, c, made)
    && Dropped(c, d, c.Paths() - PathsOf(ms) - made)
    && made !! PathsOf(ms)
    && forall p {:trigger p in made} :: p in made <==> p !in PathsOf(ms) && IsManifest(a, ms, p)
  }

  lemma StagesPaths(a: Index, b: Index, c: Index, d: Index, ms: seq<Mention>, made: set<Path>)
    requires Stages(a, b, c, d, ms, made)
    ensures d.Paths() == PathsOf(ms) + made
  {
    StageOnePaths(a, b, ms);
  }

  lemma KindAfter(a: Index, b: Index, ms: seq<Mention>, p: Path)
    requires Follows(a, b, ms) && a.Live(p)
    ensures b.Live(p) && b.At(p).directory == a.At(p).directory
  {
    assert NodeAt(b, p) == After(NodeAt(a, p), ms, p);
    KindIsFirstMention(NodeAt(a, p), ms, p);
  }

  lemma {:induction false} UnmentionedIsKept(n: Option<Node>, ms: seq<Mention>, p: Path)
    requires p !in PathsOf(ms)
    ensures After(n, ms, p) == n
    decreases |ms|
  {
    if ms != [] {
      LastMention(ms, p);
      UnmentionedIsKept(n, ms[..|ms| - 1], p);
    }
  }

  lemma ManifestFromOld(a: Index, b: Index, c: Index, ms: seq<Mention>, p: Path)
    requires Follows(a, b, ms) && p !in PathsOf(ms) && MadeAt(b, c, p)
    ensures ManifestOf(NodeAt(a, p), p, c.At(p))
  {
    assert NodeAt(b, p) == After(NodeAt(a, p), ms, p);
    UnmentionedIsKept(NodeAt(a, p), ms, p);
  }

  lemma ManifestCollection(a: Index, b: Index, c: Index, d: Index, ms: seq<Mention>, made: set<Path>, p: Path)
    requires Stages(a, b, c, d, ms, made) && p in made && d.Live(p)
    ensures InCollectionOf(a, ms, d, p)
  {
    var dir := Parent(p);
    assert MadeAt(b, c, p) && NodeAt(d, p) == NodeAt(c, p);
    assert NodeAt(b, dir) == After(NodeAt(a, dir), ms, dir);
    if dir in made {
      assert MadeAt(b, c, dir);
      StagesPaths(a, b, c, d, ms, made);
      LiveInValid(d, dir);
      assert NodeAt(d, dir) == NodeAt(c, dir);
    } else {
      assert NodeAt(c, dir) == NodeAt(b, dir);
    }
  }

  lemma StagesReflect(a: Index, b: Index, c: Index, d: Index, ms: seq<Mention>, made: set<Path>)
    requires Stages(a, b, c, d, ms, made)
    ensures Reflects(a, ms, d)
  {
    StagesPaths(a, b, c, d, ms, made);
    forall p ensures d.Live(p) <==> p in PathsOf(ms) || IsManifest(a, ms, p) {
      LiveInValid(d, p);
    }
    forall p | p in PathsOf(ms) ensures NodeAt(d, p) == After(NodeAt(a, p), ms, p) {
      assert p in d.pathInode;
      assert NodeAt(d, p) == NodeAt(c, p) == NodeAt(b, p);
    }
    forall p | d.Live(p) && p !in PathsOf(ms)
      ensures ManifestOf(NodeAt(a, p), p, d.At(p)) && InCollectionOf(a, ms, d, p)
    {
      assert p in made && MadeAt(b, c, p);
      assert NodeAt(d, p) == NodeAt(c, p);
      ManifestFromOld(a, b, c, ms, p);
      ManifestCollection(a, b, c, d, ms, made, p);
    }
  }

  lemma SurvivorAt(a: Index, b: Index, c: Index, d: Index, ms: seq<Mention>, made: set<Path>, p: Path)
    requires Stages(a, b, c, d, ms, made) && Grows(a, c) && d.Live(p)
    ensures a.Live(p) ==> d.pathInode[p] == a.pathInode[p] && d.At(p).directory == a.At(p).directory
    ensures !a.Live(p) ==> d.pathInode[p] >= a.nextInode
  {
    LiveInValid(a, p);
    assert NodeAt(d, p) == NodeAt(c, p) && d.InodeOf(p) == c.InodeOf(p);
    if a.Live(p) {
      KindAfter(a, b, ms, p);
      assert c.InodeOf(p) == a.InodeOf(p);
      if p in made { assert MadeAt(b, c, p); } else { assert NodeAt(c, p) == NodeAt(b, p); }
    }
  }

  lemma EvolvesByPaths(a: Index, d: Index)
    requires a.Valid() && d.Valid() && a.nextInode <= d.nextInode
    requires forall p {:trigger d.Live(p)} :: d.Live(p) ==>
               if a.Live(p) then d.pathInode[p] == a.pathInode[p] else d.pathInode[p] >= a.nextInode
    ensures Evolves(a, d)
  {
    forall i | i in d.nodes ensures (i in a.nodes && d.nodes[i].path == a.nodes[i].path) || a.nextInode <= i {
      assert d.Live(d.nodes[i].path) && d.pathInode[d.nodes[i].path] == i;
    }
  }

  lemma StagesKeep(a: Index, b: Index, c: Index, d: Index, ms: seq<Mention>, made: set<Path>)
    requires Stages(a, b, c, d, ms, made)
    ensures SurvivorsKeep(a, d) && Evolves(a, d)
  {
    GrowsOn(a, b, c);
    forall p | d.Live(p)
      ensures if a.Live(p) then d.pathInode[p] == a.pathInode[p] && d.At(p).directory == a.At(p).directory
              else d.pathInode[p] >= a.nextInode
    {
      SurvivorAt(a, b, c, d, ms, made, p);
    }
    EvolvesByPaths(a, d);
  }
}
