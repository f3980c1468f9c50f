/** The FUSE operations that keep the indexes (class SullaFiles of sulla_files_fuse.py). */
module FilesView {
  import opened Wrappers
  import opened Basics
  import opened FilesErrors
  import opened FilesIndex
  import opened FilesListing
  import opened FilesShown
  import opened FilesSnapshot
  import opened FilesSteps

  /** `Fault` is an exception that no handler maps to an errno. */
  datatype Outcome<T> = Done(value: T) | Failed(errno: int) | Fault

  /** The answer of the Files service: a value, or an OSError with the HTTP status if there was one. */
  datatype Answer<T> = Answered(value: T) | Refused(errno: int, status: int)

  /** What the service answers when the operation needs a new snapshot; None when the last one is fresh or unchanged. */
  type Refresh = Option<Answer<Snapshot>>

  class SullaFiles {
    var nodes: map<nat, Node>
    var pathInode: map<Path, nat>
    var children: map<Path, map<string, nat>>
    var nextInode: nat

    function View(): Index
      reads this
    {
      Index(nodes, pathInode, children, nextInode)
    }

    constructor ()
      ensures View().Valid() && View().Paths() == {[]}
    {
      nextInode := ROOT_INODE + 1;
      nodes := map[ROOT_INODE := Node([], true, "", false, false, None, 0)];
      pathInode := map[[] := ROOT_INODE];
      children := map[];
    }

    // ---- _node and _forget ----

    method NodeFor(path: Path, directory: bool) returns (inode: nat)
      requires View().Valid()
      modifies this
      ensures View() == AddNode(old(View()), path, directory)
      ensures path in pathInode && inode == pathInode[path]
    {
      assert View().InodeOf([]).Some?;
      if path in pathInode {
        return pathInode[path];
      }
      inode := nextInode;
      nextInode := nextInode + 1;
      pathInode := pathInode[path := inode];
      nodes := nodes[inode := Node(path, directory, "", false, false, None, 0)];
      var siblings := if Parent(path) in children then children[Parent(path)] else map[];
      children := children[Parent(path) := siblings[Name(path) := inode]];
    }

    method Forget(path: Path)
      requires path != []
      modifies this
      ensures View() == Drop(old(View()), path)
    {
      if path !in pathInode {
        return;
      }
      var inode := pathInode[path];
      pathInode := pathInode - {path};
      nodes := nodes - {inode};
      if Parent(path) in children {
        children := children[Parent(path) := children[Parent(path)] - {Name(path)}];
      }
    }

    // ---- _apply ----

    method Store(m: Mention)
      requires View().Valid()
      modifies this
      ensures Stored(old(View()), View(), m.path, Mentioned1(NodeAt(old(View()), m.path), m))
    {
      ghost var before := View();
      RootIsLive(before);
      AddGrows(before, m.path, m.directory, AddNode(before, m.path, m.directory));
      var inode := NodeFor(m.path, m.directory);
      ghost var added := View();
      LiveInValid(added, m.path);
      nodes := nodes[inode := Changed(nodes[inode], m.change)];
      MentionStored(before, added, View(), m);
    }

    /** One mention of a path: the node is looked up or added, then changed. */
    method Touch(ghost a: Index, ghost ms: seq<Mention>, m: Mention)
      requires Follows(a, View(), ms)
      modifies this
      ensures Follows(a, View(), ms + [m])
    {
      ghost var before := View();
      Store(m);
      FollowsOneMore(a, before, View(), ms, m);
    }

    /** The directories on the way to a path become present. */
    method AddPrefixes(ghost a: Index, ghost ms: seq<Mention>, present: set<Path>, full: Path, n: nat, change: Change)
      returns (present': set<Path>)
      requires n <= |full| && Follows(a, View(), ms) && present == PathsOf(ms)
      modifies this
      ensures Follows(a, View(), ms + Prefixes(full, n, change))
      ensures present' == PathsOf(ms + Prefixes(full, n, change))
    {
      present' := present;
      assert ms + Prefixes(full, 0, change) == ms;
      for index := 0 to n
        invariant Follows(a, View(), ms + Prefixes(full, index, change))
        invariant present' == PathsOf(ms + Prefixes(full, index, change))
      {
        var m := Mention(full[..index + 1], true, change);
        ghost var done := ms + Prefixes(full, index, change);
        MorePrefixes(ms, full, index, change);
        PathsOfMore(done, m);
        present' := present' + {m.path};
        Touch(a, done, m);
      }
    }

    method AddCollection(ghost a: Index, ghost ms: seq<Mention>, present: set<Path>, c: Collection)
      returns (present': set<Path>)
      requires Follows(a, View(), ms) && present == PathsOf(ms)
      modifies this
      ensures Follows(a, View(), ms + OfCollection(c)) && present' == PathsOf(ms + OfCollection(c))
    {
      present' := present;
      if c.treePath == [] {
        assert ms + OfCollection(c) == ms;
        return;
      }
      var m := Mention(c.treePath, true, AsRoot(c.id));
      ghost var way := Prefixes(c.treePath, |c.treePath| - 1, Keep);
      assert ms + OfCollection(c) == ms + way + [m];
      PathsOfMore(ms + way, m);
      present' := AddPrefixes(a, ms, present, c.treePath, |c.treePath| - 1, Keep);
      present' := present' + {m.path};
      Touch(a, ms + way, m);
    }

    method AddFolder(ghost a: Index, ghost ms: seq<Mention>, present: set<Path>, roots: map<string, Path>, f: Folder)
      returns (present': set<Path>)
      requires Follows(a, View(), ms) && present == PathsOf(ms)
      modifies this
      ensures Follows(a, View(), ms + OfFolder(roots, f)) && present' == PathsOf(ms + OfFolder(roots, f))
    {
      present' := present;
      if f.collectionId !in roots {
        assert ms + OfFolder(roots, f) == ms;
        return;
      }
      var full := roots[f.collectionId] + f.path;
      if full == [] {
        var m := Mention([], true, InCollection(f.collectionId));
        PathsOfMore(ms, m);
        present' := present' + {[]};
        Touch(a, ms, m);
      } else {
        present' := AddPrefixes(a, ms, present, full, |full|, InCollection(f.collectionId));
      }
    }

    method AddFile(ghost a: Index, ghost ms: seq<Mention>, present: set<Path>, roots: map<string, Path>, row: FileRow)
      returns (present': set<Path>)
      requires Follows(a, View(), ms) && present == PathsOf(ms)
      modifies this
      ensures Follows(a, View(), ms + OfFile(roots, row)) && present' == PathsOf(ms + OfFile(roots, row))
    {
      present' := present;
      if row.collectionId !in roots {
        assert ms + OfFile(roots, row) == ms;
        return;
      }
      var full := roots[row.collectionId] + row.path;
      var n := if full == [] then 0 else |full| - 1;
      var m := Mention(full, false, AsFile(row));
      ghost var way := Prefixes(full, n, InCollection(row.collectionId));
      assert ms + OfFile(roots, row) == ms + way + [m];
      PathsOfMore(ms + way, m);
      present' := AddPrefixes(a, ms, present, full, n, InCollection(row.collectionId));
      present' := present' + {full};
      Touch(a, ms + way, m);
    }

    method AddCollections(ghost a: Index, ghost ms: seq<Mention>, present: set<Path>, rootCollectionId: string,
                          cs: seq<Collection>)
      returns (present': set<Path>, roots: map<string, Path>)
      requires Follows(a, View(), ms) && present == PathsOf(ms)
      modifies this
      ensures Follows(a, View(), ms + OfCollections(cs)) && present' == PathsOf(ms + OfCollections(cs))
      ensures roots == RootsOf(rootCollectionId, cs)
    {
      present' := present;
      roots := if rootCollectionId == "" then map[] else map[rootCollectionId := []];
      ghost var steps := CollectionSteps(ms, cs);
      ghost var rootSteps := RootSteps(rootCollectionId, cs);
      for i := 0 to |cs|
        invariant Follows(a, View(), steps[i]) && present' == PathsOf(steps[i]) && roots == rootSteps[i]
      {
        roots := roots[cs[i].id := cs[i].treePath];
        present' := AddCollection(a, steps[i], present', cs[i]);
      }
    }

    method AddFolders(ghost a: Index, ghost ms: seq<Mention>, present: set<Path>, roots: map<string, Path>,
                      fs: seq<Folder>)
      returns (present': set<Path>)
      requires Follows(a, View(), ms) && present == PathsOf(ms)
      modifies this
      ensures Follows(a, View(), ms + OfFolders(roots, fs)) && present' == PathsOf(ms + OfFolders(roots, fs))
    {
      present' := present;
      ghost var steps := FolderSteps(ms, roots, fs);
      for i := 0 to |fs|
        invariant Follows(a, View(), steps[i]) && present' == PathsOf(steps[i])
      {
        present' := AddFolder(a, steps[i], present', roots, fs[i]);
      }
    }

    method AddFiles(ghost a: Index, ghost ms: seq<Mention>, present: set<Path>, roots: map<string, Path>,
                    rows: seq<FileRow>)
      returns (present': set<Path>)
      requires Follows(a, View(), ms) && present == PathsOf(ms)
      modifies this
      ensures Follows(a, View(), ms + OfFiles(roots, rows)) && present' == PathsOf(ms + OfFiles(roots, rows))
    {
      present' := present;
      ghost var steps := FileSteps(ms, roots, rows);
      for i := 0 to |rows|
        invariant Follows(a, View(), steps[i]) && present' == PathsOf(steps[i])
      {
        present' := AddFile(a, steps[i], present', roots, rows[i]);
      }
    }

    /** The collection mounted at the root, if there is one. */
    method AddRoot(ghost a: Index, rootCollectionId: string)
      requires a == View() && a.Valid()
      modifies this
      ensures Follows(a, View(), OfRoot(rootCollectionId)) && PathsOf(OfRoot(rootCollectionId)) == {[]}
    {
      FollowsNothing(a);
      if rootCollectionId != "" {
        var m := Mention([], true, InCollection(rootCollectionId));
        PathsOfMore([], m);
        Touch(a, [], m);
        assert [] + [m] == OfRoot(rootCollectionId);
      }
    }

    method AddMentioned(ghost a: Index, s: Snapshot) returns (present: set<Path>)
      requires a == View() && a.Valid()
      modifies this
      ensures Follows(a, View(), Mentions(s)) && present == PathsOf(Mentions(s))
    {
      var roots;
      ghost var ms := OfRoot(s.rootCollectionId);
      AddRoot(a, s.rootCollectionId);
      present := {[]};
      present, roots := AddCollections(a, ms, present, s.rootCollectionId, s.collections);
      ms := ms + OfCollections(s.collections);
      present := AddFolders(a, ms, present, roots, s.folders);
      ms := ms + OfFolders(roots, s.folders);
      present := AddFiles(a, ms, present, roots, s.files);
    }

    /** The directories that belong to a collection, in the order of their inodes. */
    method ListDirectories() returns (dirs: seq<Path>)
      requires View().Valid()
      ensures ListsDirectories(View(), dirs)
    {
      dirs := [];
      ghost var b := View();
      for i := 0 to nextInode
        invariant forall p {:trigger p in dirs} :: p in dirs <==> IsListed(b, p) && pathInode[p] < i
      {
        if i in nodes && nodes[i].directory && nodes[i].collection != "" {
          ListedByInode(b, i);
          dirs := dirs + [nodes[i].path];
        }
      }
      forall p ensures p in dirs <==> IsListed(b, p) {
        LiveInValid(b, p);
      }
    }

    method StoreManifest(path: Path, collection: string)
      requires View().Valid()
      modifies this
      ensures Stored(old(View()), View(), path, ManifestNode(NodeAt(old(View()), path), path, collection))
    {
      ghost var before := View();
      RootIsLive(before);
      AddGrows(before, path, false, AddNode(before, path, false));
      var inode := NodeFor(path, false);
      ghost var added := View();
      LiveInValid(added, path);
      nodes := nodes[inode := nodes[inode].(virtualMetadata := true, size := 0, collection := collection)];
      ManifestStored(before, added, View(), path, collection);
    }

    /** The manifest of one directory, unless it lies in a repository or the path is present already. */
    method AddManifest(ghost b: Index, ghost made: set<Path>, d: Path, present: set<Path>)
      returns (present': set<Path>, ghost made': set<Path>)
      requires Manifested(b, View(), made) && made <= present && NodeAt(b, d).Some?
      modifies this
      ensures Manifested(b, View(), made') && present' == present + made'
      ensures made' == if !InGit(b.Paths(), d) && ManifestPath(d) !in present then made + {ManifestPath(d)} else made
    {
      ghost var before := View();
      var path := ManifestPath(d);
      ManifestsAreNotGit(b, before, made, d);
      StillThere(b, before, made, d);
      if InGit(pathInode.Keys, d) || path in present {
        return present, made;
      }
      StoreManifest(path, nodes[pathInode[d]].collection);
      ManifestOneMore(b, before, View(), made, path, before.nodes[before.pathInode[d]].collection);
      return present + {path}, made + {path};
    }

    method AddManifests(ghost b: Index, dirs: seq<Path>, present: set<Path>)
      returns (present': set<Path>, ghost made: set<Path>)
      requires b == View() && b.Valid() && ListsDirectories(b, dirs)
      modifies this
      ensures Manifested(b, View(), made) && present' == present + made
      ensures forall p {:trigger p in made} :: p in made <==> p !in present && InManifests(dirs, b.Paths(), p)
    {
      present' := present;
      ghost var steps := ManifestSteps(dirs, b.Paths(), present);
      ManifestedNothing(b);
      for i := 0 to |dirs|
        invariant Manifested(b, View(), steps[i]) && present' == present + steps[i]
      {
        made := {};
        assert dirs[i] in dirs;
        present', made := AddManifest(b, steps[i], dirs[i], present');
      }
      made := steps[|dirs|];
    }

    method ForgetUnlessPresent(ghost c: Index, ghost gone: set<Path>, path: Path, present: set<Path>)
      requires Dropped(c, View(), gone) && [] in present
      modifies this
      ensures Dropped(c, View(), if path in present then gone else gone + {path})
    {
      if path != [] && path !in present {
        DroppedOneMore(c, View(), gone, path);
        Forget(path);
      }
    }

    /** Drops every path that is not present; the root stays. */
    method ForgetMissing(present: set<Path>)
      requires View().Valid() && [] in present
      modifies this
      ensures Dropped(old(View()), View(), old(View()).Paths() - present)
    {
      ghost var c := View();
      var left := pathInode.Keys;
      ghost var gone: set<Path> := {};
      DroppedNothing(c);
      while left != {}
        invariant Accounted(c.Paths(), left, gone, present)
        invariant Dropped(c, View(), gone)
        decreases |left|
      {
        var path :| path in left;
        ForgetUnlessPresent(c, gone, path, present);
        AccountedStep(c.Paths(), left, gone, present, path);
        left := left - {path};
        gone := if path in present then gone else gone + {path};
      }
    }

    /** A new snapshot of the service. */
    method Apply(s: Snapshot)
      requires View().Valid()
      modifies this
      ensures View().Valid() && Shows(s, old(View()), View()) && Reflects(old(View()), Mentions(s), View())
      ensures SurvivorsKeep(old(View()), View()) && Evolves(old(View()), View())
    {
      ghost var a := View();
      var present := AddMentioned(a, s);
      ghost var b := View();
      var dirs := ListDirectories();
      ghost var made;
      present, made := AddManifests(b, dirs, present);
      ghost var c := View();
      ForgetMissing(present);
      forall p ensures p in made <==> p !in PathsOf(Mentions(s)) && IsManifest(a, Mentions(s), p) {
        ManifestsExactly(a, b, Mentions(s), dirs, p);
      }
      AllStages(a, b, c, View(), Mentions(s), made, present);
      ReflectsShows(s, a, View());
    }

    // ---- Reading ----

    method TakeRefresh(refresh: Refresh) returns (failed: Option<int>)
      requires View().Valid()
      modifies this
      ensures View().Valid() && Evolves(old(View()), View())
      ensures failed.Some? ==> View() == old(View())
      ensures failed == if refresh.Some? && refresh.value.Refused? then Some(refresh.value.errno) else None
      ensures refresh.Some? && refresh.value.Answered? ==> Shows(refresh.value.value, old(View()), View())
    {
      failed := None;
      match refresh
      case None =>
      case Some(Refused(errno, _)) => failed := Some(errno);
      case Some(Answered(s)) => Apply(s);
    }

    method Lookup(parent: nat, name: string, refresh: Refresh) returns (r: Outcome<nat>)
      requires View().Valid()
      modifies this
      ensures View().Valid() && Evolves(old(View()), View())
      ensures refresh.Some? && refresh.value.Refused? ==> r == Failed(refresh.value.errno) && View() == old(View())
      ensures !(refresh.Some? && refresh.value.Refused?) ==>
                r == match LookupIn(View(), parent, name) case None => Failed(ENOENT) case Some(inode) => Done(inode)
    {
      var failed := TakeRefresh(refresh);
      if failed.Some? {
        return Failed(failed.value);
      }
      if parent !in nodes || !nodes[parent].directory {
        return Failed(ENOENT);
      }
      var path := nodes[parent].path + [name];
      return if path in pathInode then Done(pathInode[path]) else Failed(ENOENT);
    }

    /** One page of a directory that was opened before: names and inodes. */
    method Readdir(fh: nat, start: nat, room: nat, refresh: Refresh) returns (r: Outcome<seq<string>>, inodes: seq<nat>)
      requires View().Valid()
      modifies this
      ensures View().Valid() && Evolves(old(View()), View())
      ensures refresh.Some? && refresh.value.Refused? ==> r == Failed(refresh.value.errno) && View() == old(View())
      ensures !(refresh.Some? && refresh.value.Refused?) ==> (r.Fault? <==> fh !in View().nodes) && !r.Failed?
      ensures r.Done? ==>
                && fh in View().nodes && PageOf(View(), View().nodes[fh].path, start, room, r.value)
                && |inodes| == |r.value|
                && forall k :: 0 <= k < |inodes| ==>
                     View().ChildOf(View().nodes[fh].path, r.value[k]) == Some(inodes[k])
    {
      inodes := [];
      var failed := TakeRefresh(refresh);
      if failed.Some? {
        return Failed(failed.value), [];
      }
      if fh !in nodes {
        return Fault, [];
      }
      var page;
      page, inodes := ReadPage(View(), nodes[fh].path, start, room);
      return Done(page), inodes;
    }

    // ---- Changing ----

    /** Before the service answers: the parent has to be a directory. */
    function ChildPath(parent: nat, name: string): Option<Path>
      reads this
    {
      if parent in nodes && nodes[parent].directory then Some(nodes[parent].path + [name]) else None
    }

    /** `openFailure` is the errno with which opening the new file fails, if it does; the file is there all the same. */
    method Create(parent: nat, name: string, answer: Answer<FileRow>, openFailure: Option<int>)
      returns (r: Outcome<nat>)
      requires View().Valid()
      modifies this
      ensures View().Valid() && Evolves(old(View()), View())
      ensures old(ChildPath(parent, name)).None? ==> r == Failed(ENOTDIR) && View() == old(View())
      ensures old(ChildPath(parent, name)).Some? ==>
                var p := old(nodes)[parent];
                var path := p.path + [name];
                if !p.collectionRoot && p.collection == "" then r == Failed(EPERM) && View() == old(View())
                else if answer.Refused? then
                  && r == Failed(if answer.status == 400 then EINVAL else if answer.status == 403 then EACCES
                                 else answer.errno)
                  && View() == old(View())
                else
                  && Stored(old(View()), View(), path,
                            Created(NodeAt(old(View()), path), path, p.collection, answer.value))
                  && r == if View().At(path).directory then Failed(EISDIR)
                          else if openFailure.Some? then Failed(openFailure.value) else Done(View().pathInode[path])
    {
      if ChildPath(parent, name).None? {
        return Failed(ENOTDIR);
      }
      var p := nodes[parent];
      var path := p.path + [name];
      if !p.collectionRoot && p.collection == "" {
        return Failed(EPERM);
      }
      if answer.Refused? {
        return Failed(MappedErrno(answer.errno, answer.status));
      }
      ghost var before := View();
      Store(Mention(path, false, AsFile(answer.value.(collectionId := p.collection))));
      StoredEvolves(before, View(), path);
      var inode := pathInode[path];
      if nodes[inode].directory {
        return Failed(EISDIR);
      }
      return if openFailure.Some? then Failed(openFailure.value) else Done(inode);
    }

    method Mkdir(parent: nat, name: string, answer: Answer<()>) returns (r: Outcome<nat>)
      requires View().Valid()
      modifies this
      ensures View().Valid() && Evolves(old(View()), View())
      ensures old(ChildPath(parent, name)).None? ==> r == Failed(ENOTDIR) && View() == old(View())
      ensures old(ChildPath(parent, name)).Some? ==>
                var p := old(nodes)[parent];
                var path := p.path + [name];
                if p.collection == "" then r == Failed(EPERM) && View() == old(View())
                else if answer.Refused? then r == Failed(answer.errno) && View() == old(View())
                else
                  && Stored(old(View()), View(), path, Made(NodeAt(old(View()), path), path, p.collection))
                  && r == Done(View().pathInode[path])
    {
      if ChildPath(parent, name).None? {
        return Failed(ENOTDIR);
      }
      var p := nodes[parent];
      var path := p.path + [name];
      if p.collection == "" {
        return Failed(EPERM);
      }
      if answer.Refused? {
        return Failed(answer.errno);
      }
      ghost var before := View();
      Store(Mention(path, true, InCollection(p.collection)));
      StoredEvolves(before, View(), path);
      return Done(pathInode[path]);
    }

    /** A file without an id in the service, as a manifest is, cannot be deleted: the id is read without a check. */
    method Unlink(parent: nat, name: string, answer: Answer<()>) returns (r: Outcome<()>)
      requires View().Valid()
      modifies this
      ensures View().Valid() && Evolves(old(View()), View())
      ensures r.Done? <==> View() != old(View())
      ensures old(ChildPath(parent, name)).None? ==> r == Failed(ENOTDIR)
      ensures old(ChildPath(parent, name)).Some? ==>
                var path := old(ChildPath(parent, name)).value;
                var n := NodeAt(old(View()), path);
                if n.None? || n.value.directory then r == Failed(ENOENT)
                else if n.value.fileId.None? then r == Fault
                else if answer.Refused? then r == Failed(answer.errno)
                else r == Done(()) && View() == Drop(old(View()), path)
    {
      var child := ChildPath(parent, name);
      if child.None? {
        return Failed(ENOTDIR);
      }
      var path := child.value;
      LiveInValid(View(), path);
      if path !in pathInode || nodes[pathInode[path]].directory {
        return Failed(ENOENT);
      }
      if nodes[pathInode[path]].fileId.None? {
        return Fault;
      }
      if answer.Refused? {
        return Failed(answer.errno);
      }
      DropEvolves(View(), path);
      Forget(path);
      return Done(());
    }

    /**
     * A directory outside the collections has no collection to name to the service. The children
     * of a dropped directory stay in the index until the next snapshot.
     */
    method Rmdir(parent: nat, name: string, answer: Answer<()>) returns (r: Outcome<()>)
      requires View().Valid()
      modifies this
      ensures View().Valid() && Evolves(old(View()), View())
      ensures r.Done? <==> View() != old(View())
      ensures old(ChildPath(parent, name)).None? ==> r == Failed(ENOTDIR)
      ensures old(ChildPath(parent, name)).Some? ==>
                var path := old(ChildPath(parent, name)).value;
                var n := NodeAt(old(View()), path);
                if n.None? || n.value.collectionRoot then r == Failed(EPERM)
                else if old(View()).nodes[parent].collection == "" then r == Fault
                else if answer.Refused? then r == Failed(answer.errno)
                else r == Done(()) && View() == Drop(old(View()), path)
    {
      var child := ChildPath(parent, name);
      if child.None? {
        return Failed(ENOTDIR);
      }
      var path := child.value;
      LiveInValid(View(), path);
      if path !in pathInode || nodes[pathInode[path]].collectionRoot {
        return Failed(EPERM);
      }
      if nodes[parent].collection == "" {
        return Fault;
      }
      if answer.Refused? {
        return Failed(answer.errno);
      }
      DropEvolves(View(), path);
      Forget(path);
      return Done(());
    }

    // ---- Any sequence of operations ----

    method Serve(request: Request)
      requires View().Valid()
      modifies this
      ensures View().Valid() && Evolves(old(View()), View())
    {
      match request
      case TakeSnapshot(s) => Apply(s);
      case MakeFile(parent, name, answer, openFailure) => var _ := Create(parent, name, answer, openFailure);
      case MakeDirectory(parent, name, answer) => var _ := Mkdir(parent, name, answer);
      case RemoveFile(parent, name, answer) => var _ := Unlink(parent, name, answer);
      case RemoveDirectory(parent, name, answer) => var _ := Rmdir(parent, name, answer);
    }

    /** Whatever is asked in whatever order, the indexes agree at every point and the run is a history. */
    method ServeAll(requests: seq<Request>) returns (ghost h: seq<Index>)
      requires View().Valid()
      modifies this
      ensures View().Valid() && History(h)
      ensures |h| == |requests| + 1 && h[0] == old(View()) && h[|requests|] == View()
    {
      h := [View()];
      for i := 0 to |requests|
        invariant View().Valid() && History(h)
        invariant |h| == i + 1 && h[0] == old(View()) && h[i] == View()
      {
        ghost var before := View();
        Serve(requests[i]);
        HistoryOn(h, View());
        h := h + [View()];
      }
    }
  }

  /** The entries of a directory sorted by name, from the one after `start` on, as many as there is room for. */
  method ReadPage(ix: Index, dir: Path, start: nat, room: nat) returns (page: seq<string>, inodes: seq<nat>)
    ensures PageOf(ix, dir, start, room, page) && |inodes| == |page|
    ensures forall k :: 0 <= k < |inodes| ==> ix.ChildOf(dir, page[k]) == Some(inodes[k])
  {
    var entries := Children(ix, dir);
    var names := SortNames(entries.Keys);
    var from, to := Min(start, |names|), Min(start + room, |names|);
    page, inodes := [], [];
    for k := from to to
      invariant page == names[from..k] && |inodes| == |page|
      invariant forall j :: 0 <= j < |inodes| ==> ix.ChildOf(dir, page[j]) == Some(inodes[j])
    {
      assert names[k] in NamesOf(names);
      page, inodes := page + [names[k]], inodes + [entries[names[k]]];
    }
    assert ListingOf(ix, dir, names);
  }

  /** What is stored of a file that was created: what its path was before stays but for id, size and collection. */
  function Created(before: Option<Node>, path: Path, collection: string, row: FileRow): Node {
    match before
    case None => Node(path, false, collection, false, false, Some(row.id), row.size)
    case Some(n) => n.(collection := collection, fileId := Some(row.id), size := row.size)
  }

  /** What is stored of a directory that was made. */
  function Made(before: Option<Node>, path: Path, collection: string): Node {
    match before
    case None => Node(path, true, collection, false, false, None, 0)
    case Some(n) => n.(collection := collection)
  }

  datatype Request =
    | TakeSnapshot(s: Snapshot)
    | MakeFile(parent: nat, name: string, created: Answer<FileRow>, openFailure: Option<int>)
    | MakeDirectory(parent: nat, name: string, made: Answer<()>)
    | RemoveFile(parent: nat, name: string, removed: Answer<()>)
    | RemoveDirectory(parent: nat, name: string, removed: Answer<()>)

  lemma HistoryOn(h: seq<Index>, next: Index)
    requires History(h) && h != [] && next.Valid() && Evolves(h[|h| - 1], next)
    ensures History(h + [next])
  {
    hide Evolves;
  }

  lemma StoredEvolves(b: Index, c: Index, path: Path)
    requires b.Valid() && c.Valid() && Grows(b, c) && c.Paths() == b.Paths() + {path}
    ensures Evolves(b, c) && c.Live(path)
  {
    LiveInValid(c, path);
    forall p | c.Live(p) ensures if b.Live(p) then c.pathInode[p] == b.pathInode[p] else c.pathInode[p] >= b.nextInode {
      LiveInValid(b, p);
      assert p in b.pathInode ==> c.InodeOf(p) == b.InodeOf(p);
    }
    EvolvesByPaths(b, c);
  }

  lemma DropEvolves(b: Index, path: Path)
    requires b.Valid() && path in b.pathInode && path != []
    ensures Drop(b, path).Valid() && Evolves(b, Drop(b, path)) && Drop(b, path) != b
  {
    DropKeeps(b, path);
  }

  lemma PathsOfMore(ms: seq<Mention>, m: Mention)
    ensures PathsOf(ms + [m]) == PathsOf(ms) + {m.path}
  {
  }

  lemma MorePrefixes(ms: seq<Mention>, full: Path, n: nat, change: Change)
    requires n < |full|
    ensures ms + Prefixes(full, n + 1, change)
            == ms + Prefixes(full, n, change) + [Mention(full[..n + 1], true, change)]
  {
  }

  ghost predicate IsListed(b: Index, p: Path) {
    NodeAt(b, p).Some? && NodeAt(b, p).value.directory && NodeAt(b, p).value.collection != ""
  }

  lemma ListedByInode(b: Index, i: nat)
    requires b.Valid() && i in b.nodes && b.nodes[i].directory && b.nodes[i].collection != ""
    ensures IsListed(b, b.nodes[i].path) && b.pathInode[b.nodes[i].path] == i
  {
  }

  lemma MoreManifests(dirs: seq<Path>, d: Path, paths: set<Path>)
    ensures forall p {:trigger InManifests(dirs + [d], paths, p)} :: InManifests(dirs + [d], paths, p) <==>
              InManifests(dirs, paths, p) || (p == ManifestPath(d) && !InGit(paths, d))
  {
    forall p
      ensures InManifests(dirs + [d], paths, p) <==>
                InManifests(dirs, paths, p) || (p == ManifestPath(d) && !InGit(paths, d))
    {
      assert d in dirs + [d];
      assert forall x :: x in dirs ==> x in dirs + [d];
    }
  }

  /** The manifests made after each of the directories. */
  lemma ManifestSteps(dirs: seq<Path>, paths: set<Path>, present: set<Path>) returns (steps: seq<set<Path>>)
    ensures |steps| == |dirs| + 1 && steps[0] == {}
    ensures forall i :: 0 <= i < |dirs| ==>
              steps[i + 1] == if !InGit(paths, dirs[i]) && ManifestPath(dirs[i]) !in present + steps[i]
                              then steps[i] + {ManifestPath(dirs[i])} else steps[i]
    ensures forall p {:trigger p in steps[|dirs|]} ::
              p in steps[|dirs|] <==> p !in present && InManifests(dirs, paths, p)
  {
    if dirs == [] {
      steps := [{}];
    } else {
      var front, d := dirs[..|dirs| - 1], dirs[|dirs| - 1];
      var before := ManifestSteps(front, paths, present);
      var last := before[|front|];
      var next := if !InGit(paths, d) && ManifestPath(d) !in present + last then last + {ManifestPath(d)} else last;
      steps := before + [next];
      assert dirs == front + [d];
      MoreManifests(front, d, paths);
    }
  }

  /** Of the paths `all`, those in `left` are still to be looked at; of the others the missing ones are gone. */
  ghost predicate Accounted(all: set<Path>, left: set<Path>, gone: set<Path>, present: set<Path>) {
    left <= all && gone == all - left - present
  }

  lemma AccountedStep(all: set<Path>, left: set<Path>, gone: set<Path>, present: set<Path>, path: Path)
    requires Accounted(all, left, gone, present) && path in left
    ensures Accounted(all, left - {path}, if path in present then gone else gone + {path}, present)
  {
  }

  lemma ManifestedNothing(b: Index)
    requires b.Valid()
    ensures Manifested(b, b, {})
  {
  }

  lemma DroppedNothing(c: Index)
    requires c.Valid()
    ensures Dropped(c, c, {})
  {
    assert c.Paths() - {} == c.Paths();
  }

  lemma StillThere(b: Index, c: Index, made: set<Path>, d: Path)
    requires Manifested(b, c, made) && NodeAt(b, d).Some?
    ensures c.Live(d)
  {
    LiveInValid(b, d);
    LiveInValid(c, d);
  }

  lemma AllStages(a: Index, b: Index, c: Index, d: Index, ms: seq<Mention>, made: set<Path>, present: set<Path>)
    requires Follows(a, b, ms) && Manifested(b, c, made)
    requires present == PathsOf(ms) + made && Dropped(c, d, c.Paths() - present)
    requires forall p {:trigger p in made} :: p in made <==> p !in PathsOf(ms) && IsManifest(a, ms, p)
    ensures d.Valid() && Reflects(a, ms, d) && SurvivorsKeep(a, d) && Evolves(a, d)
  {
    assert c.Paths() - present == c.Paths() - PathsOf(ms) - made;
    StagesReflect(a, b, c, d, ms, made);
    StagesKeep(a, b, c, d, ms, made);
  }

  // ---- An example ----

  /** A mount that sees these two snapshots goes on to show the file as the virtual manifest. */
  method ShowHiddenFile() returns (fs: SullaFiles)
    ensures var p, ix := [METADATA_NAME], fs.View();
            ix.Live(p) && ix.At(p).fileId == Some("f") && ix.At(p).virtualMetadata
  {
    fs := new SullaFiles();
    ghost var a := fs.View();
    fs.Apply(EMPTY_COLLECTION);
    ghost var b := fs.View();
    fs.Apply(WITH_METADATA);
    ManifestHidesFile(a, b, fs.View());
  }

  /** A mount that sees these two snapshots goes on to show the file as a directory. */
  method ShowFileAsDirectory() returns (fs: SullaFiles)
    ensures var p, ix := [METADATA_NAME], fs.View();
            ix.Live(p) && ix.At(p).fileId == Some("f") && !ix.At(p).virtualMetadata && ix.At(p).directory
  {
    fs := new SullaFiles();
    ghost var a := fs.View();
    fs.Apply(METADATA_FOLDER);
    ghost var b := fs.View();
    fs.Apply(WITH_METADATA);
    DirectoryHidesFile(a, b, fs.View());
  }

  /** A mount that sees these two snapshots keeps a manifest whose directory is gone. */
  method KeepOrphan() returns (fs: SullaFiles)
    ensures !fs.View().Live(["x"]) && fs.View().Live(["x", METADATA_NAME])
  {
    fs := new SullaFiles();
    ghost var a := fs.View();
    fs.Apply(ONE_COLLECTION);
    ghost var b := fs.View();
    fs.Apply(NO_COLLECTION);
    ManifestIsOrphaned(a, b, fs.View());
  }

  // ---- The mentions made so far, entry by entry ----

  lemma CollectionStep(ms: seq<Mention>, cs: seq<Collection>, i: nat)
    requires i < |cs|
    ensures ms + OfCollections(cs[..i + 1]) == ms + OfCollections(cs[..i]) + OfCollection(cs[i])
  {
    assert cs[..i + 1][..i] == cs[..i];
    Joined(ms, OfCollections(cs[..i]), OfCollection(cs[i]));
  }

  lemma CollectionSteps(ms: seq<Mention>, cs: seq<Collection>) returns (steps: seq<seq<Mention>>)
    ensures |steps| == |cs| + 1 && steps[0] == ms && steps[|cs|] == ms + OfCollections(cs)
    ensures forall i :: 0 <= i < |cs| ==> steps[i + 1] == steps[i] + OfCollection(cs[i])
  {
    steps := seq(|cs| + 1, i requires 0 <= i <= |cs| => ms + OfCollections(cs[..i]));
    assert cs[..0] == [] && cs[..|cs|] == cs;
    forall i | 0 <= i < |cs| ensures steps[i + 1] == steps[i] + OfCollection(cs[i]) {
      CollectionStep(ms, cs, i);
    }
  }

  lemma RootStep(rootCollectionId: string, cs: seq<Collection>, i: nat)
    requires i < |cs|
    ensures RootsOf(rootCollectionId, cs[..i + 1]) == RootsOf(rootCollectionId, cs[..i])[cs[i].id := cs[i].treePath]
  {
    assert cs[..i + 1][..i] == cs[..i];
  }

  lemma RootSteps(rootCollectionId: string, cs: seq<Collection>) returns (steps: seq<map<string, Path>>)
    ensures |steps| == |cs| + 1 && steps[0] == RootsOf(rootCollectionId, [])
            && steps[|cs|] == RootsOf(rootCollectionId, cs)
    ensures forall i :: 0 <= i < |cs| ==> steps[i + 1] == steps[i][cs[i].id := cs[i].treePath]
  {
    steps := seq(|cs| + 1, i requires 0 <= i <= |cs| => RootsOf(rootCollectionId, cs[..i]));
    assert cs[..0] == [] && cs[..|cs|] == cs;
    forall i | 0 <= i < |cs| ensures steps[i + 1] == steps[i][cs[i].id := cs[i].treePath] {
      RootStep(rootCollectionId, cs, i);
    }
  }

  lemma FolderStep(ms: seq<Mention>, roots: map<string, Path>, fs: seq<Folder>, i: nat)
    requires i < |fs|
    ensures ms + OfFolders(roots, fs[..i + 1]) == ms + OfFolders(roots, fs[..i]) + OfFolder(roots, fs[i])
  {
    assert fs[..i + 1][..i] == fs[..i];
    Joined(ms, OfFolders(roots, fs[..i]), OfFolder(roots, fs[i]));
  }

  lemma FolderSteps(ms: seq<Mention>, roots: map<string, Path>, fs: seq<Folder>) returns (steps: seq<seq<Mention>>)
    ensures |steps| == |fs| + 1 && steps[0] == ms && steps[|fs|] == ms + OfFolders(roots, fs)
    ensures forall i :: 0 <= i < |fs| ==> steps[i + 1] == steps[i] + OfFolder(roots, fs[i])
  {
    steps := seq(|fs| + 1, i requires 0 <= i <= |fs| => ms + OfFolders(roots, fs[..i]));
    assert fs[..0] == [] && fs[..|fs|] == fs;
    forall i | 0 <= i < |fs| ensures steps[i + 1] == steps[i] + OfFolder(roots, fs[i]) {
      FolderStep(ms, roots, fs, i);
    }
  }

  lemma FileStep(ms: seq<Mention>, roots: map<string, Path>, rows: seq<FileRow>, i: nat)
    requires i < |rows|
    ensures ms + OfFiles(roots, rows[..i + 1]) == ms + OfFiles(roots, rows[..i]) + OfFile(roots, rows[i])
  {
    assert rows[..i + 1][..i] == rows[..i];
    Joined(ms, OfFiles(roots, rows[..i]), OfFile(roots, rows[i]));
  }

  lemma FileSteps(ms: seq<Mention>, roots: map<string, Path>, rows: seq<FileRow>) returns (steps: seq<seq<Mention>>)
    ensures |steps| == |rows| + 1 && steps[0] == ms && steps[|rows|] == ms + OfFiles(roots, rows)
    ensures forall i :: 0 <= i < |rows| ==> steps[i + 1] == steps[i] + OfFile(roots, rows[i])
  {
    steps := seq(|rows| + 1, i requires 0 <= i <= |rows| => ms + OfFiles(roots, rows[..i]));
    assert rows[..0] == [] && rows[..|rows|] == rows;
    forall i | 0 <= i < |rows| ensures steps[i + 1] == steps[i] + OfFile(roots, rows[i]) {
      FileStep(ms, roots, rows, i);
    }
  }

  lemma Joined(a: seq<Mention>, b: seq<Mention>, c: seq<Mention>)
    ensures a + (b + c) == a + b + c
  {
  }

  lemma FollowsNothing(a: Index)
    requires a.Valid()
    ensures Follows(a, a, [])
  {
  }
}
