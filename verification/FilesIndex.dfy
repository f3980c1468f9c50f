/**
 * The three indexes of the FUSE view (sulla_files_fuse.py): nodes by inode, inodes by path and
 * children by directory. A path is the list of its components; the root is the empty list.
 */
module FilesIndex {
  import opened Wrappers

  type Path = seq<string>

  const ROOT_INODE: nat := 1
  const METADATA_NAME := "_folder-metadata.yaml"
  const GIT := ".git"

  /** `collection` is "" for a node without collection. */
  datatype Node = Node(path: Path, directory: bool, collection: string, collectionRoot: bool,
                       virtualMetadata: bool, fileId: Option<string>, size: nat)

  datatype Index = Index(nodes: map<nat, Node>, pathInode: map<Path, nat>, children: map<Path, map<string, nat>>,
                         nextInode: nat)
  {
    function InodeOf(path: Path): Option<nat> {
      if path in pathInode then Some(pathInode[path]) else None
    }

    function ChildOf(dir: Path, name: string): Option<nat> {
      if dir in children && name in children[dir] then Some(children[dir][name]) else None
    }

    /** The indexes describe the same paths. */
    ghost predicate Valid() {
      && InodeOf([]) == Some(ROOT_INODE) && ROOT_INODE in nodes && nodes[ROOT_INODE].directory
      && (forall path {:trigger pathInode[path]} :: path in pathInode ==>
            pathInode[path] in nodes && nodes[pathInode[path]].path == path)
      && (forall i {:trigger nodes[i]} :: i in nodes ==>
            i < nextInode && nodes[i].path in pathInode && pathInode[nodes[i].path] == i)
      && (forall dir, name {:trigger ChildOf(dir, name)} :: ChildOf(dir, name) == InodeOf(dir + [name]))
    }

    predicate Live(path: Path) {
      path in pathInode && pathInode[path] in nodes
    }

    function At(path: Path): Node
      requires Live(path)
    {
      nodes[pathInode[path]]
    }

    function Paths(): set<Path> {
      pathInode.Keys
    }
  }

  function Parent(path: Path): Path
    requires path != []
  {
    path[..|path| - 1]
  }

  function Name(path: Path): string
    requires path != []
  {
    path[|path| - 1]
  }

  function Children(ix: Index, dir: Path): map<string, nat> {
    if dir in ix.children then ix.children[dir] else map[]
  }

  // ---- Adding and dropping paths ----

  function AddNode(ix: Index, path: Path, directory: bool): Index
    requires ix.Live([])
  {
    if path in ix.pathInode then ix
    else
      Index(ix.nodes[ix.nextInode := Node(path, directory, "", false, false, None, 0)],
            ix.pathInode[path := ix.nextInode],
            ix.children[Parent(path) := Children(ix, Parent(path))[Name(path) := ix.nextInode]],
            ix.nextInode + 1)
  }

  function Drop(ix: Index, path: Path): Index
    requires path != []
  {
    if path !in ix.pathInode then ix
    else
      Index(ix.nodes - {ix.pathInode[path]}, ix.pathInode - {path},
            if Parent(path) in ix.children then
              ix.children[Parent(path) := ix.children[Parent(path)] - {Name(path)}]
            else ix.children,
            ix.nextInode)
  }

  /** Changes what is stored about a path; never its place or its kind. */
  function Put(ix: Index, path: Path, node: Node): Index
    requires path in ix.pathInode
  {
    ix.(nodes := ix.nodes[ix.pathInode[path] := node])
  }

  lemma SplitPath(path: Path)
    requires path != []
    ensures Parent(path) + [Name(path)] == path
    ensures forall dir: Path, name {:trigger dir + [name]} :: dir + [name] == path ==>
              dir == Parent(path) && name == Name(path)
  {
    forall dir: Path, name | dir + [name] == path ensures dir == Parent(path) && name == Name(path) {
      assert Parent(dir + [name]) == dir && Name(dir + [name]) == name;
    }
  }

  lemma AddNodeChildren(ix: Index, path: Path, directory: bool)
    requires ix.Valid() && path !in ix.pathInode
    ensures var ix' := AddNode(ix, path, directory);
            forall dir, name {:trigger ix'.ChildOf(dir, name)} :: ix'.ChildOf(dir, name) == ix'.InodeOf(dir + [name])
  {
    SplitPath(path);
    var ix' := AddNode(ix, path, directory);
    forall dir, name ensures ix'.ChildOf(dir, name) == ix'.InodeOf(dir + [name]) {
      assert ix.ChildOf(dir, name) == ix.InodeOf(dir + [name]);
      if dir + [name] == path {
        assert dir == Parent(path) && name == Name(path);
      } else if dir == Parent(path) {
        assert name != Name(path);
      }
    }
  }

  lemma AddNodeKeeps(ix: Index, path: Path, directory: bool)
    requires ix.Valid()
    ensures var ix' := AddNode(ix, path, directory);
            && ix'.Valid() && ix'.Paths() == ix.Paths() + {path}
            && ix.nextInode <= ix'.nextInode
            && (forall p :: p in ix.pathInode ==> ix'.pathInode[p] == ix.pathInode[p] && ix'.At(p) == ix.At(p))
            && (path !in ix.pathInode ==> ix'.pathInode[path] == ix.nextInode
                                          && ix'.At(path) == Node(path, directory, "", false, false, None, 0))
  {
    if path !in ix.pathInode {
      assert ix.InodeOf([]).Some?;
      AddNodeChildren(ix, path, directory);
    }
  }

  lemma DropChildren(ix: Index, path: Path)
    requires ix.Valid() && path in ix.pathInode && path != []
    ensures var ix' := Drop(ix, path);
            forall dir, name {:trigger ix'.ChildOf(dir, name)} :: ix'.ChildOf(dir, name) == ix'.InodeOf(dir + [name])
  {
    SplitPath(path);
    var ix' := Drop(ix, path);
    forall dir, name ensures ix'.ChildOf(dir, name) == ix'.InodeOf(dir + [name]) {
      assert ix.ChildOf(dir, name) == ix.InodeOf(dir + [name]);
      if dir + [name] == path {
        assert dir == Parent(path) && name == Name(path);
      } else if dir == Parent(path) {
        assert name != Name(path);
      }
    }
  }

  lemma DropKeeps(ix: Index, path: Path)
    requires ix.Valid() && path != []
    ensures var ix' := Drop(ix, path);
            && ix'.Valid() && ix'.Paths() == ix.Paths() - {path} && ix'.nextInode == ix.nextInode
            && (forall p :: p in ix'.pathInode ==> ix'.pathInode[p] == ix.pathInode[p] && ix'.At(p) == ix.At(p))
  {
    if path in ix.pathInode {
      DropChildren(ix, path);
      forall p | p in ix.pathInode && p != path ensures ix.pathInode[p] != ix.pathInode[path] {
        assert ix.nodes[ix.pathInode[p]].path == p;
      }
    }
  }

  lemma PutKeeps(ix: Index, path: Path, node: Node)
    requires ix.Valid() && path in ix.pathInode
    requires node.path == path && node.directory == ix.At(path).directory
    ensures var ix' := Put(ix, path, node);
            && ix'.Valid() && ix'.At(path) == node
            && (forall p :: p in ix.pathInode && p != path ==> ix'.At(p) == ix.At(p))
  {
    var ix' := Put(ix, path, node);
    forall dir, name ensures ix'.ChildOf(dir, name) == ix'.InodeOf(dir + [name]) {
      assert ix.ChildOf(dir, name) == ix.InodeOf(dir + [name]);
    }
    forall p | p in ix.pathInode && p != path ensures ix.pathInode[p] != ix.pathInode[path] {
      assert ix.nodes[ix.pathInode[p]].path == p;
    }
  }

  // ---- Reading the index ----

  /** `lookup`: None stands for ENOENT. */
  function LookupIn(ix: Index, parent: nat, name: string): Option<nat> {
    if parent !in ix.nodes || !ix.nodes[parent].directory then None
    else ix.InodeOf(ix.nodes[parent].path + [name])
  }

  /**
   * Lookup finds exactly the node whose path is the name below a live directory, and a live directory
   * lists a name, with its inode, exactly when lookup resolves the name to it.
   */
  lemma ListsWhatLookupResolves(ix: Index, parent: nat, name: string)
    requires ix.Valid()
    ensures forall i :: LookupIn(ix, parent, name) == Some(i) <==>
              && parent in ix.nodes && ix.nodes[parent].directory
              && i in ix.nodes && ix.nodes[i].path == ix.nodes[parent].path + [name]
    ensures parent in ix.nodes && ix.nodes[parent].directory ==>
              ix.ChildOf(ix.nodes[parent].path, name) == LookupIn(ix, parent, name)
  {
    if parent in ix.nodes {
      assert ix.ChildOf(ix.nodes[parent].path, name) == ix.InodeOf(ix.nodes[parent].path + [name]);
    }
  }

  // ---- Inode numbers over time ----

  /** An inode number that is live later was live before for the same path or is a new number. */
  ghost predicate Evolves(a: Index, b: Index) {
    && a.nextInode <= b.nextInode
    && forall i {:trigger i in b.nodes} :: i in b.nodes ==>
         (i in a.nodes && b.nodes[i].path == a.nodes[i].path) || a.nextInode <= i
  }

  lemma EvolvesOn(a: Index, b: Index, c: Index)
    requires Evolves(a, b) && Evolves(b, c)
    ensures Evolves(a, c)
  {
  }

  ghost predicate History(h: seq<Index>) {
    && (forall k :: 0 <= k < |h| ==> h[k].Valid())
    && forall k :: 0 <= k < |h| - 1 ==> Evolves(h[k], h[k + 1])
  }

  lemma {:induction false} EvolvesOverHistory(h: seq<Index>, a: nat, b: nat)
    requires History(h) && a <= b < |h|
    ensures Evolves(h[a], h[b])
    decreases b - a
  {
    if a < b {
      EvolvesOverHistory(h, a, b - 1);
      EvolvesOn(h[a], h[b - 1], h[b]);
    }
  }

  /** An inode number names one path for ever: once that path is gone the number never comes back. */
  lemma InodesAreNeverReused(h: seq<Index>, i: nat, a: nat, b: nat, c: nat)
    requires History(h) && a <= b <= c < |h|
    requires i in h[a].nodes && i in h[c].nodes
    ensures i in h[b].nodes
    ensures h[a].nodes[i].path == h[b].nodes[i].path == h[c].nodes[i].path
  {
    EvolvesOverHistory(h, a, b);
    EvolvesOverHistory(h, b, c);
    EvolvesOverHistory(h, a, c);
    assert h[a].Valid() && h[b].Valid();
  }
}
