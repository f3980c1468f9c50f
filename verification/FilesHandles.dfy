/** Open files and the indexes together: what becomes of a handle when its path is dropped. */
module FilesHandles {
  import opened Wrappers
  import opened FilesErrors
  import opened FilesIndex
  import opened FilesView
  import opened HandleBuffer

  /** `_commit` on the handle of an inode: the node's size follows what is stored. */
  method Flush(fs: SullaFiles, inode: nat, handle: Handle, service: Service) returns (reply: Reply)
    requires fs.View().Valid()
    modifies fs`nodes, handle
    ensures var effect := Step(old(handle.View()), Commit(service, inode in old(fs.nodes)));
            handle.View() == effect.after && reply == effect.reply
    ensures fs.View().Valid() && Evolves(old(fs.View()), fs.View())
    ensures fs.View() == if old(handle.dirty) && reply.Ok? then WithSize(old(fs.View()), inode, handle.size)
                         else old(fs.View())
  {
    var changed := handle.dirty;
    reply := handle.Commit(service, inode in fs.nodes);
    if changed && reply.Ok? {
      SizeKeeps(fs.View(), inode, handle.size);
      fs.nodes := fs.nodes[inode := fs.nodes[inode].(size := handle.size)];
    }
  }

  /** `setattr` with a size on an open file. */
  method SetSize(fs: SullaFiles, inode: nat, handle: Handle, length: nat, others: bool) returns (reply: Reply)
    requires fs.View().Valid()
    modifies fs`nodes, handle
    ensures var effect := Step(old(handle.View()), Resize(length, others, inode in old(fs.nodes)));
            handle.View() == effect.after && reply == effect.reply
    ensures fs.View().Valid() && Evolves(old(fs.View()), fs.View())
    ensures fs.View() == if length <= MAX_FILE_BYTES then WithSize(old(fs.View()), inode, length) else old(fs.View())
  {
    reply := handle.Resize(length, others, inode in fs.nodes);
    if length <= MAX_FILE_BYTES && inode in fs.nodes {
      SizeKeeps(fs.View(), inode, length);
      fs.nodes := fs.nodes[inode := fs.nodes[inode].(size := length)];
    }
  }

  /** The index after the size of an inode changed; nothing happens to one that is gone. */
  function WithSize(ix: Index, inode: nat, size: nat): Index {
    if inode in ix.nodes then ix.(nodes := ix.nodes[inode := ix.nodes[inode].(size := size)]) else ix
  }

  lemma SizeKeeps(ix: Index, inode: nat, size: nat)
    requires ix.Valid() && inode in ix.nodes
    ensures WithSize(ix, inode, size).Valid() && Evolves(ix, WithSize(ix, inode, size))
  {
    var node := ix.nodes[inode];
    assert WithSize(ix, inode, size) == Put(ix, node.path, node.(size := size));
    PutKeeps(ix, node.path, node.(size := size));
  }

  // ---- After the path is gone ----

  /** The operations on a handle of `inode` happen at these moments of the history, none before `from`. */
  ghost predicate Happens(h: seq<Index>, inode: nat, ops: seq<Operation>, at: seq<nat>, from: nat) {
    && |at| == |ops|
    && (forall k :: 0 <= k < |ops| ==> from <= at[k] < |h|)
    && (forall k :: 0 <= k < |ops| && ops[k].Commit? ==> ops[k].live == (inode in h[at[k]].nodes))
    && (forall k :: 0 <= k < |ops| && ops[k].Resize? ==> ops[k].live == (inode in h[at[k]].nodes))
  }

  /** A number that was live and is gone is not live at any later moment. */
  lemma GoneForGood(h: seq<Index>, inode: nat, a: nat, from: nat, later: nat)
    requires History(h) && a <= from <= later < |h| && inode in h[a].nodes && inode !in h[from].nodes
    ensures inode !in h[later].nodes
  {
    if inode in h[later].nodes {
      InodesAreNeverReused(h, inode, a, from, later);
    }
  }

  ghost predicate NoneLive(ops: seq<Operation>) {
    forall k :: 0 <= k < |ops| ==> !(ops[k].Commit? && ops[k].live) && !(ops[k].Resize? && ops[k].live)
  }

  lemma NoneIsLive(h: seq<Index>, inode: nat, a: nat, from: nat, ops: seq<Operation>, at: seq<nat>)
    requires History(h) && a <= from < |h| && inode in h[a].nodes && inode !in h[from].nodes
    requires Happens(h, inode, ops, at, from)
    ensures NoneLive(ops)
  {
    forall k | 0 <= k < |ops| ensures inode !in h[at[k]].nodes {
      GoneForGood(h, inode, a, from, at[k]);
    }
  }

  lemma {:induction false} StaysDirty(b: Buffer, ops: seq<Operation>)
    requires NoneLive(ops) && b.dirty
    ensures Run(b, ops).dirty
    decreases |ops|
  {
    if ops != [] {
      StaysDirty(b, ops[..|ops| - 1]);
    }
  }

  /**
   * Whatever is done to a handle after its path was dropped, and whatever becomes of the index in
   * the meantime, nothing is sent to the service any more; what was changed and not committed stays
   * in the handle, and each commit of it fails.
   */
  lemma DroppedIsNeverSent(h: seq<Index>, inode: nat, a: nat, from: nat, b0: Buffer, ops: seq<Operation>,
                           at: seq<nat>, k: nat)
    requires History(h) && a <= from < |h| && inode in h[a].nodes && inode !in h[from].nodes
    requires Happens(h, inode, ops, at, from) && k < |ops|
    ensures var effect := Step(Run(b0, ops[..k]), ops[k]);
            && effect.sent == None
            && (b0.dirty ==> effect.after.dirty && (ops[k].Commit? ==> effect.reply in {Reply.Fault, Errno(EFBIG)}))
  {
    hide History, Happens, NoneLive, Run;
    NoneIsLive(h, inode, a, from, ops, at);
    if b0.dirty {
      StaysDirty(b0, ops[..k]);
    }
  }
}
