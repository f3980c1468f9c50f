/**
 * An open file of the FUSE view (sulla_files_fuse.py): bytes are spooled locally and sent to the
 * service when the handle is flushed, synced or released.
 */
module HandleBuffer {
  import opened Wrappers
  import opened Basics
  import opened FilesErrors

  const MAX_FILE_BYTES := 64 * 1024 * 1024

  type Bytes = seq<bv8>

  // ---- The spool file ----

  function Zeros(n: nat): (z: Bytes)
    ensures |z| == n && forall i :: 0 <= i < n ==> z[i] == 0
  {
    seq(n, _ => 0 as bv8)
  }

  /** `ftruncate`: shortens, or lengthens with zeros. */
  function Truncated(file: Bytes, size: nat): (r: Bytes)
    ensures |r| == size
    ensures forall i :: 0 <= i < size ==> r[i] == if i < |file| then file[i] else 0
  {
    if size <= |file| then file[..size] else file + Zeros(size - |file|)
  }

  /** `pwrite`: a gap before the offset is filled with zeros; writing nothing changes nothing. */
  function Overwritten(file: Bytes, offset: nat, data: Bytes): (r: Bytes)
    ensures |r| == if data == [] then |file| else Max(|file|, offset + |data|)
    ensures forall i :: 0 <= i < |r| ==>
              r[i] == if offset <= i < offset + |data| then data[i - offset] else if i < |file| then file[i] else 0
  {
    if data == [] then file
    else
      var base := Truncated(file, Max(|file|, offset + |data|));
      base[..offset] + data + base[offset + |data|..]
  }

  /** `pread`. */
  function Slice(file: Bytes, offset: nat, length: nat): Bytes {
    file[Min(offset, |file|)..Min(offset + length, |file|)]
  }

  // ---- The handle as a value ----

  /** `failedErrno` is 0 when no commit was rejected since the last change. */
  datatype Buffer = Buffer(file: Bytes, size: nat, dirty: bool, failedErrno: int, append: bool)

  /** The service's answer to a commit; a merged commit carries what the service made of both versions. */
  datatype Answer = Stored | Merged(data: Bytes) | Rejected(errno: int, status: int)

  /**
   * The service as the handle sees it: an answer to the bytes it is sent. A response has at most as
   * many bytes as a file.
   */
  type Service = Bytes -> Answer

  /**
   * `others` says that the call which resizes also sets mode, owner or times, which are not supported;
   * `live`, that the inode the handle was opened on is still in the index.
   */
  datatype Operation =
    | Write(offset: nat, data: Bytes)
    | Resize(length: nat, others: bool, live: bool)
    | Read(at: nat, count: nat)
    | Commit(service: Service, live: bool)

  /** `Fault` is an exception that no handler maps to an errno. */
  datatype Reply = Ok(bytes: Bytes) | Errno(errno: int) | Fault

  /** What an operation replies, what it sends to the service if anything, and the handle after it. */
  datatype Effect = Effect(after: Buffer, reply: Reply, sent: Option<Bytes>)

  function StepWrite(b: Buffer, offset: nat, data: Bytes): Effect {
    var at := if b.append then b.size else offset;
    var end := at + |data|;
    if end > MAX_FILE_BYTES then Effect(b, Errno(EFBIG), None)
    else
      var file := if at > b.size then Truncated(b.file, end) else b.file;
      Effect(Buffer(Overwritten(file, at, data), Max(b.size, end), true, 0, b.append), Ok([]), None)
  }

  /** The file is resized before its node is looked for and the other attributes are refused. */
  function StepResize(b: Buffer, length: nat, others: bool, live: bool): Effect {
    if length > MAX_FILE_BYTES then Effect(b, Errno(EFBIG), None)
    else
      var reply := if !live then Fault else if others then Errno(EOPNOTSUPP) else Ok([]);
      Effect(Buffer(Truncated(b.file, length), length, true, 0, b.append), reply, None)
  }

  /** The node of a handle with changes is looked for before anything is sent. */
  function StepCommit(b: Buffer, service: Service, live: bool): Effect {
    if !b.dirty then Effect(b, if b.failedErrno != 0 then Errno(b.failedErrno) else Ok([]), None)
    else if b.size > MAX_FILE_BYTES then Effect(b, Errno(EFBIG), None)
    else if !live then Effect(b, Fault, None)
    else
      var body := Slice(b.file, 0, b.size);
      match service(body)
      case Stored => Effect(b.(dirty := false, failedErrno := 0), Ok([]), Some(body))
      case Merged(data) => Effect(Buffer(data, |data|, false, 0, b.append), Ok([]), Some(body))
      case Rejected(errno, status) =>
        Effect(b.(dirty := false, failedErrno := MappedErrno(errno, status)), Errno(MappedErrno(errno, status)),
               Some(body))
  }

  function Step(b: Buffer, op: Operation): Effect {
    match op
    case Write(offset, data) => StepWrite(b, offset, data)
    case Resize(length, others, live) => StepResize(b, length, others, live)
    case Read(at, count) => Effect(b, Ok(Slice(b.file, at, count)), None)
    case Commit(service, live) => StepCommit(b, service, live)
  }

  function Run(b: Buffer, ops: seq<Operation>): Buffer
    decreases |ops|
  {
    if ops == [] then b else Step(Run(b, ops[..|ops| - 1]), ops[|ops| - 1]).after
  }

  // ---- The growable byte array ----

  /** The length of a file after the operations: writes grow it, resizes set it, merges replace it. */
  function Length(b: Buffer, ops: seq<Operation>): nat
    decreases |ops|
  {
    if ops == [] then |b.file|
    else
      var front := ops[..|ops| - 1];
      var n := Length(b, front);
      match ops[|ops| - 1]
      case Write(offset, data) =>
        var end := (if b.append then n else offset) + |data|;
        if end > MAX_FILE_BYTES then n else Max(n, end)
      case Resize(length, _, _) => if length > MAX_FILE_BYTES then n else length
      case Read(_, _) => n
      case Commit(_, _) => if MergesWith(b, ops).Some? then |MergesWith(b, ops).value| else n
  }

  /** What the last operation merges into the handle, if it is a commit that does. */
  function MergesWith(b: Buffer, ops: seq<Operation>): Option<Bytes> {
    if ops == [] || !ops[|ops| - 1].Commit? then None
    else MergedInto(Run(b, ops[..|ops| - 1]), ops[|ops| - 1].service, ops[|ops| - 1].live)
  }

  function MergedInto(b: Buffer, service: Service, live: bool): Option<Bytes> {
    match StepCommit(b, service, live).sent
    case None => None
    case Some(body) => if service(body).Merged? then Some(service(body).data) else None
  }

  /** The byte last written at a position; a position no write reached, or that was cut off since, holds zero. */
  function ByteAt(b: Buffer, ops: seq<Operation>, i: nat): bv8
    decreases |ops|
  {
    if ops == [] then (if i < |b.file| then b.file[i] else 0)
    else
      var front := ops[..|ops| - 1];
      var before := ByteAt(b, front, i);
      match ops[|ops| - 1]
      case Write(offset, data) =>
        var at := if b.append then Length(b, front) else offset;
        if at + |data| <= MAX_FILE_BYTES && at <= i < at + |data| then data[i - at] else before
      case Resize(length, _, _) => if length <= MAX_FILE_BYTES && length <= i then 0 else before
      case Read(_, _) => before
      case Commit(_, _) =>
        if MergesWith(b, ops).Some? then
          var data := MergesWith(b, ops).value;
          if i < |data| then data[i] else 0
        else before
  }

  ghost predicate Consistent(b: Buffer) {
    |b.file| == b.size
  }

  /** The buffer's bytes and the reference agree, beyond the end of the file too. */
  ghost predicate Agrees(b: Buffer, b0: Buffer, ops: seq<Operation>) {
    && Consistent(b) && b.append == b0.append
    && b.size == Length(b0, ops)
    && forall i: nat {:trigger ByteAt(b0, ops, i)} :: ByteAt(b0, ops, i) == if i < b.size then b.file[i] else 0
  }

  /** The spool file between the two calls of a write: a gap before the offset is filled. */
  function Prepared(file: Bytes, at: nat, end: nat): (r: Bytes)
    ensures |r| == if at > |file| then end else |file|
    ensures forall i :: 0 <= i < |r| ==> r[i] == if i < |file| then file[i] else 0
  {
    if at > |file| then Truncated(file, end) else file
  }

  /** What a write that is carried out does to the bytes: a gap before it holds zeros. */
  lemma WrittenByte(file: Bytes, at: nat, data: Bytes, r: Bytes, i: nat)
    requires r == Overwritten(Prepared(file, at, at + |data|), at, data)
    ensures |r| == Max(|file|, at + |data|)
    ensures i < |r| ==> r[i] == if at <= i < at + |data| then data[i - at] else if i < |file| then file[i] else 0
  {
    var base := Prepared(file, at, at + |data|);
  }

  /** `all` are the operations `ops` and one more. */
  ghost predicate OneMore(ops: seq<Operation>, all: seq<Operation>) {
    all != [] && ops == all[..|all| - 1]
  }

  /** A byte and the length of the reference before a write and after it. */
  ghost predicate WrittenTo(at: nat, data: Bytes, i: nat, before: bv8, after: bv8, n: nat, m: nat) {
    && after == (if at + |data| <= MAX_FILE_BYTES && at <= i < at + |data| then data[i - at] else before)
    && m == (if at + |data| > MAX_FILE_BYTES then n else Max(n, at + |data|))
  }

  lemma ByteAfterWrite(b0: Buffer, ops: seq<Operation>, all: seq<Operation>, offset: nat, data: Bytes, i: nat)
    requires OneMore(ops, all) && all[|ops|] == Write(offset, data)
    ensures WrittenTo(if b0.append then Length(b0, ops) else offset, data, i,
                      ByteAt(b0, ops, i), ByteAt(b0, all, i), Length(b0, ops), Length(b0, all))
  {
  }

  /** Where a write takes place. */
  function WriteAt(b: Buffer, offset: nat): nat {
    if b.append then b.size else offset
  }

  /** The byte at a position after a write. */
  ghost predicate WroteAt(b: Buffer, at: nat, data: Bytes, b': Buffer, i: nat) {
    && |b'.file| == b'.size == (if at + |data| > MAX_FILE_BYTES then b.size else Max(b.size, at + |data|))
    && (i < b'.size ==>
          b'.file[i] == if at + |data| <= MAX_FILE_BYTES && at <= i < at + |data| then data[i - at]
                        else if i < |b.file| then b.file[i] else 0)
  }

  lemma StepWriteBytes(b: Buffer, offset: nat, data: Bytes, i: nat)
    requires Consistent(b)
    ensures WroteAt(b, WriteAt(b, offset), data, StepWrite(b, offset, data).after, i)
  {
    var at := WriteAt(b, offset);
    if at + |data| <= MAX_FILE_BYTES {
      var file := Overwritten(Prepared(b.file, at, at + |data|), at, data);
      WrittenByte(b.file, at, data, file, i);
      assert StepWrite(b, offset, data).after == Buffer(file, Max(b.size, at + |data|), true, 0, b.append);
    }
  }

  /** The reference and the buffer agree on a byte and on the length after the write if they did before. */
  lemma WrittenAgrees(b: Buffer, at: nat, data: Bytes, b': Buffer, i: nat, before: bv8, after: bv8, n: nat, m: nat)
    requires Consistent(b) && WroteAt(b, at, data, b', i) && WrittenTo(at, data, i, before, after, n, m)
    requires n == b.size && before == (if i < b.size then b.file[i] else 0)
    ensures |b'.file| == b'.size == m
    ensures after == if i < b'.size then b'.file[i] else 0
  {
  }

  lemma WrittenEverywhere(b: Buffer, b0: Buffer, ops: seq<Operation>, all: seq<Operation>, offset: nat, data: Bytes,
                          b': Buffer)
    requires OneMore(ops, all) && all[|ops|] == Write(offset, data) && Agrees(b, b0, ops) && b'.append == b.append
    requires forall i: nat {:trigger WroteAt(b, WriteAt(b, offset), data, b', i)} ::
               WroteAt(b, WriteAt(b, offset), data, b', i)
    ensures Agrees(b', b0, all)
  {
    var at, n, m := WriteAt(b, offset), Length(b0, ops), Length(b0, all);
    assert WroteAt(b, at, data, b', 0);
    forall i: nat
      ensures ByteAt(b0, all, i) == (if i < b'.size then b'.file[i] else 0) && b'.size == m
    {
      var before := ByteAt(b0, ops, i);
      assert WroteAt(b, at, data, b', i);
      ByteAfterWrite(b0, ops, all, offset, data, i);
      WrittenAgrees(b, at, data, b', i, before, ByteAt(b0, all, i), n, m);
    }
    var first := ByteAt(b0, all, 0);
  }

  lemma WriteAgrees(b: Buffer, b0: Buffer, ops: seq<Operation>, all: seq<Operation>, offset: nat, data: Bytes,
                    b': Buffer)
    requires OneMore(ops, all) && all[|ops|] == Write(offset, data)
    requires Agrees(b, b0, ops) && b' == StepWrite(b, offset, data).after
    ensures Agrees(b', b0, all)
  {
    forall i: nat ensures WroteAt(b, WriteAt(b, offset), data, b', i) {
      StepWriteBytes(b, offset, data, i);
    }
    WrittenEverywhere(b, b0, ops, all, offset, data, b');
  }

  lemma ByteAfterResize(b0: Buffer, ops: seq<Operation>, all: seq<Operation>, i: nat)
    requires OneMore(ops, all) && all[|ops|].Resize?
    ensures var length := all[|ops|].length;
            && ByteAt(b0, all, i) == (if length <= MAX_FILE_BYTES && length <= i then 0 else ByteAt(b0, ops, i))
            && Length(b0, all) == (if length > MAX_FILE_BYTES then Length(b0, ops) else length)
  {
  }

  lemma ResizeAgrees(b: Buffer, b0: Buffer, ops: seq<Operation>, all: seq<Operation>, b': Buffer)
    requires OneMore(ops, all) && all[|ops|].Resize?
    requires Agrees(b, b0, ops) && b' == StepResize(b, all[|ops|].length, all[|ops|].others, all[|ops|].live).after
    ensures Agrees(b', b0, all)
  {
    ByteAfterResize(b0, ops, all, 0);
    forall i: nat ensures ByteAt(b0, all, i) == if i < b'.size then b'.file[i] else 0 {
      ByteAfterResize(b0, ops, all, i);
      assert ByteAt(b0, ops, i) == if i < b.size then b.file[i] else 0;
    }
  }

  lemma ByteAfterCommit(b0: Buffer, ops: seq<Operation>, all: seq<Operation>, i: nat)
    requires OneMore(ops, all) && all[|ops|].Commit?
    ensures var merged := MergedInto(Run(b0, ops), all[|ops|].service, all[|ops|].live);
            && ByteAt(b0, all, i)
               == (if merged.None? then ByteAt(b0, ops, i) else if i < |merged.value| then merged.value[i] else 0)
            && Length(b0, all) == (if merged.None? then Length(b0, ops) else |merged.value|)
  {
  }

  lemma CommittedFile(b: Buffer, service: Service, live: bool)
    requires Consistent(b)
    ensures var b', merged := StepCommit(b, service, live).after, MergedInto(b, service, live);
            b'.append == b.append && Consistent(b') && b'.file == if merged.Some? then merged.value else b.file
  {
  }

  lemma CommitAgrees(b: Buffer, b0: Buffer, ops: seq<Operation>, all: seq<Operation>, b': Buffer)
    requires OneMore(ops, all) && all[|ops|].Commit?
    requires Agrees(b, b0, ops) && b == Run(b0, ops) && b' == StepCommit(b, all[|ops|].service, all[|ops|].live).after
    ensures Agrees(b', b0, all)
  {
    CommittedFile(b, all[|ops|].service, all[|ops|].live);
    ByteAfterCommit(b0, ops, all, 0);
    forall i: nat ensures ByteAt(b0, all, i) == if i < b'.size then b'.file[i] else 0 {
      ByteAfterCommit(b0, ops, all, i);
      assert ByteAt(b0, ops, i) == if i < b.size then b.file[i] else 0;
    }
  }

  lemma ReadAgrees(b: Buffer, b0: Buffer, ops: seq<Operation>, all: seq<Operation>)
    requires OneMore(ops, all) && all[|ops|].Read? && Agrees(b, b0, ops)
    ensures Agrees(b, b0, all)
  {
    forall i: nat ensures ByteAt(b0, all, i) == ByteAt(b0, ops, i) {}
  }

  lemma AgreesOneMore(b: Buffer, b0: Buffer, ops: seq<Operation>, all: seq<Operation>, b': Buffer)
    requires OneMore(ops, all) && Agrees(b, b0, ops) && b == Run(b0, ops) && b' == Step(b, all[|ops|]).after
    ensures Agrees(b', b0, all)
  {
    match all[|ops|]
    case Write(offset, data) => WriteAgrees(b, b0, ops, all, offset, data, b');
    case Resize(_, _, _) => ResizeAgrees(b, b0, ops, all, b');
    case Read(_, _) => ReadAgrees(b, b0, ops, all);
    case Commit(_, _) => CommitAgrees(b, b0, ops, all, b');
  }

  lemma AgreesAtFirst(b0: Buffer)
    requires Consistent(b0)
    ensures Agrees(b0, b0, [])
  {
  }

  /**
   * Whatever writes, appends, resizes, reads and commits a handle sees, its size is the spool's
   * length and its bytes are those a growable byte array would hold: the last ones written,
   * zero where nothing was written.
   */
  lemma {:induction false} RefinesByteArray(b0: Buffer, ops: seq<Operation>)
    requires Consistent(b0)
    ensures Agrees(Run(b0, ops), b0, ops)
    decreases |ops|
  {
    if ops == [] {
      AgreesAtFirst(b0);
    } else {
      var front := ops[..|ops| - 1];
      RefinesByteArray(b0, front);
      AgreesOneMore(Run(b0, front), b0, front, ops, Run(b0, ops));
    }
  }

  /** A read returns the last bytes written in its range, cut off at the end of the file. */
  lemma ReadsLastWritten(b0: Buffer, ops: seq<Operation>, at: nat, count: nat)
    requires Consistent(b0)
    ensures var r := Step(Run(b0, ops), Read(at, count)).reply;
            var n := Length(b0, ops);
            && r.Ok? && |r.bytes| == Min(at + count, n) - Min(at, n)
            && forall i :: 0 <= i < |r.bytes| ==> r.bytes[i] == ByteAt(b0, ops, at + i)
  {
    RefinesByteArray(b0, ops);
    var b := Run(b0, ops);
    var bytes := Slice(b.file, at, count);
    forall i | 0 <= i < |bytes| ensures bytes[i] == ByteAt(b0, ops, at + i) {
      assert bytes[i] == b.file[at + i];
    }
  }

  /**
   * A commit sends something exactly when the handle has changes, is within the limit and its inode
   * is live; then it is the whole file: as many bytes as it is long, each the last one written.
   */
  lemma CommitSendsLastWritten(b0: Buffer, ops: seq<Operation>, service: Service, live: bool)
    requires Consistent(b0)
    ensures var b := Run(b0, ops);
            var sent := Step(b, Commit(service, live)).sent;
            && (sent.Some? <==> b.dirty && b.size <= MAX_FILE_BYTES && live)
            && (sent.Some? ==>
                  && |sent.value| == Length(b0, ops)
                  && forall i :: 0 <= i < |sent.value| ==> sent.value[i] == ByteAt(b0, ops, i))
  {
    ReadsLastWritten(b0, ops, 0, Length(b0, ops));
    RefinesByteArray(b0, ops);
  }

  // ---- The size limit ----

  ghost predicate Bounded(b: Buffer) {
    b.size <= MAX_FILE_BYTES
  }

  /** The service never answers with more bytes than a file may have. */
  ghost predicate SmallAnswers(ops: seq<Operation>) {
    forall k, body :: 0 <= k < |ops| && ops[k].Commit? && ops[k].service(body).Merged? ==>
      |ops[k].service(body).data| <= MAX_FILE_BYTES
  }

  lemma {:induction false} StaysBounded(b0: Buffer, ops: seq<Operation>)
    requires Bounded(b0) && SmallAnswers(ops)
    ensures Bounded(Run(b0, ops))
    decreases |ops|
  {
    if ops != [] {
      StaysBounded(b0, ops[..|ops| - 1]);
    }
  }

  // ---- What a commit is about ----

  /**
   * The operation is a change that is carried out: it stays within the limit of 64 MiB. A resize may be
   * reported as failed all the same.
   */
  predicate Changes(b: Buffer, op: Operation) {
    match op
    case Write(offset, data) => (if b.append then b.size else offset) + |data| <= 0x400_0000
    case Resize(length, _, _) => length <= 0x400_0000
    case _ => false
  }

  /** The operation is a commit that the service answered. */
  predicate Asks(b: Buffer, op: Operation) {
    op.Commit? && Step(b, op).sent.Some?
  }

  /** A change was carried out, or the file was opened truncated, and no commit was answered since. */
  ghost predicate Owed(b0: Buffer, ops: seq<Operation>) {
    || (exists k: nat :: OwedSince(b0, ops, k))
    || (b0.dirty && NoneAnswered(b0, ops, 0))
  }

  ghost predicate OwedSince(b0: Buffer, ops: seq<Operation>, k: nat) {
    ChangedAt(b0, ops, k) && NoneAnswered(b0, ops, k + 1)
  }

  ghost predicate ChangedAt(b0: Buffer, ops: seq<Operation>, k: nat) {
    k < |ops| && Changes(Run(b0, ops[..k]), ops[k])
  }

  ghost predicate NoneAnswered(b0: Buffer, ops: seq<Operation>, from: nat) {
    forall j :: from <= j < |ops| ==> !Asks(Run(b0, ops[..j]), ops[j])
  }

  /** The handle is dirty exactly when a commit is owed. */
  lemma {:induction false} DirtyExactly(b0: Buffer, ops: seq<Operation>)
    ensures Run(b0, ops).dirty <==> Owed(b0, ops)
    decreases |ops|
  {
    if ops == [] {
      assert NoneAnswered(b0, ops, 0);
    } else {
      DirtyExactly(b0, ops[..|ops| - 1]);
      OwedOneMore(b0, ops[..|ops| - 1], ops);
      DirtyStep(Run(b0, ops[..|ops| - 1]), ops[|ops| - 1]);
    }
  }

  lemma DirtyStep(b: Buffer, op: Operation)
    ensures Step(b, op).after.dirty <==> Changes(b, op) || (b.dirty && !Asks(b, op))
  {
  }

  lemma PrefixesStay(b0: Buffer, ops: seq<Operation>, all: seq<Operation>)
    requires OneMore(ops, all)
    ensures forall k :: 0 <= k <= |ops| ==> all[..k] == ops[..k]
    ensures all[..|ops|] == ops
  {
  }

  lemma OwedOneMore(b0: Buffer, ops: seq<Operation>, all: seq<Operation>)
    requires OneMore(ops, all)
    ensures Owed(b0, all) <==>
              var b, op := Run(b0, ops), all[|ops|]; Changes(b, op) || (Owed(b0, ops) && !Asks(b, op))
  {
    hide OwedSince, NoneAnswered;
    var b, op, n := Run(b0, ops), all[|ops|], |ops|;
    forall k: nat ensures OwedSince(b0, all, k) <==>
                            (k == n && Changes(b, op)) || (OwedSince(b0, ops, k) && !Asks(b, op)) {
      OwedSinceMore(b0, ops, all, k);
    }
    NoneAnsweredMore(b0, ops, all, 0);
    ChangeNeedsNoAnswer(b, op);
    assert Changes(b, op) ==> OwedSince(b0, all, n);
  }

  lemma OwedSinceMore(b0: Buffer, ops: seq<Operation>, all: seq<Operation>, k: nat)
    requires OneMore(ops, all)
    ensures OwedSince(b0, all, k) <==>
              (k == |ops| && Changes(Run(b0, ops), all[|ops|]))
              || (OwedSince(b0, ops, k) && !Asks(Run(b0, ops), all[|ops|]))
  {
    hide Run, Changes, Asks;
    PrefixesStay(b0, ops, all);
    if k < |ops| {
      NoneAnsweredMore(b0, ops, all, k + 1);
      assert all[k] == ops[k];
    }
  }

  lemma ChangeNeedsNoAnswer(b: Buffer, op: Operation)
    ensures !(Changes(b, op) && Asks(b, op))
  {
  }

  lemma NoneAnsweredMore(b0: Buffer, ops: seq<Operation>, all: seq<Operation>, k: nat)
    requires OneMore(ops, all) && k <= |ops|
    ensures NoneAnswered(b0, all, k) <==> NoneAnswered(b0, ops, k) && !Asks(Run(b0, ops), all[|ops|])
  {
    hide Run, Asks;
    PrefixesStay(b0, ops, all);
    if NoneAnswered(b0, ops, k) && !Asks(Run(b0, ops), all[|ops|]) {
      forall j | k <= j < |all| ensures !Asks(Run(b0, all[..j]), all[j]) {
        assert j < |ops| ==> all[j] == ops[j];
      }
    }
    if NoneAnswered(b0, all, k) {
      forall j | k <= j < |ops| ensures !Asks(Run(b0, ops[..j]), ops[j]) {
        assert all[j] == ops[j];
      }
      assert !Asks(Run(b0, all[..|ops|]), all[|ops|]);
    }
  }

  /**
   * After any operations a commit asks the service exactly when one is owed, the handle is within the
   * limit and its inode is live: never twice for one change, and never without one.
   */
  lemma CommitAsksWhenOwed(b0: Buffer, ops: seq<Operation>, service: Service, live: bool)
    ensures var b := Run(b0, ops);
            Step(b, Commit(service, live)).sent.Some? <==> Owed(b0, ops) && b.size <= MAX_FILE_BYTES && live
  {
    hide Owed;
    DirtyExactly(b0, ops);
  }

  /** What a commit that asks replies and leaves behind, by the service's answer. */
  lemma AnsweredCommit(b: Buffer, service: Service)
    requires b.dirty && Bounded(b)
    ensures var body := Slice(b.file, 0, b.size);
            var commit := Step(b, Commit(service, true));
            && commit.sent == Some(body) && !commit.after.dirty
            && match service(body)
               case Stored => commit.reply == Ok([]) && commit.after.file == b.file && commit.after.failedErrno == 0
               case Merged(data) =>
                 commit.reply == Ok([]) && commit.after.file == data && commit.after.failedErrno == 0
               case Rejected(errno, status) =>
                 && commit.reply == Errno(if status == 400 then EINVAL else if status == 403 then EACCES else errno)
                 && commit.after.file == b.file && commit.after.failedErrno == commit.reply.errno
  {
  }

  // ---- Commits without a change in between ----

  /** None of the operations is a change that is carried out. */
  ghost predicate NoChange(b: Buffer, ops: seq<Operation>) {
    forall k :: 0 <= k < |ops| ==> !Changes(Run(b, ops[..k]), ops[k])
  }

  lemma {:induction false} NothingHappens(b: Buffer, ops: seq<Operation>)
    requires !b.dirty && NoChange(b, ops)
    ensures Run(b, ops) == b
    decreases |ops|
  {
    if ops != [] {
      var n := |ops| - 1;
      forall k | 0 <= k < n ensures !Changes(Run(b, ops[..n][..k]), ops[..n][k]) {
        assert ops[..n][..k] == ops[..k];
      }
      NothingHappens(b, ops[..n]);
    }
  }

  /**
   * A rejected commit is reported again by every later flush, sync or release, without asking the
   * service, until a write or resize is carried out: exactly when its errno is not zero. Reads,
   * other commits and changes refused for size do not clear it.
   */
  lemma RejectionIsStickyExactly(b: Buffer, service: Service, ops: seq<Operation>, again: Service,
                                 live: bool)
    requires b.dirty && Bounded(b) && service(Slice(b.file, 0, b.size)).Rejected?
    requires NoChange(Step(b, Commit(service, true)).after, ops)
    ensures var rejected := Step(b, Commit(service, true));
            var later := Step(Run(rejected.after, ops), Commit(again, live));
            && rejected.reply.Errno? && later.sent == None && later.after.file == b.file
            && (later.reply == rejected.reply <==> rejected.reply.errno != 0)
            && (rejected.reply.errno == 0 ==> later.reply == Ok([]))
  {
    hide Run, NoChange;
    NothingHappens(Step(b, Commit(service, true)).after, ops);
  }

  /**
   * After a commit that the service took, as it was or merged, every later commit without a change in
   * between is done at once: nothing is sent, and nothing is reported.
   */
  lemma TakenCommitIsQuiet(b: Buffer, service: Service, ops: seq<Operation>, again: Service, live: bool)
    requires b.dirty && Bounded(b) && !service(Slice(b.file, 0, b.size)).Rejected?
    requires NoChange(Step(b, Commit(service, true)).after, ops)
    ensures var taken := Step(b, Commit(service, true)).after;
            var later := Step(Run(taken, ops), Commit(again, live));
            later.sent == None && later.reply == Ok([]) && later.after == taken
  {
    hide Run, NoChange;
    NothingHappens(Step(b, Commit(service, true)).after, ops);
  }

  /** Operations that are refused for size reply so and change nothing; others are carried out. */
  lemma RepliesExactly(b: Buffer, op: Operation)
    requires op.Write? || op.Resize?
    ensures var effect := Step(b, op);
            && effect.sent == None
            && (!Changes(b, op) ==> effect.reply == Errno(EFBIG) && effect.after == b)
            && (Changes(b, op) ==>
                  && effect.after.dirty && effect.after.failedErrno == 0
                  && (op.Write? ==> effect.reply == Ok([]))
                  && (op.Resize? ==>
                        effect.reply == if !op.live then Fault else if op.others then Errno(EOPNOTSUPP) else Ok([])))
  {
  }

  /** After a change that is carried out, the next commit sends the file again, or faults when its inode is gone. */
  lemma ChangeRetries(b: Buffer, op: Operation, service: Service, live: bool)
    requires Changes(b, op) && Bounded(b) && Consistent(b)
    ensures var b' := Step(b, op).after;
            var commit := Step(b', Commit(service, live));
            if live then commit.sent == Some(b'.file) else commit.sent == None && commit.reply == Fault
  {
    hide StepWrite, StepResize;
    ChangedHandle(b, op);
    var b' := Step(b, op).after;
    assert Slice(b'.file, 0, b'.size) == b'.file;
  }

  lemma ChangedHandle(b: Buffer, op: Operation)
    requires Changes(b, op) && Bounded(b) && Consistent(b)
    ensures var b' := Step(b, op).after; b'.dirty && Bounded(b') && Consistent(b')
  {
  }

  // ---- The handle as an object ----

  class Handle {
    var file: Bytes
    var size: nat
    var dirty: bool
    var failedErrno: int
    const append: bool

    function View(): Buffer
      reads this
    {
      Buffer(file, size, dirty, failedErrno, append)
    }

    /** `open`: the file's bytes are spooled; truncating marks the handle as changed. */
    constructor (data: Bytes, append: bool, truncate: bool)
      ensures Consistent(View()) && this.append == append && failedErrno == 0
      ensures file == (if truncate then [] else data) && dirty == truncate
      ensures |data| <= MAX_FILE_BYTES ==> Bounded(View())
    {
      file, size, dirty, failedErrno := data, |data|, false, 0;
      this.append := append;
      if truncate {
        file, size, dirty := Truncated(data, 0), 0, true;
      }
    }

    method Read(at: nat, count: nat) returns (bytes: Bytes)
      ensures Ok(bytes) == Step(View(), Operation.Read(at, count)).reply
    {
      return Slice(file, at, count);
    }

    method Write(offset: nat, data: Bytes) returns (reply: Reply)
      modifies this
      ensures View() == Step(old(View()), Operation.Write(offset, data)).after
      ensures reply == Step(old(View()), Operation.Write(offset, data)).reply
    {
      var at := if append then size else offset;
      var end := at + |data|;
      if end > MAX_FILE_BYTES {
        return Errno(EFBIG);
      }
      if at > size {
        file := Truncated(file, end);
      }
      file := Overwritten(file, at, data);
      size := Max(size, end);
      dirty := true;
      failedErrno := 0;
      return Ok([]);
    }

    /** `setattr` with a size, and with other attributes or not. */
    method Resize(length: nat, others: bool, live: bool) returns (reply: Reply)
      modifies this
      ensures View() == Step(old(View()), Operation.Resize(length, others, live)).after
      ensures reply == Step(old(View()), Operation.Resize(length, others, live)).reply
    {
      if length > MAX_FILE_BYTES {
        return Errno(EFBIG);
      }
      file := Truncated(file, length);
      size := length;
      dirty := true;
      failedErrno := 0;
      if !live {
        return Fault;
      }
      return if others then Errno(EOPNOTSUPP) else Ok([]);
    }

    /** Flush, sync and release all come down to this. */
    method Commit(service: Service, live: bool) returns (reply: Reply)
      modifies this
      ensures View() == Step(old(View()), Operation.Commit(service, live)).after
      ensures reply == Step(old(View()), Operation.Commit(service, live)).reply
    {
      if !dirty {
        return if failedErrno != 0 then Errno(failedErrno) else Ok([]);
      }
      if size > MAX_FILE_BYTES {
        return Errno(EFBIG);
      }
      if !live {
        return Fault;
      }
      var body := Read(0, size);
      var answer := service(body);
      if answer.Rejected? {
        dirty := false;
        failedErrno := MappedErrno(answer.errno, answer.status);
        return Errno(failedErrno);
      }
      if answer.Merged? {
        file := Overwritten(Truncated(file, 0), 0, answer.data);
        size := |answer.data|;
        assert file == answer.data;
      }
      dirty := false;
      failedErrno := 0;
      return Ok([]);
    }
  }
}
