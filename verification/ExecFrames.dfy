/**
 * The exec stream of the guest agent (src/runtime-agent/exec.go): output streams and the exit code
 * share one connection in length-prefixed frames, and stdin comes back the same way.
 */
module ExecFrames {
  import opened Wrappers
  import opened Basics

  const EXEC_STDIN: Byte := 0
  const EXEC_STDOUT: Byte := 1
  const EXEC_STDERR: Byte := 2
  const EXEC_EXIT: Byte := 3
  const MAX_EXEC_FRAME: nat := 0x10_0000
  const TWO_TO_THE_32 := 0x1_0000_0000

  type Byte = x: int | 0 <= x < 256
  type Bytes = seq<Byte>

  datatype Frame = Frame(stream: Byte, payload: Bytes)

  // ---- Numbers on the wire ----

  /** Big-endian, cut down to the width: the digits of the number to base 256. */
  function BigEndian(n: int, width: nat): (b: Bytes)
    ensures |b| == width
    decreases width, n
  {
    if width == 0 then [] else BigEndian(n / 256, width - 1) + [n % 256]
  }

  function Value(b: Bytes): nat {
    if b == [] then 0 else Value(b[..|b| - 1]) * 256 + b[|b| - 1]
  }

  const UINT32_BYTES: nat := 4

  function PutUint32(n: int): (b: Bytes)
    ensures |b| == 4
  {
    BigEndian(n, UINT32_BYTES)
  }

  function Uint32(b: Bytes): nat
    requires |b| == 4
  {
    Value(b)
  }

  function Int32(b: Bytes): int
    requires |b| == 4
  {
    if Uint32(b) < 0x8000_0000 then Uint32(b) else Uint32(b) - TWO_TO_THE_32
  }

  lemma LastDigit(n: int, width: nat)
    requires width > 0
    ensures Value(BigEndian(n, width)) == Value(BigEndian(n / 256, width - 1)) * 256 + n % 256
  {
    assert BigEndian(n, width)[..width - 1] == BigEndian(n / 256, width - 1);
  }

  lemma FourDigits(n: int, n1: int, n2: int, n3: int)
    requires n1 == n / 256 && n2 == n1 / 256 && n3 == n2 / 256
    ensures ((n3 % 256 * 256 + n2 % 256) * 256 + n1 % 256) * 256 + n % 256 == n % TWO_TO_THE_32
  {
  }

  lemma Uint32RoundTrip(n: int)
    ensures Uint32(PutUint32(n)) == n % TWO_TO_THE_32
  {
    var n1 := n / 256;
    var n2 := n1 / 256;
    var n3 := n2 / 256;
    LastDigit(n, 4);
    LastDigit(n1, 3);
    LastDigit(n2, 2);
    LastDigit(n3, 1);
    FourDigits(n, n1, n2, n3);
  }

  lemma PutBack(b: Bytes)
    requires |b| == 4
    ensures PutUint32(Uint32(b)) == b
  {
    DigitsOfValue(b);
  }

  lemma SplitDigit(front: nat, last: Byte)
    ensures (front * 256 + last) / 256 == front && (front * 256 + last) % 256 == last
  {
  }

  lemma OneDigitMore(b: Bytes)
    requires b != []
    ensures var front, last := b[..|b| - 1], b[|b| - 1];
            && b == front + [last]
            && BigEndian(Value(b), |b|)
               == BigEndian((Value(front) * 256 + last) / 256, |front|) + [(Value(front) * 256 + last) % 256]
  {
  }

  lemma {:induction false} DigitsOfValue(b: Bytes)
    ensures BigEndian(Value(b), |b|) == b
    decreases |b|
  {
    if b != [] {
      hide Value, BigEndian;
      DigitsOfValue(b[..|b| - 1]);
      SplitDigit(Value(b[..|b| - 1]), b[|b| - 1]);
      OneDigitMore(b);
    }
  }

  /** The exit code arrives as it was exactly when it fits in 32 signed bits. */
  lemma ExitCodeExactly(code: int)
    ensures Int32(PutUint32(code)) == code <==> -0x8000_0000 <= code < 0x8000_0000
  {
    Uint32RoundTrip(code);
    assert 0 <= code < TWO_TO_THE_32 ==> code % TWO_TO_THE_32 == code;
    assert -TWO_TO_THE_32 <= code < 0 ==> code % TWO_TO_THE_32 == code + TWO_TO_THE_32;
  }

  // ---- Frames ----

  function Encode(f: Frame): Bytes {
    [f.stream] + PutUint32(|f.payload|) + f.payload
  }

  function EncodeAll(fs: seq<Frame>): Bytes {
    if fs == [] then [] else Encode(fs[0]) + EncodeAll(fs[1..])
  }

  /** The frame at the front of the bytes and what follows it, once it is complete. */
  function ParseHead(bytes: Bytes): (r: Option<(Frame, Bytes)>)
    ensures r.Some? ==> |r.value.1| < |bytes|
  {
    if |bytes| < 5 then None
    else
      var end := 5 + Uint32(bytes[1..5]);
      if |bytes| < end then None else Some((Frame(bytes[0], bytes[5..end]), bytes[end..]))
  }

  /** Complete frames at the front of the bytes. */
  function Parse(bytes: Bytes): seq<Frame>
    decreases |bytes|
  {
    match ParseHead(bytes)
    case None => []
    case Some(head) => [head.0] + Parse(head.1)
  }

  /** The length of a frame's payload fits in its header. */
  predicate Fits(f: Frame) {
    |f.payload| < TWO_TO_THE_32
  }

  lemma EncodedParts(f: Frame, tail: Bytes)
    requires Fits(f)
    ensures var bytes := Encode(f) + tail;
            && |bytes| >= 5 && bytes[0] == f.stream && bytes[1..5] == PutUint32(|f.payload|)
            && Uint32(bytes[1..5]) == |f.payload|
            && bytes[5..5 + |f.payload|] == f.payload && bytes[5 + |f.payload|..] == tail
  {
    Uint32RoundTrip(|f.payload|);
    var bytes := Encode(f) + tail;
    assert bytes[1..5] == PutUint32(|f.payload|);
  }

  lemma HeadIsBack(f: Frame, tail: Bytes)
    requires Fits(f)
    ensures ParseHead(Encode(f) + tail) == Some((f, tail))
  {
    EncodedParts(f, tail);
  }

  ghost predicate AllFit(fs: seq<Frame>) {
    forall f :: f in fs ==> Fits(f)
  }

  /** A function that takes a frame off the front of the bytes, whatever follows. */
  ghost predicate TakesFrames(parse: Bytes -> seq<Frame>) {
    forall f: Frame, tail: Bytes {:trigger parse(Encode(f) + tail)} :: Fits(f) ==>
      parse(Encode(f) + tail) == [f] + parse(tail)
  }

  lemma {:induction false} TakesAllFrames(parse: Bytes -> seq<Frame>, fs: seq<Frame>, tail: Bytes)
    requires TakesFrames(parse) && AllFit(fs)
    ensures parse(EncodeAll(fs) + tail) == fs + parse(tail)
    decreases |fs|
  {
    if fs == [] {
      assert EncodeAll(fs) + tail == tail;
    } else {
      TakesAllFrames(parse, fs[1..], tail);
      assert Fits(fs[0]);
      assert EncodeAll(fs) + tail == Encode(fs[0]) + (EncodeAll(fs[1..]) + tail);
    }
  }

  lemma ParseTakesFrames()
    ensures TakesFrames(Parse)
  {
    forall f: Frame, tail: Bytes | Fits(f) ensures Parse(Encode(f) + tail) == [f] + Parse(tail) {
      HeadIsBack(f, tail);
    }
  }

  /** Parsing gives back the frames that were written, whatever follows them. */
  lemma ParseRoundTrip(fs: seq<Frame>, tail: Bytes)
    requires AllFit(fs)
    ensures Parse(EncodeAll(fs) + tail) == fs + Parse(tail)
  {
    ParseTakesFrames();
    TakesAllFrames(Parse, fs, tail);
  }

  /** A connection that breaks off inside a frame shows nothing of it. */
  lemma CutFrame(f: Frame, k: nat)
    requires Fits(f) && k < |Encode(f)|
    ensures ParseHead(Encode(f)[..k]) == None
  {
    EncodedParts(f, []);
    assert Encode(f) + [] == Encode(f);
    assert k >= 5 ==> Encode(f)[..k][1..5] == Encode(f)[1..5];
  }

  /** A function that makes nothing of a frame that is cut off. */
  ghost predicate IgnoresCutFrames(parse: Bytes -> seq<Frame>) {
    && parse([]) == []
    && forall f: Frame, k: nat {:trigger parse(Encode(f)[..k])} :: Fits(f) && k < |Encode(f)| ==>
         parse(Encode(f)[..k]) == []
  }

  lemma {:induction false} CutTakesPrefix(parse: Bytes -> seq<Frame>, fs: seq<Frame>, k: nat)
    requires TakesFrames(parse) && IgnoresCutFrames(parse) && AllFit(fs) && k <= |EncodeAll(fs)|
    ensures parse(EncodeAll(fs)[..k]) <= fs
    decreases |fs|
  {
    if fs == [] {
      assert EncodeAll(fs)[..k] == [];
    } else {
      var first, others := Encode(fs[0]), EncodeAll(fs[1..]);
      assert Fits(fs[0]);
      if k < |first| {
        assert (first + others)[..k] == first[..k];
      } else {
        assert (first + others)[..k] == first + others[..k - |first|];
        CutTakesPrefix(parse, fs[1..], k - |first|);
      }
    }
  }

  /** A connection that breaks off shows a prefix of the frames, never a wrong one. */
  lemma CutParsesToPrefix(fs: seq<Frame>, k: nat)
    requires AllFit(fs) && k <= |EncodeAll(fs)|
    ensures Parse(EncodeAll(fs)[..k]) <= fs
  {
    ParseTakesFrames();
    forall f: Frame, n: nat | Fits(f) && n < |Encode(f)| ensures Parse(Encode(f)[..n]) == [] {
      CutFrame(f, n);
    }
    CutTakesPrefix(Parse, fs, k);
  }

  // ---- Several writers on one connection ----

  function Join(parts: seq<Bytes>): Bytes {
    if parts == [] then [] else parts[0] + Join(parts[1..])
  }

  /** What one write puts on the wire: frames of at most MAX_EXEC_FRAME bytes. */
  function Chunks(stream: Byte, p: Bytes): seq<Frame> {
    if p == [] then []
    else if |p| <= MAX_EXEC_FRAME then [Frame(stream, p)]
    else [Frame(stream, p[..MAX_EXEC_FRAME])] + Chunks(stream, p[MAX_EXEC_FRAME..])
  }

  function AllChunks(stream: Byte, writes: seq<Bytes>): seq<Frame> {
    if writes == [] then [] else Chunks(stream, writes[0]) + AllChunks(stream, writes[1..])
  }

  /** The frame lock makes the wire an interleaving of whole frames. */
  ghost predicate Interleaves(wire: seq<Frame>, a: seq<Frame>, b: seq<Frame>)
    decreases |wire|
  {
    if wire == [] then a == [] && b == []
    else
      || (a != [] && a[0] == wire[0] && Interleaves(wire[1..], a[1..], b))
      || (b != [] && b[0] == wire[0] && Interleaves(wire[1..], a, b[1..]))
  }

  /** What a reader of one stream puts together. */
  function Demux(frames: seq<Frame>, stream: Byte): Bytes {
    if frames == [] then []
    else (if frames[0].stream == stream then frames[0].payload else []) + Demux(frames[1..], stream)
  }

  ghost predicate OnStream(frames: seq<Frame>, stream: Byte) {
    forall f :: f in frames ==> f.stream == stream && 0 < |f.payload| <= MAX_EXEC_FRAME
  }

  lemma {:induction false} ChunksCarry(stream: Byte, p: Bytes)
    ensures OnStream(Chunks(stream, p), stream) && Demux(Chunks(stream, p), stream) == p
    decreases |p|
  {
    if |p| > MAX_EXEC_FRAME {
      ChunksCarry(stream, p[MAX_EXEC_FRAME..]);
      assert Chunks(stream, p)[1..] == Chunks(stream, p[MAX_EXEC_FRAME..]);
      assert p == p[..MAX_EXEC_FRAME] + p[MAX_EXEC_FRAME..];
    } else if p != [] {
      assert Chunks(stream, p) == [Frame(stream, p)] && Chunks(stream, p)[1..] == [];
    }
  }

  lemma {:induction false} DemuxAppend(a: seq<Frame>, b: seq<Frame>, stream: Byte)
    ensures Demux(a + b, stream) == Demux(a, stream) + Demux(b, stream)
    decreases |a|
  {
    if a == [] {
      assert a + b == b;
    } else {
      assert (a + b)[1..] == a[1..] + b;
      DemuxAppend(a[1..], b, stream);
    }
  }

  lemma {:induction false} AllChunksCarry(stream: Byte, writes: seq<Bytes>)
    ensures OnStream(AllChunks(stream, writes), stream) && Demux(AllChunks(stream, writes), stream) == Join(writes)
    decreases |writes|
  {
    if writes != [] {
      ChunksCarry(stream, writes[0]);
      AllChunksCarry(stream, writes[1..]);
      DemuxAppend(Chunks(stream, writes[0]), AllChunks(stream, writes[1..]), stream);
    }
  }

  lemma {:induction false} DemuxInterleaving(wire: seq<Frame>, a: seq<Frame>, b: seq<Frame>, s: Byte, t: Byte)
    requires Interleaves(wire, a, b) && OnStream(a, s) && OnStream(b, t) && s != t
    ensures Demux(wire, s) == Demux(a, s) && Demux(wire, t) == Demux(b, t)
    ensures forall f :: f in wire ==> (f.stream == s || f.stream == t) && 0 < |f.payload| <= MAX_EXEC_FRAME
    decreases |wire|
  {
    if wire != [] {
      if a != [] && a[0] == wire[0] && Interleaves(wire[1..], a[1..], b) {
        assert a[0] in a;
        DemuxInterleaving(wire[1..], a[1..], b, s, t);
      } else {
        assert b[0] in b;
        DemuxInterleaving(wire[1..], a, b[1..], s, t);
      }
    }
  }

  lemma OtherStreamsOnly(wire: seq<Frame>, exit: Frame, s: Byte)
    requires exit.stream != s
    ensures Demux(wire + [exit], s) == Demux(wire, s)
  {
    DemuxAppend(wire, [exit], s);
    assert [exit][1..] == [];
  }

  lemma ParsesInFull(fs: seq<Frame>)
    requires AllFit(fs)
    ensures Parse(EncodeAll(fs)) == fs
  {
    ParseRoundTrip(fs, []);
    assert EncodeAll(fs) + [] == EncodeAll(fs) && Parse([]) == [] && fs + [] == fs;
  }

  lemma SessionStreams(wire: seq<Frame>, outs: seq<Bytes>, errs: seq<Bytes>, exit: Frame)
    requires Interleaves(wire, AllChunks(EXEC_STDOUT, outs), AllChunks(EXEC_STDERR, errs)) && exit.stream == EXEC_EXIT
    ensures Demux(wire + [exit], EXEC_STDOUT) == Join(outs) && Demux(wire + [exit], EXEC_STDERR) == Join(errs)
    ensures forall f :: f in wire ==> 0 < |f.payload| <= MAX_EXEC_FRAME
  {
    AllChunksCarry(EXEC_STDOUT, outs);
    AllChunksCarry(EXEC_STDERR, errs);
    DemuxInterleaving(wire, AllChunks(EXEC_STDOUT, outs), AllChunks(EXEC_STDERR, errs), EXEC_STDOUT, EXEC_STDERR);
    OtherStreamsOnly(wire, exit, EXEC_STDOUT);
    OtherStreamsOnly(wire, exit, EXEC_STDERR);
  }

  /**
   * A whole session: whatever the order in which stdout and stderr get the lock, parsing the
   * connection gives frames of at most MAX_EXEC_FRAME bytes from which each stream is put together
   * exactly as it was written, followed by the exit code.
   */
  lemma SessionRoundTrip(wire: seq<Frame>, outs: seq<Bytes>, errs: seq<Bytes>, code: int, exit: Frame)
    requires Interleaves(wire, AllChunks(EXEC_STDOUT, outs), AllChunks(EXEC_STDERR, errs))
    requires exit == Frame(EXEC_EXIT, PutUint32(code))
    ensures Parse(EncodeAll(wire + [exit])) == wire + [exit]
    ensures Demux(wire + [exit], EXEC_STDOUT) == Join(outs) && Demux(wire + [exit], EXEC_STDERR) == Join(errs)
    ensures forall f :: f in wire ==> 0 < |f.payload| <= MAX_EXEC_FRAME
    ensures Int32(exit.payload) == code <==> -0x8000_0000 <= code < 0x8000_0000
  {
    SessionStreams(wire, outs, errs, exit);
    forall f | f in wire + [exit] ensures Fits(f) {
      assert f in wire || f == exit;
    }
    ParsesInFull(wire + [exit]);
    ExitCodeExactly(code);
  }

  // ---- Two writers and one lock ----

  /** Where a stream stands: what it still has to write, and the offset `Write` has reached in the first of these. */
  datatype Writer = Writer(stream: Byte, writes: seq<Bytes>, offset: nat)
  {
    /** The next frame for which it takes the lock, and where it stands after that. */
    function Next(): Option<(Frame, Writer)>
      decreases |writes|
    {
      if writes == [] then None
      else if offset < |writes[0]| then
        var end := Min(offset + MAX_EXEC_FRAME, |writes[0]|);
        Some((Frame(stream, writes[0][offset..end]), this.(offset := offset + MAX_EXEC_FRAME)))
      else Writer(stream, writes[1..], 0).Next()
    }

    function ToSend(): seq<Frame> {
      if writes == [] then []
      else Chunks(stream, writes[0][Min(offset, |writes[0]|)..]) + AllChunks(stream, writes[1..])
    }
  }

  datatype Wire = Wire(frames: seq<Frame>, a: Writer, b: Writer)

  /** What is sent when the writers get the lock in these turns; a writer that is done lets its turn pass. */
  function InTurns(a: Writer, b: Writer, turns: seq<bool>): Wire
    decreases |turns|
  {
    if turns == [] then Wire([], a, b)
    else
      match (if turns[0] then a else b).Next()
      case None => InTurns(a, b, turns[1..])
      case Some((frame, later)) =>
        var rest := InTurns(if turns[0] then later else a, if turns[0] then b else later, turns[1..]);
        rest.(frames := [frame] + rest.frames)
  }

  lemma {:induction false} NextSends(w: Writer)
    ensures match w.Next()
            case None => w.ToSend() == []
            case Some((frame, later)) => w.ToSend() == [frame] + later.ToSend()
    decreases |w.writes|
  {
    if w.writes != [] {
      var p := w.writes[0];
      if w.offset < |p| {
        NextChunk(w.stream, p, w.offset);
        Assoc([Frame(w.stream, p[w.offset..Min(w.offset + MAX_EXEC_FRAME, |p|)])],
              Chunks(w.stream, p[Min(w.offset + MAX_EXEC_FRAME, |p|)..]), AllChunks(w.stream, w.writes[1..]));
      } else {
        var next := Writer(w.stream, w.writes[1..], 0);
        NextSends(next);
        assert Chunks(w.stream, p[|p|..]) == [];
        if next.writes != [] { assert next.writes[0][0..] == next.writes[0]; }
        assert w.ToSend() == next.ToSend();
      }
    }
  }

  lemma NextChunk(stream: Byte, p: Bytes, offset: nat)
    requires offset < |p|
    ensures var end := Min(offset + MAX_EXEC_FRAME, |p|);
            Chunks(stream, p[offset..]) == [Frame(stream, p[offset..end])] + Chunks(stream, p[end..])
  {
    var end := Min(offset + MAX_EXEC_FRAME, |p|);
    var rest := p[offset..];
    if |rest| <= MAX_EXEC_FRAME {
      assert p[offset..end] == rest && p[end..] == [];
    } else {
      assert rest[..MAX_EXEC_FRAME] == p[offset..end] && rest[MAX_EXEC_FRAME..] == p[end..];
    }
  }

  /** Turns that let both finish make the wire an interleaving of whole frames. */
  lemma {:induction false} TurnsInterleave(a: Writer, b: Writer, turns: seq<bool>)
    requires var end := InTurns(a, b, turns); end.a.Next().None? && end.b.Next().None?
    ensures Interleaves(InTurns(a, b, turns).frames, a.ToSend(), b.ToSend())
    decreases |turns|
  {
    if turns == [] {
      NextSends(a);
      NextSends(b);
    } else {
      var w := if turns[0] then a else b;
      NextSends(w);
      match w.Next()
      case None => TurnsInterleave(a, b, turns[1..]);
      case Some((frame, later)) =>
        TurnsInterleave(if turns[0] then later else a, if turns[0] then b else later, turns[1..]);
        TurnSends(frame, later, if turns[0] then b else a, InTurns(a, b, turns).frames, w, turns[0]);
    }
  }

  lemma TurnSends(frame: Frame, later: Writer, other: Writer, frames: seq<Frame>, w: Writer, first: bool)
    requires frames != [] && frames[0] == frame && w.ToSend() == [frame] + later.ToSend()
    requires if first then Interleaves(frames[1..], later.ToSend(), other.ToSend())
             else Interleaves(frames[1..], other.ToSend(), later.ToSend())
    ensures if first then Interleaves(frames, w.ToSend(), other.ToSend())
            else Interleaves(frames, other.ToSend(), w.ToSend())
  {
    assert w.ToSend()[1..] == later.ToSend();
  }

  /** A whole session of two writers that get the frame lock in any turns. */
  lemma SessionOfTurns(outs: seq<Bytes>, errs: seq<Bytes>, turns: seq<bool>, code: int, exit: Frame)
    requires exit == Frame(EXEC_EXIT, PutUint32(code))
    requires var end := InTurns(Writer(EXEC_STDOUT, outs, 0), Writer(EXEC_STDERR, errs, 0), turns);
             end.a.Next().None? && end.b.Next().None?
    ensures var wire := InTurns(Writer(EXEC_STDOUT, outs, 0), Writer(EXEC_STDERR, errs, 0), turns).frames;
            && Parse(EncodeAll(wire + [exit])) == wire + [exit]
            && Demux(wire + [exit], EXEC_STDOUT) == Join(outs) && Demux(wire + [exit], EXEC_STDERR) == Join(errs)
  {
    var a, b := Writer(EXEC_STDOUT, outs, 0), Writer(EXEC_STDERR, errs, 0);
    TurnsInterleave(a, b, turns);
    WholeToSend(a);
    WholeToSend(b);
    SessionRoundTrip(InTurns(a, b, turns).frames, outs, errs, code, exit);
  }

  lemma WholeToSend(w: Writer)
    requires w.offset == 0
    ensures w.ToSend() == AllChunks(w.stream, w.writes)
  {
    if w.writes != [] { assert w.writes[0][0..] == w.writes[0]; }
  }

  // ---- The writers ----

  /** The connection: it takes bytes until it breaks. */
  class Connection {
    var bytes: Bytes
    var room: nat

    constructor (room: nat)
      ensures bytes == [] && this.room == room
    {
      bytes, this.room := [], room;
    }

    /** Takes as much as there is room for; taking less is an error. */
    method Write(p: Bytes) returns (failed: bool)
      modifies this
      ensures failed <==> |p| > old(room)
      ensures !failed ==> bytes == old(bytes) + p && room == old(room) - |p|
      ensures failed ==> bytes == old(bytes) + p[..old(room)] && room == 0
    {
      var n := if |p| <= room then |p| else room;
      failed := n < |p|;
      assert p[..|p|] == p;
      bytes := bytes + p[..n];
      room := room - n;
    }
  }

  class FrameWriter {
    const w: Connection

    constructor (w: Connection)
      ensures this.w == w
    {
      this.w := w;
    }

    /** One frame, header first, under the lock. A failure leaves a part of the frame behind. */
    method Send(stream: Byte, payload: Bytes) returns (failed: bool)
      modifies w
      ensures var f := Encode(Frame(stream, payload));
              && (failed <==> |f| > old(w.room))
              && (!failed ==> w.bytes == old(w.bytes) + f && w.room == old(w.room) - |f|)
              && (failed ==> w.bytes == old(w.bytes) + f[..old(w.room)] && w.room == 0)
    {
      var header := [stream] + PutUint32(|payload|);
      ghost var f := Encode(Frame(stream, payload));
      assert f == header + payload;
      failed := w.Write(header);
      if failed {
        assert f[..old(w.room)] == header[..old(w.room)];
        return;
      }
      failed := w.Write(payload);
      if failed {
        assert f[..old(w.room)] == header + payload[..old(w.room) - 5];
      }
    }
  }

  /** One frame more on the wire. */
  lemma {:induction false} EncodedPrefix(fs: seq<Frame>, k: nat)
    requires k < |fs|
    ensures EncodeAll(fs[..k + 1]) == EncodeAll(fs[..k]) + Encode(fs[k])
    ensures EncodeAll(fs[..k + 1]) <= EncodeAll(fs)
    decreases |fs|
  {
    assert fs[..k + 1][1..] == fs[1..][..k];
    if k == 0 {
      assert EncodeAll(fs[..1]) == Encode(fs[0]) + EncodeAll([]);
    } else {
      assert fs[..k][1..] == fs[1..][..k - 1];
      EncodedPrefix(fs[1..], k - 1);
      Assoc(Encode(fs[0]), EncodeAll(fs[1..][..k - 1]), Encode(fs[k]));
    }
  }

  /** The `k`th frame of a write carries the bytes at this offset; beyond the end there is none. */
  ghost predicate IsFrameAt(stream: Byte, p: Bytes, fs: seq<Frame>, k: nat, offset: nat) {
    if offset < |p| then k < |fs| && fs[k] == Frame(stream, p[offset..Min(offset + MAX_EXEC_FRAME, |p|)]) else |fs| <= k
  }

  lemma {:induction false} FrameAt(stream: Byte, p: Bytes, k: nat, offset: nat)
    requires offset == k * MAX_EXEC_FRAME
    ensures IsFrameAt(stream, p, Chunks(stream, p), k, offset)
    decreases k
  {
    if |p| <= MAX_EXEC_FRAME {
      assert p[0..] == p[0..|p|] == p;
    } else if k == 0 {
      assert p[0..MAX_EXEC_FRAME] == p[..MAX_EXEC_FRAME];
    } else {
      FrameAt(stream, p[MAX_EXEC_FRAME..], k - 1, offset - MAX_EXEC_FRAME);
      LaterFrameAt(stream, p, Chunks(stream, p[MAX_EXEC_FRAME..]), k - 1, offset - MAX_EXEC_FRAME,
                   Frame(stream, p[..MAX_EXEC_FRAME]));
    }
  }

  lemma LaterFrameAt(stream: Byte, p: Bytes, later: seq<Frame>, k: nat, offset: nat, first: Frame)
    requires |p| > MAX_EXEC_FRAME && IsFrameAt(stream, p[MAX_EXEC_FRAME..], later, k, offset)
    ensures IsFrameAt(stream, p, [first] + later, k + 1, offset + MAX_EXEC_FRAME)
  {
    if offset + MAX_EXEC_FRAME < |p| { SliceOfRest(p, offset + MAX_EXEC_FRAME); }
  }

  lemma SliceOfRest(p: Bytes, offset: nat)
    requires MAX_EXEC_FRAME <= offset < |p|
    ensures var rest, at := p[MAX_EXEC_FRAME..], offset - MAX_EXEC_FRAME;
            rest[at..Min(at + MAX_EXEC_FRAME, |rest|)] == p[offset..Min(offset + MAX_EXEC_FRAME, |p|)]
  {
    var rest, at, end := p[MAX_EXEC_FRAME..], offset - MAX_EXEC_FRAME, Min(offset + MAX_EXEC_FRAME, |p|);
    assert Min(at + MAX_EXEC_FRAME, |rest|) == end - MAX_EXEC_FRAME;
    SliceOfSlice(p, MAX_EXEC_FRAME, at, end - MAX_EXEC_FRAME);
  }

  lemma SliceOfSlice(p: Bytes, m: nat, i: nat, j: nat)
    requires m <= |p| && i <= j <= |p| - m
    ensures p[m..][i..j] == p[m + i..m + j]
  {
    var s, t := p[m..][i..j], p[m + i..m + j];
    assert |s| == |t|;
    forall k | 0 <= k < |s| ensures s[k] == t[k] {
      assert s[k] == p[m..][i + k];
    }
  }

  ghost predicate IsEncodeAll(encode: seq<Frame> -> Bytes) {
    forall fs {:trigger EncodeAll(fs)} :: encode(fs) == EncodeAll(fs)
  }

  /** A name for `EncodeAll` that the loop of `Write` need not look into. */
  lemma NameEncodeAll(fs: seq<Frame>) returns (encode: seq<Frame> -> Bytes)
    ensures IsEncodeAll(encode) && encode(fs[..0]) == [] && encode(fs) == EncodeAll(fs)
  {
    encode := gs => EncodeAll(gs);
    assert fs[..0] == [] && EncodeAll([]) == [];
    assert encode(fs[..0]) == EncodeAll(fs[..0]);
    forall gs {:trigger EncodeAll(gs)} ensures encode(gs) == EncodeAll(gs) {}
  }

  lemma Assoc<T>(a: seq<T>, b: seq<T>, c: seq<T>)
    ensures (a + b) + c == a + (b + c)
  {
  }

  lemma CutInFrame(wire: Bytes, sent: Bytes, frame: Bytes, room: nat)
    requires sent + frame <= wire && room < |frame|
    ensures sent + frame[..room] == wire[..|sent| + room]
  {
  }

  class StreamWriter {
    const out: FrameWriter
    const stream: Byte

    constructor (out: FrameWriter, stream: Byte)
      ensures this.out == out && this.stream == stream
    {
      this.out, this.stream := out, stream;
    }

    /** Sends one piece: what was `sent` grows to `next`, or the connection breaks off in between. */
    method SendPiece(payload: Bytes, ghost sent: Bytes, ghost next: Bytes, ghost wire: Bytes, ghost base: Bytes)
      returns (failed: bool)
      requires next == sent + Encode(Frame(stream, payload)) && next <= wire
      requires out.w.bytes == base + sent
      modifies out.w
      ensures !failed ==> out.w.bytes == base + next && |next| + out.w.room == |sent| + old(out.w.room)
      ensures failed ==> |sent| + old(out.w.room) < |next| && out.w.bytes == base + wire[..|sent| + old(out.w.room)]
    {
      ghost var frame, room := Encode(Frame(stream, payload)), out.w.room;
      failed := out.Send(stream, payload);
      if failed {
        CutInFrame(wire, sent, frame, room);
        Assoc(base, sent, frame[..room]);
      } else {
        Assoc(base, sent, frame);
      }
    }

    /** Sends the `k`th frame of a write. */
    method SendNext(p: Bytes, offset: nat, ghost encode: seq<Frame> -> Bytes, ghost fs: seq<Frame>, ghost k: nat,
                    ghost base: Bytes)
      returns (failed: bool)
      requires IsEncodeAll(encode) && fs == Chunks(stream, p) && offset == k * MAX_EXEC_FRAME < |p| && k <= |fs|
      requires out.w.bytes == base + encode(fs[..k])
      modifies out.w
      ensures k < |fs|
      ensures !failed ==>
                && out.w.bytes == base + encode(fs[..k + 1])
                && |encode(fs[..k + 1])| + out.w.room == |encode(fs[..k])| + old(out.w.room)
      ensures failed ==>
                var n := |encode(fs[..k])| + old(out.w.room);
                n < |encode(fs[..k + 1])| <= |encode(fs)| && out.w.bytes == base + encode(fs)[..n]
    {
      var end := Min(offset + MAX_EXEC_FRAME, |p|);
      FrameAt(stream, p, k, offset);
      EncodedPrefix(fs, k);
      failed := SendPiece(p[offset..end], EncodeAll(fs[..k]), EncodeAll(fs[..k + 1]), EncodeAll(fs), base);
    }

    /**
     * Writes the bytes as frames; what is on the wire is all of their frames, or as much of them
     * as the connection took. The count is that of the bytes in complete frames: the frames of
     * so many bytes are on the wire, and the next one is not.
     */
    method Write(p: Bytes) returns (n: nat, failed: bool)
      modifies out.w
      ensures var wire := EncodeAll(Chunks(stream, p));
              && (failed <==> |wire| > old(out.w.room))
              && (!failed ==> n == |p| && out.w.bytes == old(out.w.bytes) + wire)
              && (failed ==>
                    n < |p| && n % MAX_EXEC_FRAME == 0 && out.w.bytes == old(out.w.bytes) + wire[..old(out.w.room)])
      ensures failed ==>
                var frames, sent := Chunks(stream, p), n / MAX_EXEC_FRAME;
                && sent < |frames|
                && |EncodeAll(frames[..sent])| <= old(out.w.room) < |EncodeAll(frames[..sent + 1])|
    {
      var offset := 0;
      ghost var fs, k := Chunks(stream, p), 0;
      ghost var encode := NameEncodeAll(fs);
      while offset < |p|
        invariant offset == k * MAX_EXEC_FRAME && k <= |fs|
        invariant out.w.bytes == old(out.w.bytes) + encode(fs[..k]) && |encode(fs[..k])| + out.w.room == old(out.w.room)
        decreases |p| - offset
      {
        failed := SendNext(p, offset, encode, fs, k, old(out.w.bytes));
        if failed {
          return offset, true;
        }
        offset := offset + MAX_EXEC_FRAME;
        k := k + 1;
      }
      FrameAt(stream, p, k, offset);
      assert fs[..k] == fs;
      return |p|, false;
    }
  }

  // ---- Stdin ----

  datatype StdinEnd = Closed | Eof | UnexpectedEof | Invalid

  /** What forwarding stdin frames from these bytes writes, how many bytes it takes, and how it ends. */
  datatype Forwarded = Forwarded(written: Bytes, taken: nat, end: StdinEnd)

  /** One turn of the loop: it forwards a chunk and goes on, or it ends. */
  datatype Turn = Goes(chunk: Bytes) | Ends(how: Forwarded)

  function TurnOn(data: Bytes): (t: Turn)
    ensures t.Goes? ==> 0 < |t.chunk| <= MAX_EXEC_FRAME && 5 + |t.chunk| <= |data|
    ensures t.Ends? ==> t.how.taken <= |data|
  {
    if data == [] then Ends(Forwarded([], 0, Eof))
    else if |data| < 5 then Ends(Forwarded([], |data|, UnexpectedEof))
    else
      var size := Uint32(data[1..5]);
      if data[0] != EXEC_STDIN || size > MAX_EXEC_FRAME then Ends(Forwarded([], 5, Invalid))
      else if size == 0 then Ends(Forwarded([], 5, Closed))
      else if |data| < 5 + size then Ends(Forwarded(data[5..], |data|, Eof))
      else Goes(data[5..5 + size])
  }

  function Forward(data: Bytes): (r: Forwarded)
    ensures r.taken <= |data|
    decreases |data|
  {
    match TurnOn(data)
    case Ends(how) => how
    case Goes(chunk) =>
      var rest := Forward(data[5 + |chunk|..]);
      Forwarded(chunk + rest.written, 5 + |chunk| + rest.taken, rest.end)
  }

  function StdinFrames(chunks: seq<Bytes>): seq<Frame> {
    if chunks == [] then [Frame(EXEC_STDIN, [])] else [Frame(EXEC_STDIN, chunks[0])] + StdinFrames(chunks[1..])
  }

  predicate StdinChunks(chunks: seq<Bytes>) {
    forall c :: c in chunks ==> 0 < |c| <= MAX_EXEC_FRAME
  }

  lemma TurnOnChunk(c: Bytes, rest: Bytes)
    requires 0 < |c| <= MAX_EXEC_FRAME
    ensures TurnOn(Encode(Frame(EXEC_STDIN, c)) + rest) == Goes(c)
    ensures (Encode(Frame(EXEC_STDIN, c)) + rest)[5 + |c|..] == rest
  {
    EncodedParts(Frame(EXEC_STDIN, c), rest);
  }

  lemma TurnOnClose(rest: Bytes)
    ensures TurnOn(Encode(Frame(EXEC_STDIN, [])) + rest) == Ends(Forwarded([], 5, Closed))
  {
    EncodedParts(Frame(EXEC_STDIN, []), rest);
  }

  /**
   * Any list of non-empty chunks, encoded and closed by the empty frame, is forwarded as their
   * concatenation, and nothing behind the empty frame is taken.
   */
  lemma {:induction false} ForwardsEncodedChunks(chunks: seq<Bytes>, tail: Bytes)
    requires StdinChunks(chunks)
    ensures Forward(EncodedStdin(chunks) + tail) == Forwarded(Join(chunks), |EncodedStdin(chunks)|, Closed)
    decreases |chunks|
  {
    var fs := StdinFrames(chunks);
    var rest := EncodeAll(fs[1..]) + tail;
    assert EncodeAll(fs) + tail == Encode(fs[0]) + rest;
    if chunks == [] {
      TurnOnClose(rest);
      assert EncodeAll(fs[1..]) == [];
    } else {
      TurnOnChunk(chunks[0], rest);
      assert fs[1..] == StdinFrames(chunks[1..]);
      ForwardsEncodedChunks(chunks[1..], tail);
    }
  }

  /** What a turn takes is a stdin frame as it is encoded. */
  lemma TurnTakesFrame(data: Bytes)
    requires TurnOn(data).Goes?
    ensures data[..5 + |TurnOn(data).chunk|] == Encode(Frame(EXEC_STDIN, TurnOn(data).chunk))
  {
    PutBack(data[1..5]);
    var c := TurnOn(data).chunk;
    assert data[..5 + |c|] == [data[0]] + data[1..5] + c;
  }

  lemma CloseTakesFrame(data: Bytes)
    requires TurnOn(data).Ends? && TurnOn(data).how.end == Closed
    ensures TurnOn(data).how == Forwarded([], 5, Closed) && |data| >= 5 && data[..5] == Encode(Frame(EXEC_STDIN, []))
  {
    PutBack(data[1..5]);
    assert data[..5] == [data[0]] + data[1..5] + [];
  }

  function EncodedStdin(chunks: seq<Bytes>): Bytes {
    EncodeAll(StdinFrames(chunks))
  }

  lemma EncodedStdinMore(c: Bytes, more: seq<Bytes>)
    ensures EncodedStdin([c] + more) == Encode(Frame(EXEC_STDIN, c)) + EncodedStdin(more)
  {
    assert ([c] + more)[1..] == more;
    assert StdinFrames([c] + more)[1..] == StdinFrames(more);
  }

  lemma EncodedStdinEnd()
    ensures EncodedStdin([]) == Encode(Frame(EXEC_STDIN, []))
  {
    assert StdinFrames([])[1..] == [] && EncodeAll([]) == [];
  }

  lemma TakenMore(data: Bytes, c: Bytes, taken: nat)
    requires TurnOn(data) == Goes(c) && taken <= |data| - 5 - |c|
    ensures data[..5 + |c| + taken] == Encode(Frame(EXEC_STDIN, c)) + data[5 + |c|..][..taken]
  {
    TurnTakesFrame(data);
    assert data[..5 + |c| + taken] == data[..5 + |c|] + data[5 + |c|..][..taken];
  }

  /** Forwarding ends closed only on such an encoding: what was taken is one, and its chunks were written. */
  lemma {:induction false} ClosedOnlyByEmptyFrame(data: Bytes) returns (chunks: seq<Bytes>)
    requires Forward(data).end == Closed
    ensures StdinChunks(chunks) && Join(chunks) == Forward(data).written
    ensures data[..Forward(data).taken] == EncodedStdin(chunks)
    decreases |data|
  {
    if TurnOn(data).Ends? {
      chunks := [];
      CloseTakesFrame(data);
      EncodedStdinEnd();
    } else {
      var c := TurnOn(data).chunk;
      var more := ClosedOnlyByEmptyFrame(data[5 + |c|..]);
      chunks := [c] + more;
      TakenMore(data, c, Forward(data[5 + |c|..]).taken);
      EncodedStdinMore(c, more);
      assert chunks[1..] == more;
    }
  }

  // ---- Every way in which forwarding ends ----

  /** The length a frame's header gives, high byte first. */
  function HeaderSize(data: Bytes): nat
    requires |data| >= 5
  {
    data[1] as int * 0x100_0000 + data[2] as int * 0x1_0000 + data[3] as int * 0x100 + data[4] as int
  }

  lemma SizeInHeader(data: Bytes)
    requires |data| >= 5
    ensures Uint32(data[1..5]) == HeaderSize(data)
  {
    var b := data[1..5];
    assert b[..3][..2] == b[..2] && b[..2][..1] == b[..1] && b[..1][..0] == [];
    assert Value(b[..1]) == data[1] && Value(b[..2]) == Value(b[..1]) * 256 + data[2];
    assert Value(b[..3]) == Value(b[..2]) * 256 + data[3];
  }

  /** Whatever is sent carries its type and its length in front. */
  lemma HeaderTells(f: Frame, tail: Bytes)
    requires Fits(f)
    ensures var bytes := Encode(f) + tail;
            |bytes| >= 5 && bytes[0] == f.stream && HeaderSize(bytes) == |f.payload| && bytes[5..] == f.payload + tail
  {
    EncodedParts(f, tail);
    SizeInHeader(Encode(f) + tail);
  }

  function ChunkBytes(chunks: seq<Bytes>): Bytes {
    if chunks == [] then [] else Encode(Frame(0, chunks[0])) + ChunkBytes(chunks[1..])
  }

  /**
   * What becomes of input that does not begin with a whole chunk: how much is written and taken, and how
   * forwarding ends.
   */
  predicate EndsOn(rest: Bytes, how: Forwarded) {
    if rest == [] then how == Forwarded([], 0, Eof)
    else if |rest| < 5 then how == Forwarded([], |rest|, UnexpectedEof)
    else
      var size := HeaderSize(rest);
      if rest[0] != 0 || size > 1024 * 1024 then how == Forwarded([], 5, Invalid)
      else if size == 0 then how == Forwarded([], 5, Closed)
      else |rest| < 5 + size && how == Forwarded(rest[5..], |rest|, Eof)
  }

  /**
   * Any input at all is forwarded as the whole chunks it begins with; what comes behind them decides how
   * it ends. A chunk that breaks off is written as far as it goes.
   */
  lemma {:induction false} ForwardExactly(data: Bytes) returns (chunks: seq<Bytes>, rest: Bytes, how: Forwarded)
    ensures StdinChunks(chunks) && data == ChunkBytes(chunks) + rest && EndsOn(rest, how)
    ensures Forward(data) == Forwarded(Join(chunks) + how.written, |ChunkBytes(chunks)| + how.taken, how.end)
    decreases |data|
  {
    hide PutUint32, Uint32, EndsOn;
    match TurnOn(data)
    case Ends(f) =>
      chunks, rest, how := [], data, f;
      EndsSo(data);
    case Goes(c) =>
      var more, later := data[5 + |c|..], [];
      later, rest, how := ForwardExactly(more);
      chunks := [c] + later;
      TurnTakesFrame(data);
      assert data == Encode(Frame(0, c)) + more;
      OneChunkMore(c, later, rest, how.written);
  }

  lemma EndsSo(data: Bytes)
    requires TurnOn(data).Ends?
    ensures EndsOn(data, TurnOn(data).how)
  {
    if |data| >= 5 { SizeInHeader(data); }
  }

  lemma OneChunkMore(c: Bytes, later: seq<Bytes>, rest: Bytes, written: Bytes)
    ensures ChunkBytes([c] + later) == Encode(Frame(0, c)) + ChunkBytes(later)
    ensures Encode(Frame(0, c)) + (ChunkBytes(later) + rest) == ChunkBytes([c] + later) + rest
    ensures Join([c] + later) + written == c + (Join(later) + written)
  {
    assert ([c] + later)[1..] == later;
    Assoc(Encode(Frame(0, c)), ChunkBytes(later), rest);
    Assoc(c, Join(later), written);
  }

  /** Buffered input: the bytes that will arrive before the end of the connection. */
  class Reader {
    const data: Bytes
    var pos: nat

    constructor (data: Bytes)
      ensures this.data == data && pos == 0
    {
      this.data, pos := data, 0;
    }

    /** `io.ReadFull`: None when the input ends first; what is there is taken all the same. */
    method ReadFull(n: nat) returns (bytes: Option<Bytes>)
      requires pos <= |data|
      modifies this
      ensures pos == Min(old(pos) + n, |data|)
      ensures bytes == if old(pos) + n <= |data| then Some(data[old(pos)..old(pos) + n]) else None
    {
      if pos + n <= |data| {
        bytes := Some(data[pos..pos + n]);
        pos := pos + n;
      } else {
        bytes := None;
        pos := |data|;
      }
    }
  }

  /** Names for what one turn and all turns do, which the loop below need not look into. */
  ghost predicate Names(turn: Bytes -> Turn, forward: Bytes -> Forwarded) {
    && (forall data {:trigger TurnOn(data)} :: turn(data) == TurnOn(data))
    && (forall data {:trigger Forward(data)} :: forward(data) == Forward(data))
  }

  lemma NameTurns(data: Bytes) returns (turn: Bytes -> Turn, forward: Bytes -> Forwarded)
    ensures Names(turn, forward) && forward(data) == Forward(data)
  {
    turn, forward := d => TurnOn(d), d => Forward(d);
  }

  /** One turn: a chunk, or the end and what was forwarded before it came. */
  method TakeTurn(r: Reader, ghost turn: Bytes -> Turn, ghost forward: Bytes -> Forwarded)
    returns (chunk: Bytes, end: Option<StdinEnd>)
    requires Names(turn, forward) && r.pos <= |r.data|
    modifies r
    ensures old(r.pos) <= r.pos <= |r.data|
    ensures match turn(r.data[old(r.pos)..])
            case Goes(c) => chunk == c && end == None && r.pos == old(r.pos) + 5 + |c|
            case Ends(f) => chunk == f.written && end == Some(f.end) && r.pos == old(r.pos) + f.taken
  {
    ghost var data := r.data[r.pos..];
    assert turn(data) == TurnOn(data);
    var empty := r.pos == |r.data|;
    var header := r.ReadFull(5);
    if header.None? {
      return [], Some(if empty then Eof else UnexpectedEof);
    }
    var h := header.value;
    assert h == data[..5] && h[1..] == data[1..5];
    var size := Uint32(h[1..]);
    if h[0] != EXEC_STDIN || size > MAX_EXEC_FRAME {
      return [], Some(Invalid);
    }
    if size == 0 {
      return [], Some(Closed);
    }
    assert r.data[r.pos..] == data[5..];
    if r.pos + size > |r.data| {
      chunk := r.data[r.pos..];
      r.pos := |r.data|;
      return chunk, Some(Eof);
    }
    assert r.data[r.pos..r.pos + size] == data[5..5 + size];
    chunk := r.data[r.pos..r.pos + size];
    r.pos := r.pos + size;
    return chunk, None;
  }

  /** What was forwarded before `taken`, and what is to come, make up all of it. */
  ghost predicate SoFar(all: Forwarded, written: Bytes, taken: nat, rest: Forwarded) {
    all.written == written + rest.written && all.end == rest.end && all.taken == taken + rest.taken
  }

  lemma OneTurnFurther(turn: Bytes -> Turn, forward: Bytes -> Forwarded, data: Bytes, all: Forwarded, written: Bytes,
                       taken: nat)
    requires Names(turn, forward) && SoFar(all, written, taken, forward(data))
    ensures match turn(data)
            case Goes(chunk) =>
              5 + |chunk| <= |data| && SoFar(all, written + chunk, taken + 5 + |chunk|, forward(data[5 + |chunk|..]))
            case Ends(how) => all == Forwarded(written + how.written, taken + how.taken, how.end)
  {
    assert forward(data) == Forward(data) && turn(data) == TurnOn(data);
    if TurnOn(data).Goes? {
      var chunk := TurnOn(data).chunk;
      var rest := data[5 + |chunk|..];
      assert forward(rest) == Forward(rest);
      Assoc(written, chunk, Forward(rest).written);
    }
  }

  /** Forwards stdin frames until the empty frame that closes it; the process's stdin takes everything. */
  method CopyStdinFrames(r: Reader) returns (stdin: Bytes, end: StdinEnd)
    requires r.pos <= |r.data|
    modifies r
    ensures var f := Forward(r.data[old(r.pos)..]);
            stdin == f.written && end == f.end && r.pos == old(r.pos) + f.taken
  {
    stdin := [];
    ghost var start := r.pos;
    ghost var turn, forward := NameTurns(r.data[start..]);
    ghost var all := forward(r.data[start..]);
    while true
      invariant start <= r.pos <= |r.data|
      invariant SoFar(all, stdin, r.pos - start, forward(r.data[r.pos..]))
      decreases |r.data| - r.pos
    {
      ghost var data := r.data[r.pos..];
      OneTurnFurther(turn, forward, data, all, stdin, r.pos - start);
      var chunk, done := TakeTurn(r, turn, forward);
      stdin := stdin + chunk;
      if done.Some? {
        return stdin, done.value;
      }
      assert data[5 + |chunk|..] == r.data[r.pos..];
    }
  }
}
