/**
 The P2P stream codec: writeFrame and readFrame as mutual inverses on whole byte streams, and what a
 receiver decodes from a stream that was cut anywhere.
 */
module Frames {
  import opened Order

  const MAX_FRAME: nat := 64 * 1024 * 1024

  datatype Frame = Frame(msgType: Byte, topic: GoString, payload: Bytes)

  /** What io.ReadFull and readFrame report. */
  datatype ReadError = Eof | UnexpectedEof | TooSmall | TooLarge | InvalidTopicLength

  datatype ReadResult = Got(frame: Frame, rest: Bytes) | Failed(error: ReadError)

  datatype WriteError = Written | TopicTooLong | FrameTooLarge | SinkFailed

  // ---------------------------------------------------------------- big-endian integers

  function U16(n: nat): (b: Bytes)
    requires n < 0x1_0000
    ensures |b| == 2 && FromU16(b) == n
  {
    [(n / 0x100) as Byte, (n % 0x100) as Byte]
  }

  function FromU16(b: Bytes): (n: nat)
    requires |b| == 2
    ensures n < 0x1_0000
  {
    b[0] as nat * 0x100 + b[1] as nat
  }

  lemma U16Inverse(b: Bytes)
    requires |b| == 2
    ensures U16(FromU16(b)) == b
  {
    assert FromU16(b) / 0x100 == b[0] as nat && FromU16(b) % 0x100 == b[1] as nat;
  }

  function U32(n: nat): (b: Bytes)
    requires n < 0x1_0000_0000
    ensures |b| == 4 && FromU32(b) == n
  {
    U16(n / 0x1_0000) + U16(n % 0x1_0000)
  }

  function FromU32(b: Bytes): (n: nat)
    requires |b| == 4
    ensures n < 0x1_0000_0000
  {
    FromU16([b[0], b[1]]) * 0x1_0000 + FromU16([b[2], b[3]])
  }

  lemma U32Inverse(b: Bytes)
    requires |b| == 4
    ensures U32(FromU32(b)) == b
  {
    var hi, lo := FromU16([b[0], b[1]]), FromU16([b[2], b[3]]);
    assert FromU32(b) / 0x1_0000 == hi && FromU32(b) % 0x1_0000 == lo;
    U16Inverse([b[0], b[1]]);
    U16Inverse([b[2], b[3]]);
  }

  /** Network byte order: the first byte weighs most. */
  lemma ByteWeights(n: nat)
    requires n < 0x1_0000_0000
    ensures n < 0x1_0000 ==> n == U16(n)[0] as nat * 0x100 + U16(n)[1] as nat
    ensures var b := U32(n); n == b[0] as nat * 0x100_0000 + b[1] as nat * 0x1_0000 + b[2] as nat * 0x100 + b[3] as nat
  {
    var b := U32(n);
    assert FromU16([b[0], b[1]]) == b[0] as nat * 0x100 + b[1] as nat;
    assert FromU16([b[2], b[3]]) == b[2] as nat * 0x100 + b[3] as nat;
  }

  // ---------------------------------------------------------------- one frame

  function BodyLength(f: Frame): nat {
    1 + 2 + |f.topic| + |f.payload|
  }

  predicate Writable(f: Frame) {
    |f.topic| <= 0xFFFF && BodyLength(f) <= MAX_FRAME
  }

  /** The limits in numbers: a topic of 65535 bytes, and 64 MiB for all that the length counts. */
  lemma LimitsInBytes(f: Frame)
    ensures Writable(f) <==> |f.topic| <= 65535 && |f.topic| + |f.payload| <= 67108861
  {
  }

  function Header(f: Frame): Bytes
    requires Writable(f)
  {
    U32(BodyLength(f)) + [f.msgType] + U16(|f.topic|) + f.topic
  }

  function EncodeFrame(f: Frame): Bytes
    requires Writable(f)
  {
    Header(f) + f.payload
  }

  /** readFrame on the bytes still to come. */
  function DecodeFrame(bs: Bytes): ReadResult {
    if |bs| < 4 then Failed(if bs == [] then Eof else UnexpectedEof)
    else
      var n := FromU32(bs[..4]);
      if n < 3 then Failed(TooSmall)
      else if n > MAX_FRAME then Failed(TooLarge)
      else if |bs| < 4 + n then Failed(if |bs| == 4 then Eof else UnexpectedEof)
      else
        var buf := bs[4..4 + n];
        var tlen := FromU16(buf[1..3]);
        if 3 + tlen > n then Failed(InvalidTopicLength)
        else Got(Frame(buf[0], buf[3..3 + tlen], buf[3 + tlen..]), bs[4 + n..])
  }

  /**
   The layout on the wire, byte by byte: four bytes of length, which counts the type byte, the two bytes of topic
   length, the topic and the payload; then those, in this order.
   */
  lemma FrameLayout(f: Frame)
    requires Writable(f)
    ensures var bs, n, t := EncodeFrame(f), |f.topic| + |f.payload| + 3, |f.topic|;
            && |bs| == 4 + n
            && n == bs[0] as nat * 0x100_0000 + bs[1] as nat * 0x1_0000 + bs[2] as nat * 0x100 + bs[3] as nat
            && bs[4] == f.msgType && t == bs[5] as nat * 0x100 + bs[6] as nat
            && bs[7..7 + t] == f.topic && bs[7 + t..] == f.payload
  {
    ByteWeights(BodyLength(f));
    ByteWeights(|f.topic|);
    var size, len := U32(BodyLength(f)), U16(|f.topic|);
    assert EncodeFrame(f) == size + [f.msgType] + len + f.topic + f.payload;
  }

  /** Reading back a written frame gives the frame and leaves the rest of the stream. */
  lemma DecodeEncodeFrame(f: Frame, rest: Bytes)
    requires Writable(f)
    ensures DecodeFrame(EncodeFrame(f) + rest) == Got(f, rest)
  {
    var bs := EncodeFrame(f) + rest;
    var n := BodyLength(f);
    assert bs[..4] == U32(n);
    var buf := bs[4..4 + n];
    assert buf == [f.msgType] + U16(|f.topic|) + f.topic + f.payload;
    assert buf[1..3] == U16(|f.topic|);
    assert buf[3..3 + |f.topic|] == f.topic;
    assert buf[3 + |f.topic|..] == f.payload;
    assert bs[4 + n..] == rest;
  }

  /** Whatever parses is the encoding of what it parsed to. */
  lemma EncodeDecodeFrame(bs: Bytes)
    requires DecodeFrame(bs).Got?
    ensures var Got(f, rest) := DecodeFrame(bs); Writable(f) && bs == EncodeFrame(f) + rest
  {
    var Got(f, rest) := DecodeFrame(bs);
    var n := FromU32(bs[..4]);
    var buf := bs[4..4 + n];
    U32Inverse(bs[..4]);
    U16Inverse(buf[1..3]);
    assert BodyLength(f) == n;
    BodyParts(buf, |f.topic|);
    assert bs == bs[..4] + buf + rest;
  }

  lemma BodyParts(buf: Bytes, tlen: nat)
    requires 3 + tlen <= |buf|
    ensures buf == [buf[0]] + buf[1..3] + buf[3..3 + tlen] + buf[3 + tlen..]
  {
  }

  /** No proper prefix of a frame parses; it reads as the end of the stream. */
  lemma NoPrefixParses(f: Frame, p: Bytes)
    requires Writable(f) && p < EncodeFrame(f)
    ensures DecodeFrame(p) == Failed(if |p| == 0 || |p| == 4 then Eof else UnexpectedEof)
  {
    if |p| >= 4 {
      assert p[..4] == EncodeFrame(f)[..4] == U32(BodyLength(f));
    }
  }

  /**
   The reader stays silent on Eof as on a closed connection. That is the end of the stream or, as well, a
   stream cut right behind a legal length header.
   */
  lemma EofMeans(bs: Bytes)
    ensures DecodeFrame(bs) == Failed(Eof) <==> bs == [] || (|bs| == 4 && 3 <= FromU32(bs) <= MAX_FRAME)
  {
    if |bs| == 4 {
      assert bs[..4] == bs;
    }
  }

  // ---------------------------------------------------------------- streams

  ghost predicate AllWritable(fs: seq<Frame>) {
    forall i :: 0 <= i < |fs| ==> Writable(fs[i])
  }

  function EncodeAll(fs: seq<Frame>): Bytes
    requires AllWritable(fs)
  {
    if fs == [] then [] else EncodeFrame(fs[0]) + EncodeAll(fs[1..])
  }

  lemma DecodeShrinks(bs: Bytes)
    ensures DecodeFrame(bs).Got? ==> |DecodeFrame(bs).rest| < |bs|
  {
  }

  /** The frames the receive loop delivers before the error that ends it. */
  function Drain(bs: Bytes): (seq<Frame>, ReadError)
    decreases |bs|
  {
    DecodeShrinks(bs);
    match DecodeFrame(bs)
    case Failed(e) => ([], e)
    case Got(f, rest) => ([f] + Drain(rest).0, Drain(rest).1)
  }

  /** A stream is fully parsed when the bytes after its last frame are none. */
  function ParseAll(bs: Bytes): Option<seq<Frame>>
    decreases |bs|
  {
    DecodeShrinks(bs);
    if bs == [] then Some([])
    else
      match DecodeFrame(bs)
      case Failed(_) => None
      case Got(f, rest) =>
        match ParseAll(rest)
        case None => None
        case Some(fs) => Some([f] + fs)
  }

  /** One frame in front of a stream is one frame in front of what the stream parses to. */
  lemma ParseFrameFirst(f: Frame, rest: Bytes, bs: Bytes)
    requires Writable(f) && bs == EncodeFrame(f) + rest
    ensures Drain(bs) == ([f] + Drain(rest).0, Drain(rest).1)
    ensures ParseAll(rest).Some? ==> ParseAll(bs) == Some([f] + ParseAll(rest).value)
  {
    DecodeEncodeFrame(f, rest);
  }

  /** Frame streams decode uniquely. */
  lemma {:induction false} ParseEncodeAll(fs: seq<Frame>)
    requires AllWritable(fs)
    ensures ParseAll(EncodeAll(fs)) == Some(fs)
  {
    if fs != [] {
      ParseEncodeAll(fs[1..]);
      var f, rest := fs[0], fs[1..];
      assert fs == [f] + rest;
      ParseFrameFirst(f, EncodeAll(rest), EncodeAll(fs));
    }
  }

  /** And every fully parsed stream is the re-encoding of its frames. */
  lemma {:induction false} EncodeParseAll(bs: Bytes)
    requires ParseAll(bs).Some?
    ensures AllWritable(ParseAll(bs).value) && EncodeAll(ParseAll(bs).value) == bs
    decreases |bs|
  {
    if bs != [] {
      EncodeDecodeFrame(bs);
      var Got(f, rest) := DecodeFrame(bs);
      EncodeParseAll(rest);
      assert ParseAll(bs).value[1..] == ParseAll(rest).value;
    }
  }

  /** The bytes `p` hold the first `k` frames in full and less than one more. */
  ghost predicate Holds(fs: seq<Frame>, p: Bytes, k: nat)
    requires AllWritable(fs) && k <= |fs|
  {
    EncodeAll(fs[..k]) <= p && (k < |fs| ==> |p| < |EncodeAll(fs[..k])| + |EncodeFrame(fs[k])|)
  }

  lemma HoldsOneMore(f: Frame, fs: seq<Frame>, tail: Bytes, j: nat)
    requires Writable(f) && AllWritable(fs) && j <= |fs| && Holds(fs, tail, j)
    ensures Holds([f] + fs, EncodeFrame(f) + tail, j + 1)
  {
    var all := ([f] + fs)[..j + 1];
    assert all[0] == f && all[1..] == fs[..j];
    assert EncodeAll(all) == EncodeFrame(f) + EncodeAll(fs[..j]);
  }

  lemma TornFirst(fs: seq<Frame>, p: Bytes)
    requires AllWritable(fs) && p <= EncodeAll(fs)
    requires fs == [] || |p| < |EncodeFrame(fs[0])|
    ensures Drain(p).0 == [] && Drain(p).1 in {Eof, UnexpectedEof}
  {
    if fs != [] {
      assert EncodeAll(fs)[..|EncodeFrame(fs[0])|] == EncodeFrame(fs[0]);
      NoPrefixParses(fs[0], p);
    }
  }

  /**
   A torn stream: wherever a connection is cut, the receiver delivers exactly the frames that had arrived in full,
   in order, and then sees the end of the stream.
   */
  lemma {:induction false} TornStream(fs: seq<Frame>, p: Bytes) returns (k: nat)
    requires AllWritable(fs) && p <= EncodeAll(fs)
    ensures k <= |fs| && Holds(fs, p, k)
    ensures Drain(p).0 == fs[..k] && Drain(p).1 in {Eof, UnexpectedEof}
  {
    if fs == [] || |p| < |EncodeFrame(fs[0])| {
      k := 0;
      TornFirst(fs, p);
    } else {
      var f, rest := fs[0], fs[1..];
      var n := |EncodeFrame(f)|;
      var tail := p[n..];
      assert EncodeAll(fs)[..n] == EncodeFrame(f) && EncodeAll(fs)[n..] == EncodeAll(rest);
      assert p == EncodeFrame(f) + tail && fs == [f] + rest;
      var j := TornStream(rest, tail);
      ParseFrameFirst(f, tail, p);
      HoldsOneMore(f, rest, tail, j);
      k := j + 1;
      assert fs[..k] == [f] + rest[..j];
    }
  }

  // ---------------------------------------------------------------- the imperative codec

  /** A connection's write side: it takes bytes until it fails, possibly in the middle of a write. */
  class Sink {
    var out: Bytes
    var room: nat

    constructor (room: nat)
      ensures out == [] && this.room == room
    {
      out := [];
      this.room := room;
    }

    method Write(bs: Bytes) returns (ok: bool)
      modifies this
      ensures ok <==> |bs| <= old(room)
      ensures out == old(out) + bs[..if ok then |bs| else old(room)]
      ensures room == old(room) - (if ok then |bs| else old(room))
    {
      ok := |bs| <= room;
      var n := if ok then |bs| else room;
      out := out + bs[..n];
      room := room - n;
    }
  }

  /** A connection's read side. */
  class Source {
    var rest: Bytes

    constructor (bs: Bytes)
      ensures rest == bs
    {
      rest := bs;
    }

    /** io.ReadFull: fill the buffer or say how the stream ended. */
    method ReadFull(buf: array<Byte>) returns (err: Option<ReadError>)
      modifies this, buf
      ensures err ==
              (if |old(rest)| >= buf.Length then None else if old(rest) == [] then Some(Eof) else Some(UnexpectedEof))
      ensures err.None? ==> buf[..] == old(rest)[..buf.Length] && rest == old(rest)[buf.Length..]
    {
      var n := if |rest| < buf.Length then |rest| else buf.Length;
      for i := 0 to n
        modifies buf
        invariant forall j :: 0 <= j < i ==> buf[j] == rest[j]
        invariant rest == old(rest)
      {
        buf[i] := rest[i];
      }
      err := if n == buf.Length then None else if n == 0 then Some(Eof) else Some(UnexpectedEof);
      rest := rest[n..];
    }
  }

  /** The header of writeFrame, filled in place. */
  method FillHeader(f: Frame) returns (hdr: array<Byte>)
    requires Writable(f)
    ensures fresh(hdr) && hdr[..] == Header(f)
  {
    hdr := new Byte[7 + |f.topic|];
    var len, size := U16(|f.topic|), U32(BodyLength(f));
    hdr[0], hdr[1], hdr[2], hdr[3] := size[0], size[1], size[2], size[3];
    hdr[4] := f.msgType;
    hdr[5], hdr[6] := len[0], len[1];
    for i := 0 to |f.topic|
      invariant hdr[..7] == size + [f.msgType] + len
      invariant forall j :: 0 <= j < i ==> hdr[7 + j] == f.topic[j]
    {
      hdr[7 + i] := f.topic[i];
    }
    assert hdr[..] == hdr[..7] + f.topic;
  }

  /** writeFrame: all of the frame, nothing, or a proper prefix of it on a failing connection. */
  method WriteFrame(w: Sink, f: Frame) returns (err: WriteError)
    modifies w
    ensures err == TopicTooLong <==> |f.topic| > 0xFFFF
    ensures err == FrameTooLarge <==> |f.topic| <= 0xFFFF && BodyLength(f) > MAX_FRAME
    ensures !Writable(f) ==> w.out == old(w.out)
    ensures err == Written <==> Writable(f) && |EncodeFrame(f)| <= old(w.room)
    ensures err == Written ==> w.out == old(w.out) + EncodeFrame(f) && w.room == old(w.room) - |EncodeFrame(f)|
    ensures err == SinkFailed ==>
            Writable(f) && w.out == old(w.out) + EncodeFrame(f)[..old(w.room)] && old(w.room) < |EncodeFrame(f)|
  {
    if |f.topic| > 0xFFFF {
      return TopicTooLong;
    }
    if BodyLength(f) > MAX_FRAME {
      return FrameTooLarge;
    }
    ghost var room := w.room;
    var hdr := FillHeader(f);
    var ok := w.Write(hdr[..]);
    if !ok {
      assert EncodeFrame(f)[..room] == Header(f)[..room];
      return SinkFailed;
    }
    if |f.payload| > 0 {
      ok := w.Write(f.payload);
      if !ok {
        assert EncodeFrame(f)[..room] == Header(f) + f.payload[..room - |Header(f)|];
        return SinkFailed;
      }
    }
    assert f.payload == [] ==> EncodeFrame(f) == Header(f);
    return Written;
  }

  /** readFrame: agrees with DecodeFrame on every stream. */
  method ReadFrame(r: Source) returns (result: Option<Frame>, err: Option<ReadError>)
    modifies r
    ensures match DecodeFrame(old(r.rest))
            case Got(f, rest) => result == Some(f) && err == None && r.rest == rest
            case Failed(e) => result == None && err == Some(e)
  {
    var bs := r.rest;
    var hdr := new Byte[4];
    err := r.ReadFull(hdr);
    if err.Some? {
      return None, err;
    }
    var n := FromU32(hdr[..]);
    if n < 3 {
      return None, Some(TooSmall);
    }
    if n > MAX_FRAME {
      return None, Some(TooLarge);
    }
    var buf := new Byte[n];
    err := r.ReadFull(buf);
    if err.Some? {
      return None, err;
    }
    assert buf[..] == bs[4..4 + n];
    var tlen := FromU16(buf[1..3]);
    assert buf[1..3] == bs[4..4 + n][1..3];
    if 3 + tlen > n {
      return None, Some(InvalidTopicLength);
    }
    assert buf[3..3 + tlen] == bs[4..4 + n][3..3 + tlen] && buf[3 + tlen..] == bs[4..4 + n][3 + tlen..];
    return Some(Frame(buf[0], buf[3..3 + tlen], buf[3 + tlen..])), None;
  }

  /** The frames before the first one writeFrame refuses. */
  function Sendable(fs: seq<Frame>): (good: seq<Frame>)
    ensures good <= fs && AllWritable(good)
    ensures |good| < |fs| ==> !Writable(fs[|good|])
  {
    if fs == [] || !Writable(fs[0]) then []
    else
      var rest := Sendable(fs[1..]);
      assert forall i :: 0 <= i < |rest| ==> rest[i] == fs[i + 1];
      [fs[0]] + rest
  }

  /**
   senderLoop: frames go out in order until one is refused or the connection fails; what is on the wire is a torn
   stream of the frames before the first refused one, and all of them unless the connection gave out.
   */
  method SendAll(w: Sink, fs: seq<Frame>) returns (failed: bool)
    requires w.out == []
    modifies w
    ensures w.out <= EncodeAll(Sendable(fs))
    ensures w.out == EncodeAll(Sendable(fs)) || |EncodeAll(Sendable(fs))| > old(w.room)
    ensures !failed <==> Sendable(fs) == fs && |EncodeAll(fs)| <= old(w.room)
  {
    ghost var good := Sendable(fs);
    for i := 0 to |fs|
      invariant i <= |good| && w.out == EncodeAll(good[..i]) && w.room == old(w.room) - |w.out|
    {
      ghost var room := w.room;
      var err := WriteFrame(w, fs[i]);
      if !Writable(fs[i]) {
        assert i == |good| && good[..i] == good;
        return true;
      }
      assert i < |good| && fs[i] == good[i];
      EncodeAllSnoc(good, i);
      PrefixOnWire(good, i + 1);
      if err != Written {
        assert w.out <= EncodeAll(good[..i + 1]);
        return true;
      }
    }
    assert good == fs && good[..|fs|] == good;
    return false;
  }

  /** The next frame extends what is on the wire. */
  lemma EncodeAllSnoc(fs: seq<Frame>, i: nat)
    requires AllWritable(fs) && i < |fs|
    ensures EncodeAll(fs[..i + 1]) == EncodeAll(fs[..i]) + EncodeFrame(fs[i])
  {
    var init, f := fs[..i], fs[i];
    assert init + [f] == fs[..i + 1];
    assert AllWritable(init) && Writable(f);
    LastFrame(init, f);
  }

  lemma PrefixOnWire(fs: seq<Frame>, i: nat)
    requires AllWritable(fs) && i <= |fs|
    ensures EncodeAll(fs[..i]) <= EncodeAll(fs)
  {
    EncodeAllSplit(fs, i);
  }

  lemma {:induction false} LastFrame(fs: seq<Frame>, f: Frame)
    requires AllWritable(fs) && Writable(f)
    ensures AllWritable(fs + [f]) && EncodeAll(fs + [f]) == EncodeAll(fs) + EncodeFrame(f)
  {
    if fs == [] {
      OnlyFrame(fs + [f], f);
    } else {
      LastFrame(fs[1..], f);
      assert (fs + [f])[1..] == fs[1..] + [f];
      Regroup(EncodeFrame(fs[0]), EncodeAll(fs[1..]), EncodeFrame(f));
    }
  }

  lemma OnlyFrame(fs: seq<Frame>, f: Frame)
    requires fs == [f] && Writable(f)
    ensures EncodeAll(fs) == EncodeFrame(f)
  {
    assert fs[1..] == [];
  }

  lemma Regroup(x: Bytes, y: Bytes, z: Bytes)
    ensures x + (y + z) == (x + y) + z
  {
  }

  lemma {:induction false} EncodeAllSplit(fs: seq<Frame>, i: nat)
    requires AllWritable(fs) && i <= |fs|
    ensures EncodeAll(fs) == EncodeAll(fs[..i]) + EncodeAll(fs[i..])
  {
    if i > 0 {
      EncodeAllSplit(fs[1..], i - 1);
      assert fs[..i][1..] == fs[1..][..i - 1] && fs[1..][i - 1..] == fs[i..];
    } else {
      assert fs[i..] == fs;
    }
  }

  /** serveConn's receive loop delivers what Drain says, then stops at the first error. */
  method ReceiveAll(r: Source) returns (delivered: seq<Frame>, err: ReadError)
    modifies r
    ensures (delivered, err) == Drain(old(r.rest))
  {
    delivered := [];
    ghost var start := r.rest;
    assert delivered + Drain(start).0 == Drain(start).0;
    while true
      invariant Drain(start) == (delivered + Drain(r.rest).0, Drain(r.rest).1)
      decreases |r.rest|
    {
      DecodeShrinks(r.rest);
      ghost var before := r.rest;
      var f, e := ReadFrame(r);
      if e.Some? {
        assert delivered + Drain(before).0 == delivered;
        return delivered, e.value;
      }
      assert delivered + ([f.value] + Drain(r.rest).0) == (delivered + [f.value]) + Drain(r.rest).0;
      delivered := delivered + [f.value];
    }
  }
}
