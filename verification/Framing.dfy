/** Length-prefixed frames and their incremental decoder (src/interceptor/egress/framing.py, src/core/server/framer.py). */
module Framing {
  import opened Collections

  type byte = b: int | 0 <= b < 0x100
  type Bytes = seq<byte>

  const HEADER_SIZE := 4
  const MAX_PAYLOAD_SIZE := 0xFFFF_FFFF

  // ---------- the big-endian header ----------

  /** Number of values of k bytes. */
  function Range(k: nat): nat {
    if k == 0 then 1 else 0x100 * Range(k - 1)
  }

  /** n in k bytes, most significant first. */
  function PackBytes(n: nat, k: nat): (h: Bytes)
    ensures |h| == k
  {
    if k == 0 then [] else PackBytes(n / 0x100, k - 1) + [n % 0x100]
  }

  /** The number in the first k bytes, most significant first. */
  function UnpackBytes(h: Bytes, k: nat): nat
    requires k <= |h|
  {
    if k == 0 then 0 else 0x100 * UnpackBytes(h, k - 1) + h[k - 1] as int
  }

  lemma {:induction false} UnpackPackBytes(n: nat, k: nat, rest: Bytes)
    requires n < Range(k)
    ensures UnpackBytes(PackBytes(n, k) + rest, k) == n
  {
    if k > 0 {
      var low: byte := n % 0x100;
      UnpackPackBytes(n / 0x100, k - 1, [low] + rest);
      assert PackBytes(n, k) + rest == PackBytes(n / 0x100, k - 1) + ([low] + rest);
    }
  }

  lemma {:induction false} PackUnpackBytes(h: Bytes, k: nat)
    requires k <= |h|
    ensures UnpackBytes(h, k) < Range(k) && PackBytes(UnpackBytes(h, k), k) == h[..k]
  {
    if k > 0 {
      PackUnpackBytes(h, k - 1);
      var n, high := UnpackBytes(h, k), UnpackBytes(h, k - 1);
      assert n / 0x100 == high && n % 0x100 == h[k - 1];
      assert h[..k] == h[..k - 1] + [h[k - 1]];
    }
  }

  lemma {:induction false} UnpackPrefix(a: Bytes, b: Bytes, k: nat)
    requires k <= |a|
    ensures UnpackBytes(a + b, k) == UnpackBytes(a, k)
  {
    if k > 0 {
      UnpackPrefix(a, b, k - 1);
    }
  }

  /** struct.pack(">I", n) */
  function PackUint32(n: nat): (h: Bytes)
    ensures |h| == HEADER_SIZE
  {
    PackBytes(n, HEADER_SIZE)
  }

  /** struct.unpack(">I", h) on the first four bytes */
  function UnpackUint32(h: Bytes): nat
    requires |h| >= HEADER_SIZE
  {
    UnpackBytes(h, HEADER_SIZE)
  }

  lemma FourByteRange()
    ensures Range(HEADER_SIZE) == MAX_PAYLOAD_SIZE + 1
  {
    assert Range(3) == 0x100 * Range(2) && Range(2) == 0x100 * Range(1) && Range(1) == 0x100 * Range(0);
  }

  /** Unpacking inverts packing on every length that fits the header. */
  lemma UnpackPack(n: nat, rest: Bytes)
    requires n <= MAX_PAYLOAD_SIZE
    ensures UnpackUint32(PackUint32(n) + rest) == n
  {
    FourByteRange();
    UnpackPackBytes(n, HEADER_SIZE, rest);
  }

  /** Packing inverts unpacking on every header. */
  lemma PackUnpack(h: Bytes)
    requires |h| == HEADER_SIZE
    ensures UnpackUint32(h) <= MAX_PAYLOAD_SIZE && PackUint32(UnpackUint32(h)) == h
  {
    FourByteRange();
    PackUnpackBytes(h, HEADER_SIZE);
    assert h[..HEADER_SIZE] == h;
  }

  /** The most significant byte comes first. */
  lemma HeaderIsBigEndian(h: Bytes)
    requires |h| >= HEADER_SIZE
    ensures UnpackUint32(h) == 0x100_0000 * h[0] as int + 0x1_0000 * h[1] as int + 0x100 * h[2] as int + h[3] as int
  {
    assert UnpackBytes(h, 1) == 0x100 * UnpackBytes(h, 0) + h[0] as int;
    assert UnpackBytes(h, 2) == 0x100 * UnpackBytes(h, 1) + h[1] as int;
    assert UnpackBytes(h, 3) == 0x100 * UnpackBytes(h, 2) + h[2] as int;
  }

  datatype Encoded = Wrapped(bytes: Bytes) | TooLong

  /** encode_frame; a payload that does not fit the header raises ValueError. */
  function EncodeFrame(payload: Bytes): Encoded {
    if |payload| > MAX_PAYLOAD_SIZE then TooLong else Wrapped(PackUint32(|payload|) + payload)
  }

  datatype HeaderLength = Length(n: nat) | BadHeader

  /** decode_frame_header; a header that is not four bytes raises ValueError. */
  function DecodeFrameHeader(header: Bytes): HeaderLength {
    if |header| != HEADER_SIZE then BadHeader else Length(UnpackUint32(header))
  }

  lemma HeaderOfFrame(payload: Bytes)
    requires |payload| <= MAX_PAYLOAD_SIZE
    ensures DecodeFrameHeader(EncodeFrame(payload).bytes[..HEADER_SIZE]) == Length(|payload|)
    ensures EncodeFrame(payload).bytes[HEADER_SIZE..] == payload
  {
    UnpackPack(|payload|, []);
    assert EncodeFrame(payload).bytes[..HEADER_SIZE] == PackUint32(|payload|) + [];
  }

  // ---------- the decoder on values ----------

  // What lies at the head of the buffer: a whole frame, not enough bytes, or a forbidden length.
  datatype Head = Whole(total: nat) | Partial | Oversized

  function HeadOf(maxSize: nat, buf: Bytes): (r: Head)
    ensures r.Whole? ==> HEADER_SIZE <= r.total <= |buf|
  {
    if |buf| < HEADER_SIZE then Partial
    else
      var n := UnpackUint32(buf);
      if n > maxSize then Oversized
      else if |buf| < HEADER_SIZE + n then Partial
      else Whole(HEADER_SIZE + n)
  }

  datatype Decoded = Decoded(frames: seq<Bytes>, rest: Bytes)

  /** The frames at the head of a byte string, and the bytes from the first one that is not whole. */
  function Decode(maxSize: nat, buf: Bytes): (r: Decoded)
    ensures !HeadOf(maxSize, r.rest).Whole?
    decreases |buf|
  {
    match HeadOf(maxSize, buf)
    case Whole(total) =>
      var tail := Decode(maxSize, buf[total..]);
      Decoded([buf[HEADER_SIZE..total]] + tail.frames, tail.rest)
    case _ => Decoded([], buf)
  }

  /** feed raises when it meets a forbidden length, and then drops the frames it had extracted. */
  predicate Raises(maxSize: nat, buf: Bytes) {
    HeadOf(maxSize, Decode(maxSize, buf).rest).Oversized?
  }

  // ---------- chunk invariance ----------

  lemma HeadStays(maxSize: nat, a: Bytes, b: Bytes)
    requires !HeadOf(maxSize, a).Partial?
    ensures HeadOf(maxSize, a + b) == HeadOf(maxSize, a)
  {
    UnpackPrefix(a, b, HEADER_SIZE);
  }

  lemma DecodeWhole(maxSize: nat, buf: Bytes, total: nat)
    requires HeadOf(maxSize, buf) == Whole(total)
    ensures var tail := Decode(maxSize, buf[total..]);
            Decode(maxSize, buf) == Decoded([buf[HEADER_SIZE..total]] + tail.frames, tail.rest)
  {
  }

  lemma DecodeStep(maxSize: nat, a: Bytes, b: Bytes, total: nat)
    requires HeadOf(maxSize, a) == Whole(total)
    ensures var tail := Decode(maxSize, a[total..] + b);
            Decode(maxSize, a + b) == Decoded([a[HEADER_SIZE..total]] + tail.frames, tail.rest)
  {
    HeadStays(maxSize, a, b);
    DecodeWhole(maxSize, a + b, total);
    assert (a + b)[total..] == a[total..] + b;
    assert (a + b)[HEADER_SIZE..total] == a[HEADER_SIZE..total];
  }

  /** Decoding can stop anywhere and go on from the bytes left over. */
  lemma {:induction false} DecodeAppend(maxSize: nat, a: Bytes, b: Bytes)
    requires !Raises(maxSize, a)
    ensures var x := Decode(maxSize, a);
            var y := Decode(maxSize, x.rest + b);
            Decode(maxSize, a + b) == Decoded(x.frames + y.frames, y.rest)
    decreases |a|
  {
    hide HeadOf;
    match HeadOf(maxSize, a) {
      case Whole(total) =>
        DecodeWhole(maxSize, a, total);
        DecodeStep(maxSize, a, b, total);
        DecodeAppend(maxSize, a[total..], b);
      case _ =>
    }
  }

  /** Once a stream holds a forbidden length, more bytes neither add frames nor remove the fault. */
  lemma {:induction false} RaisesForGood(maxSize: nat, a: Bytes, b: Bytes)
    requires Raises(maxSize, a)
    ensures Raises(maxSize, a + b) && Decode(maxSize, a + b).frames == Decode(maxSize, a).frames
    decreases |a|
  {
    match HeadOf(maxSize, a) {
      case Whole(total) =>
        DecodeWhole(maxSize, a, total);
        DecodeStep(maxSize, a, b, total);
        RaisesForGood(maxSize, a[total..], b);
      case _ =>
        HeadStays(maxSize, a, b);
    }
  }

  // ---------- the round trip ----------

  predicate AllFit(maxSize: nat, payloads: seq<Bytes>) {
    forall i :: 0 <= i < |payloads| ==> |payloads[i]| <= maxSize && |payloads[i]| <= MAX_PAYLOAD_SIZE
  }

  /** The frames of the payloads, one after the other. */
  function EncodeAll(payloads: seq<Bytes>): Bytes
    requires AllFit(MAX_PAYLOAD_SIZE, payloads)
  {
    if payloads == [] then [] else EncodeAll(payloads[..|payloads| - 1]) + EncodeFrame(payloads[|payloads| - 1]).bytes
  }

  /** A proper prefix of a fitting frame is an incomplete tail. */
  lemma PrefixIsPartial(maxSize: nat, payload: Bytes, k: nat)
    requires |payload| <= maxSize && |payload| <= MAX_PAYLOAD_SIZE
    requires k < |EncodeFrame(payload).bytes|
    ensures HeadOf(maxSize, EncodeFrame(payload).bytes[..k]).Partial?
  {
    if k >= HEADER_SIZE {
      UnpackPack(|payload|, payload[..k - HEADER_SIZE]);
      assert EncodeFrame(payload).bytes[..k] == PackUint32(|payload|) + payload[..k - HEADER_SIZE];
    }
  }

  lemma DecodeOneFrame(maxSize: nat, payload: Bytes)
    requires |payload| <= maxSize && |payload| <= MAX_PAYLOAD_SIZE
    ensures Decode(maxSize, EncodeFrame(payload).bytes) == Decoded([payload], [])
  {
    var frame := EncodeFrame(payload).bytes;
    UnpackPack(|payload|, payload);
    DecodeWhole(maxSize, frame, |frame|);
    assert frame[HEADER_SIZE..|frame|] == payload && frame[|frame|..] == [];
    assert Decode(maxSize, []) == Decoded([], []);
  }

  /** A whole frame in front of anything decodes to its payload first. */
  lemma FrameFirst(maxSize: nat, payload: Bytes, tail: Bytes)
    requires |payload| <= maxSize && |payload| <= MAX_PAYLOAD_SIZE
    ensures var d := Decode(maxSize, tail);
            Decode(maxSize, EncodeFrame(payload).bytes + tail) == Decoded([payload] + d.frames, d.rest)
  {
    var frame := EncodeFrame(payload).bytes;
    DecodeOneFrame(maxSize, payload);
    assert HeadOf(maxSize, []).Partial?;
    DecodeAppend(maxSize, frame, tail);
    assert [] + tail == tail;
  }

  /** Whole frames followed by an incomplete tail decode to exactly the payloads and that tail. */
  lemma {:induction false} DecodeFrames(maxSize: nat, payloads: seq<Bytes>, tail: Bytes)
    requires AllFit(maxSize, payloads)
    ensures var d := Decode(maxSize, tail);
            Decode(maxSize, EncodeAll(payloads) + tail) == Decoded(payloads + d.frames, d.rest)
  {
    hide Decode, HeadOf, PackBytes;
    var d := Decode(maxSize, tail);
    if payloads == [] {
      assert [] + tail == tail && payloads + d.frames == d.frames;
    } else {
      var init, last := payloads[..|payloads| - 1], payloads[|payloads| - 1];
      var frame := EncodeFrame(last).bytes;
      assert init + [last] == payloads;
      EncodeAllSnoc(init, last, tail);
      DecodeFrames(maxSize, init, frame + tail);
      FrameFirst(maxSize, last, tail);
      assert init + ([last] + d.frames) == payloads + d.frames;
    }
  }

  lemma EncodeAllSnoc(init: seq<Bytes>, last: Bytes, tail: Bytes)
    requires AllFit(MAX_PAYLOAD_SIZE, init) && |last| <= MAX_PAYLOAD_SIZE
    ensures EncodeAll(init + [last]) + tail == EncodeAll(init) + (EncodeFrame(last).bytes + tail)
  {
    assert (init + [last])[..|init|] == init;
  }

  lemma DecodeFramesAndTail(maxSize: nat, payloads: seq<Bytes>, tail: Bytes)
    requires AllFit(maxSize, payloads) && HeadOf(maxSize, tail).Partial?
    ensures Decode(maxSize, EncodeAll(payloads) + tail) == Decoded(payloads, tail)
    ensures !Raises(maxSize, EncodeAll(payloads) + tail)
  {
    DecodeFrames(maxSize, payloads, tail);
    assert payloads + [] == payloads;
  }

  // ---------- feeding chunks ----------

  datatype Feed = Frames(frames: seq<Bytes>) | Refused

  /** One call of feed: what it returns and what it leaves in the buffer. */
  function FeedResult(maxSize: nat, buf: Bytes, chunk: Bytes): Feed {
    if Raises(maxSize, buf + chunk) then Refused else Frames(Decode(maxSize, buf + chunk).frames)
  }

  function FeedRest(maxSize: nat, buf: Bytes, chunk: Bytes): Bytes {
    Decode(maxSize, buf + chunk).rest
  }

  /** What the loop of feed sees at the head of its buffer. */
  lemma DecodeUnfold(maxSize: nat, buf: Bytes)
    ensures HeadOf(maxSize, buf)
         == if |buf| < HEADER_SIZE then Partial
            else if UnpackUint32(buf) > maxSize then Oversized
            else if |buf| < HEADER_SIZE + UnpackUint32(buf) then Partial
            else Whole(HEADER_SIZE + UnpackUint32(buf))
    ensures !HeadOf(maxSize, buf).Whole? ==> Decode(maxSize, buf) == Decoded([], buf)
    ensures HeadOf(maxSize, buf).Whole? ==>
              var total := HeadOf(maxSize, buf).total;
              var tail := Decode(maxSize, buf[total..]);
              Decode(maxSize, buf) == Decoded([buf[HEADER_SIZE..total]] + tail.frames, tail.rest)
  {
  }

  /** A feed goes on from the decoding of the bytes before it. */
  lemma FeedContinues(maxSize: nat, before: Bytes, chunk: Bytes)
    requires !Raises(maxSize, before) && !Raises(maxSize, before + chunk)
    ensures var x, y := Decode(maxSize, before), Decode(maxSize, before + chunk);
            var r := FeedResult(maxSize, x.rest, chunk);
            r.Frames? && y == Decoded(x.frames + r.frames, FeedRest(maxSize, x.rest, chunk))
  {
    DecodeAppend(maxSize, before, chunk);
  }

  datatype Served = Served(dispatched: seq<Bytes>, buffer: Bytes, failed: bool)

  /** What a connection's handler has dispatched after reading the chunks: it stops at the first failure. */
  function Serve(maxSize: nat, chunks: seq<Bytes>): Served {
    if chunks == [] then Served([], [], false)
    else
      var before, chunk := Serve(maxSize, chunks[..|chunks| - 1]), chunks[|chunks| - 1];
      if before.failed then before
      else
        match FeedResult(maxSize, before.buffer, chunk)
        case Refused => Served(before.dispatched, FeedRest(maxSize, before.buffer, chunk), true)
        case Frames(frames) => Served(before.dispatched + frames, FeedRest(maxSize, before.buffer, chunk), false)
  }

  /**
   * Reading a stream in any chunks dispatches the frames of the whole stream, in order, and keeps
   * the incomplete tail; if the stream holds a forbidden length, a prefix of the frames before it.
   */
  lemma {:induction false} ServeIsDecode(maxSize: nat, chunks: seq<Bytes>)
    ensures var s, d := Serve(maxSize, chunks), Decode(maxSize, Flatten(chunks));
            && (s.failed <==> Raises(maxSize, Flatten(chunks)))
            && (!s.failed ==> s.dispatched == d.frames && s.buffer == d.rest)
            && s.dispatched <= d.frames
  {
    if chunks != [] {
      var init, chunk := chunks[..|chunks| - 1], chunks[|chunks| - 1];
      ServeIsDecode(maxSize, init);
      assert chunks == init + [chunk];
      FlattenSnoc(init, chunk);
      if Raises(maxSize, Flatten(init)) {
        RaisesForGood(maxSize, Flatten(init), chunk);
      } else {
        DecodeAppend(maxSize, Flatten(init), chunk);
      }
    }
  }

  /** Framing round trip: any chunking of the frames of fitting payloads gives back the payloads and ends empty. */
  lemma RoundTrip(maxSize: nat, payloads: seq<Bytes>, chunks: seq<Bytes>)
    requires AllFit(maxSize, payloads) && Flatten(chunks) == EncodeAll(payloads)
    ensures Serve(maxSize, chunks) == Served(payloads, [], false)
  {
    ServeIsDecode(maxSize, chunks);
    DecodeFramesAndTail(maxSize, payloads, []);
    assert EncodeAll(payloads) + [] == EncodeAll(payloads);
  }

  /** After any prefix of the stream the buffer is exactly the incomplete tail. */
  lemma RoundTripPrefix(maxSize: nat, payloads: seq<Bytes>, next: Bytes, k: nat, chunks: seq<Bytes>)
    requires AllFit(maxSize, payloads) && |next| <= maxSize && |next| <= MAX_PAYLOAD_SIZE
    requires k < |EncodeFrame(next).bytes|
    requires Flatten(chunks) == EncodeAll(payloads) + EncodeFrame(next).bytes[..k]
    ensures Serve(maxSize, chunks) == Served(payloads, EncodeFrame(next).bytes[..k], false)
  {
    ServeIsDecode(maxSize, chunks);
    PrefixIsPartial(maxSize, next, k);
    DecodeFramesAndTail(maxSize, payloads, EncodeFrame(next).bytes[..k]);
  }

  /**
   * How a stream is read matters exactly when it holds a forbidden length after some whole frame: in all
   * other streams every reading dispatches all frames before the fault, if there is one.
   */
  lemma ChunkingMattersIff(maxSize: nat, s: Bytes)
    ensures (forall chunks: seq<Bytes> :: Flatten(chunks) == s ==> Serve(maxSize, chunks).dispatched == Decode(maxSize, s).frames)
       <==> !Raises(maxSize, s) || Decode(maxSize, s).frames == []
  {
    if Raises(maxSize, s) && Decode(maxSize, s).frames != [] {
      assert Flatten([s]) == s + Flatten([]) == s;
      assert [] + s == s;
      ServeOne(maxSize, s);
      assert Serve(maxSize, [s]).dispatched == [];
    } else {
      forall chunks: seq<Bytes> | Flatten(chunks) == s ensures Serve(maxSize, chunks).dispatched == Decode(maxSize, s).frames {
        ServeIsDecode(maxSize, chunks);
      }
    }
  }

  lemma EncodeAllLast(init: seq<Bytes>, last: Bytes)
    requires AllFit(MAX_PAYLOAD_SIZE, init) && |last| <= MAX_PAYLOAD_SIZE
    ensures EncodeAll(init + [last]) == EncodeAll(init) + EncodeFrame(last).bytes
  {
    assert (init + [last])[..|init|] == init;
  }

  lemma EncodeAllOne(p: Bytes)
    requires |p| <= MAX_PAYLOAD_SIZE
    ensures EncodeAll([]) == [] && EncodeAll([p]) == EncodeFrame(p).bytes
  {
    assert [p][..0] == [];
    assert [] + EncodeFrame(p).bytes == EncodeFrame(p).bytes;
  }

  lemma Rebracket<T>(a: seq<T>, b: seq<T>, c: seq<T>)
    ensures a + b + c == a + (b + c)
  {
  }

  lemma {:induction false} EncodeAllCons(first: Bytes, payloads: seq<Bytes>)
    requires |first| <= MAX_PAYLOAD_SIZE && AllFit(MAX_PAYLOAD_SIZE, payloads)
    ensures EncodeAll([first] + payloads) == EncodeFrame(first).bytes + EncodeAll(payloads)
  {
    hide EncodeFrame, EncodeAll;
    FitsIsWrapped(first);
    EncodeAllOne(first);
    if payloads == [] {
      assert [first] + payloads == [first];
      Rebracket(EncodeFrame(first).bytes, [], []);
    } else {
      var init, last := payloads[..|payloads| - 1], payloads[|payloads| - 1];
      FitsIsWrapped(last);
      EncodeAllCons(first, init);
      EncodeAllLast(init, last);
      EncodeAllLast([first] + init, last);
      assert payloads == init + [last] && [first] + payloads == [first] + init + [last];
      Rebracket(EncodeFrame(first).bytes, EncodeAll(init), EncodeFrame(last).bytes);
    }
  }

  lemma FitsIsWrapped(p: Bytes)
    requires |p| <= MAX_PAYLOAD_SIZE
    ensures EncodeFrame(p).Wrapped?
  {
  }

  /** A whole frame at the head of a stream is the encoding of its payload. */
  lemma HeadIsFrame(maxSize: nat, s: Bytes, total: nat)
    requires HeadOf(maxSize, s) == Whole(total)
    ensures |s[HEADER_SIZE..total]| <= MAX_PAYLOAD_SIZE && |s[HEADER_SIZE..total]| <= maxSize
    ensures s[..total] == EncodeFrame(s[HEADER_SIZE..total]).bytes
  {
    var header := s[..HEADER_SIZE];
    assert s == header + s[HEADER_SIZE..];
    UnpackPrefix(header, s[HEADER_SIZE..], HEADER_SIZE);
    PackUnpack(header);
    assert s[..total] == header + s[HEADER_SIZE..total];
  }

  lemma JoinFrame(maxSize: nat, s: Bytes, total: nat, tail: Decoded)
    requires HeadOf(maxSize, s) == Whole(total)
    requires AllFit(maxSize, tail.frames) && AllFit(MAX_PAYLOAD_SIZE, tail.frames)
    requires s[total..] == EncodeAll(tail.frames) + tail.rest
    ensures var frames := [s[HEADER_SIZE..total]] + tail.frames;
            AllFit(maxSize, frames) && AllFit(MAX_PAYLOAD_SIZE, frames) && s == EncodeAll(frames) + tail.rest
  {
    hide EncodeAll;
    HeadIsFrame(maxSize, s, total);
    EncodeAllCons(s[HEADER_SIZE..total], tail.frames);
    assert s == s[..total] + s[total..];
    assert s[..total] + (EncodeAll(tail.frames) + tail.rest) == s[..total] + EncodeAll(tail.frames) + tail.rest;
  }

  /** Decoding loses nothing: any stream is the encoding of its frames followed by the rest. */
  lemma {:induction false} DecodeIsEncode(maxSize: nat, s: Bytes)
    ensures var d := Decode(maxSize, s);
            AllFit(maxSize, d.frames) && AllFit(MAX_PAYLOAD_SIZE, d.frames) && s == EncodeAll(d.frames) + d.rest
    decreases |s|
  {
    match HeadOf(maxSize, s) {
      case Whole(total) =>
        DecodeIsEncode(maxSize, s[total..]);
        JoinFrame(maxSize, s, total, Decode(maxSize, s[total..]));
      case _ =>
        assert [] + s == s;
    }
  }

  /** Reading the whole frames first and the rest after them always dispatches all of them. */
  lemma TwoReadsSuffice(maxSize: nat, s: Bytes)
    ensures var d := Decode(maxSize, s);
            && AllFit(MAX_PAYLOAD_SIZE, d.frames) && Flatten([EncodeAll(d.frames), d.rest]) == s
            && Serve(maxSize, [EncodeAll(d.frames), d.rest]).dispatched == d.frames
  {
    DecodeIsEncode(maxSize, s);
    var d := Decode(maxSize, s);
    DecodeFramesAndTail(maxSize, d.frames, []);
    assert EncodeAll(d.frames) + [] == EncodeAll(d.frames);
    FlattenTwo(EncodeAll(d.frames), d.rest);
    NothingToDecode(maxSize, d.rest);
    ServeTwo(maxSize, EncodeAll(d.frames), d.rest, d.frames);
  }

  lemma FlattenTwo(a: Bytes, b: Bytes)
    ensures Flatten([a, b]) == a + b
  {
    assert Flatten([a, b]) == a + Flatten([b]) && Flatten([b]) == b + Flatten([]);
  }

  lemma ServeTwo(maxSize: nat, whole: Bytes, rest: Bytes, frames: seq<Bytes>)
    requires Decode(maxSize, whole) == Decoded(frames, []) && !Raises(maxSize, whole)
    requires Decode(maxSize, rest) == Decoded([], rest)
    ensures Serve(maxSize, [whole, rest]) == Served(frames, rest, Raises(maxSize, rest))
  {
    assert [] + whole == whole && [] + rest == rest && [whole] + [rest] == [whole, rest];
    ServeOne(maxSize, whole);
    ServeNext(maxSize, [whole], rest);
    assert frames + [] == frames;
  }

  lemma NothingToDecode(maxSize: nat, rest: Bytes)
    requires !HeadOf(maxSize, rest).Whole?
    ensures Decode(maxSize, rest) == Decoded([], rest)
  {
  }

  lemma ServeNext(maxSize: nat, chunks: seq<Bytes>, chunk: Bytes)
    ensures var before := Serve(maxSize, chunks);
            Serve(maxSize, chunks + [chunk])
            == if before.failed then before
               else match FeedResult(maxSize, before.buffer, chunk)
                    case Refused => Served(before.dispatched, FeedRest(maxSize, before.buffer, chunk), true)
                    case Frames(frames) =>
                      Served(before.dispatched + frames, FeedRest(maxSize, before.buffer, chunk), false)
  {
    assert (chunks + [chunk])[..|chunks|] == chunks;
  }

  /** With a forbidden length in the stream chunking does matter: one read loses a frame that two reads deliver. */
  lemma OversizedLosesFrames()
    ensures var good, bad := EncodeFrame([7]).bytes, EncodeFrame([1, 2, 3]).bytes;
            && Serve(2, [good + bad]).dispatched == []
            && Serve(2, [good, bad]).dispatched == [[7]]
            && Serve(2, [good + bad]).failed && Serve(2, [good, bad]).failed
  {
    var good, bad := EncodeFrame([7]).bytes, EncodeFrame([1, 2, 3]).bytes;
    UnpackPack(3, [1, 2, 3]);
    NothingToDecode(2, bad);
    DecodeOneFrame(2, [7]);
    FrameFirst(2, [7], bad);
    assert [7] + [] == [7] && [] + (good + bad) == good + bad;
    ServeOne(2, good + bad);
    ServeTwo(2, good, bad, [[7]]);
  }

  lemma ServeOne(maxSize: nat, chunk: Bytes)
    ensures Serve(maxSize, [chunk]) == match FeedResult(maxSize, [], chunk)
                                       case Refused => Served([], FeedRest(maxSize, [], chunk), true)
                                       case Frames(frames) => Served(frames, FeedRest(maxSize, [], chunk), false)
  {
    ServeNext(maxSize, [], chunk);
    assert [] + [chunk] == [chunk];
  }

  // ---------- the decoder and the connection handler as objects ----------

  class FrameDecoder {
    const maxFrameSize: nat
    var buffer: Bytes

    constructor (maxFrameSize: nat)
      ensures this.maxFrameSize == maxFrameSize && buffer == []
    {
      this.maxFrameSize := maxFrameSize;
      buffer := [];
    }

    method Feed(chunk: Bytes) returns (r: Feed)
      modifies this
      ensures r == FeedResult(maxFrameSize, old(buffer), chunk)
      ensures buffer == FeedRest(maxFrameSize, old(buffer), chunk)
    {
      hide Decode, HeadOf, UnpackUint32;
      buffer := buffer + chunk;
      var frames: seq<Bytes> := [];
      ghost var whole := Decode(maxFrameSize, buffer);
      while true
        invariant whole.frames == frames + Decode(maxFrameSize, buffer).frames
        invariant whole.rest == Decode(maxFrameSize, buffer).rest
        decreases |buffer|
      {
        DecodeUnfold(maxFrameSize, buffer);
        if |buffer| < HEADER_SIZE {
          break;
        }
        var payloadLen := UnpackUint32(buffer);
        if payloadLen > maxFrameSize {
          return Refused;
        }
        var totalLen := HEADER_SIZE + payloadLen;
        if |buffer| < totalLen {
          break;
        }
        Rebracket(frames, [buffer[HEADER_SIZE..totalLen]], Decode(maxFrameSize, buffer[totalLen..]).frames);
        frames := frames + [buffer[HEADER_SIZE..totalLen]];
        buffer := buffer[totalLen..];
      }
      return Frames(frames);
    }
  }

  /** _handle_client: one fresh decoder, reading until the peer closes or a frame is refused. */
  method HandleClient(maxFrameSize: nat, chunks: seq<Bytes>) returns (dispatched: seq<Bytes>, failed: bool)
    requires forall i :: 0 <= i < |chunks| ==> chunks[i] != []
    ensures dispatched == Serve(maxFrameSize, chunks).dispatched && failed == Serve(maxFrameSize, chunks).failed
  {
    var decoder := new FrameDecoder(maxFrameSize);
    dispatched, failed := [], false;
    for i := 0 to |chunks|
      invariant !failed && decoder.maxFrameSize == maxFrameSize
      invariant Serve(maxFrameSize, chunks[..i]) == Served(dispatched, decoder.buffer, false)
    {
      assert chunks[..i + 1][..i] == chunks[..i];
      var r := decoder.Feed(chunks[i]);
      if r.Refused? {
        failed := true;
        FailureIsFinal(maxFrameSize, chunks, i + 1);
        return;
      }
      dispatched := dispatched + r.frames;
    }
    assert chunks[..|chunks|] == chunks;
  }

  lemma {:induction false} FailureIsFinal(maxSize: nat, chunks: seq<Bytes>, i: nat)
    requires i <= |chunks| && Serve(maxSize, chunks[..i]).failed
    ensures Serve(maxSize, chunks) == Serve(maxSize, chunks[..i])
  {
    if i == |chunks| {
      assert chunks[..i] == chunks;
    } else {
      assert chunks[..|chunks| - 1][..i] == chunks[..i];
      FailureIsFinal(maxSize, chunks[..|chunks| - 1], i);
    }
  }
}
