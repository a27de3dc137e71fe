/**
 The wire format of the IPC socket: a 32-bit big-endian length, then that many
 bytes. The decoder of a whole stream, and what it does with partial streams.
 */
module Framing {
  type byte = x: nat | x < 256

  const HEADER: nat := 4
  const READ_BUFFER: nat := 8192
  const WRITE_BUFFER: nat := 65536
  const MAX_FRAME: nat := 0x10_0000

  /** Largest payload the read buffer can hold together with its header. */
  const MAX_RECEIVED: nat := READ_BUFFER - HEADER

  function FrameLength(s: seq<byte>): nat
    requires |s| >= HEADER
  {
    var a: nat := s[0];
    var b: nat := s[1];
    var c: nat := s[2];
    var d: nat := s[3];
    a * 0x100_0000 + b * 0x1_0000 + c * 0x100 + d
  }

  function Header(n: nat): (h: seq<byte>)
    requires n < 0x1_0000_0000
    ensures |h| == HEADER
  {
    [n / 0x100_0000, n / 0x1_0000 % 0x100, n / 0x100 % 0x100, n % 0x100]
  }

  lemma HeaderLength(n: nat, tail: seq<byte>)
    requires n < 0x1_0000_0000
    ensures FrameLength(Header(n) + tail) == n
  {
    assert n / 0x100_0000 == n / 0x100 / 0x100 / 0x100 && n / 0x1_0000 == n / 0x100 / 0x100;
    var a := n / 0x100;
    var b := a / 0x100;
    assert n == a * 0x100 + n % 0x100 && a == b * 0x100 + a % 0x100 && b == b / 0x100 * 0x100 + b % 0x100;
  }

  /** Network byte order: the most significant byte first. */
  lemma NetworkOrder(n: nat)
    requires n < 0x1_0000_0000
    ensures var h := Header(n);
            var a: nat, b: nat, c: nat, d: nat := h[0], h[1], h[2], h[3];
            a * 16777216 + b * 65536 + c * 256 + d == n
    ensures FrameLength([1, 2, 3, 4]) == 0x0102_0304
  {
    HeaderLength(n, []);
    assert Header(n) + [] == Header(n);
  }

  function Frame(payload: seq<byte>): seq<byte>
    requires |payload| <= MAX_FRAME
  {
    Header(|payload|) + payload
  }

  ghost predicate AllWithin(payloads: seq<seq<byte>>, limit: nat) {
    forall i :: 0 <= i < |payloads| ==> |payloads[i]| <= limit
  }

  /** The byte stream of a sequence of frames. */
  ghost function Stream(payloads: seq<seq<byte>>): seq<byte>
    requires AllWithin(payloads, MAX_FRAME)
  {
    if payloads == [] then [] else Frame(payloads[0]) + Stream(payloads[1..])
  }

  datatype Decoded = Decoded(frames: seq<seq<byte>>, rest: seq<byte>, oversized: bool)

  /** All complete frames at the front of a stream, and what is left undecoded. */
  function Decode(s: seq<byte>): Decoded
    decreases |s|
  {
    if |s| < HEADER then Decoded([], s, false)
    else
      var n := FrameLength(s);
      if n > MAX_FRAME then Decoded([], s, true)
      else if |s| < HEADER + n then Decoded([], s, false)
      else
        var d := Decode(s[HEADER + n..]);
        Decoded([s[HEADER..HEADER + n]] + d.frames, d.rest, d.oversized)
  }

  /** A stream is refused at once exactly if its first four bytes announce more than 1 MiB; before they are
      there nothing is decided, and nothing comes out. */
  lemma RefusedFirst(s: seq<byte>)
    ensures |s| < 4 ==> Decode(s) == Decoded([], s, false)
    ensures |s| >= 4 ==>
              var a: nat, b: nat, c: nat, d: nat := s[0], s[1], s[2], s[3];
              var n := a * 16777216 + b * 65536 + c * 256 + d;
              && (n > 1048576 <==> Decode(s) == Decoded([], s, true))
              && (n <= 1048576 && |s| < 4 + n ==> Decode(s) == Decoded([], s, false))
  {
  }

  /** The stream starts with a whole frame of acceptable size. */
  predicate HasFrame(s: seq<byte>) {
    |s| >= HEADER && FrameLength(s) <= MAX_FRAME && |s| >= HEADER + FrameLength(s)
  }

  lemma DecodeFirst(s: seq<byte>)
    requires HasFrame(s)
    ensures var n := FrameLength(s); var d := Decode(s[HEADER + n..]);
            Decode(s) == Decoded([s[HEADER..HEADER + n]] + d.frames, d.rest, d.oversized)
  {
    hide FrameLength;
  }

  lemma DecodeNone(s: seq<byte>)
    requires !HasFrame(s)
    ensures Decode(s) == Decoded([], s, |s| >= HEADER && FrameLength(s) > MAX_FRAME)
  {
    hide FrameLength;
  }

  lemma HeaderOnly(s: seq<byte>, t: seq<byte>)
    requires |s| >= HEADER
    ensures FrameLength(s + t) == FrameLength(s)
  {
  }

  /** Decoding a longer stream continues from the undecoded rest of a shorter one. */
  lemma {:induction false} DecodeAppend(a: seq<byte>, b: seq<byte>)
    ensures var d := Decode(a);
            !d.oversized ==>
              var e := Decode(d.rest + b);
              Decode(a + b) == Decoded(d.frames + e.frames, e.rest, e.oversized)
    ensures Decode(a).oversized ==> Decode(a + b).oversized && Decode(a + b).frames == Decode(a).frames
    decreases |a|
  {
    hide Decode, FrameLength;
    if |a| >= HEADER {
      HeaderOnly(a, b);
    }
    if HasFrame(a) {
      var n := FrameLength(a);
      var tail := a[HEADER + n..];
      DecodeAppend(tail, b);
      DecodeFirst(a);
      DecodeFirst(a + b);
      assert (a + b)[HEADER + n..] == tail + b;
      assert (a + b)[HEADER..HEADER + n] == a[HEADER..HEADER + n];
      var first := [a[HEADER..HEADER + n]];
      var d := Decode(tail);
      var e := Decode(d.rest + b);
      assert first + (d.frames + e.frames) == (first + d.frames) + e.frames;
    } else {
      DecodeNone(a);
      var e := Decode(a + b);
      assert [] + e.frames == e.frames;
      if Decode(a).oversized {
        DecodeNone(a + b);
      }
    }
  }

  lemma DecodeCons(p: seq<byte>, more: seq<byte>)
    requires |p| <= MAX_FRAME
    ensures var d := Decode(more);
            Decode(Frame(p) + more) == Decoded([p] + d.frames, d.rest, d.oversized)
  {
    hide Decode, FrameLength, Header;
    var s := Frame(p) + more;
    assert s == Header(|p|) + (p + more);
    HeaderLength(|p|, p + more);
    assert s[HEADER..HEADER + |p|] == p && s[HEADER + |p|..] == more;
    DecodeFirst(s);
  }

  lemma StreamCons(payloads: seq<seq<byte>>)
    requires AllWithin(payloads, MAX_FRAME) && payloads != []
    ensures AllWithin(payloads[1..], MAX_FRAME) && |payloads[0]| <= MAX_FRAME
    ensures Stream(payloads) == Frame(payloads[0]) + Stream(payloads[1..])
  {
    hide Frame;
  }

  lemma StreamNil()
    ensures AllWithin([], MAX_FRAME) && Stream([]) == []
  {
  }

  /** Round trip: the frames of an encoded stream, then whatever follows it. */
  lemma {:induction false} DecodeStream(payloads: seq<seq<byte>>, tail: seq<byte>)
    requires AllWithin(payloads, MAX_FRAME)
    ensures var d := Decode(tail);
            Decode(Stream(payloads) + tail) == Decoded(payloads + d.frames, d.rest, d.oversized)
  {
    hide Decode, Frame, Stream, AllWithin;
    var d := Decode(tail);
    if payloads == [] {
      StreamNil();
      assert [] + tail == tail && payloads + d.frames == d.frames;
    } else {
      var p := payloads[0];
      var later := payloads[1..];
      StreamCons(payloads);
      DecodeStream(later, tail);
      DecodeCons(p, Stream(later) + tail);
      assert Frame(p) + Stream(later) + tail == Frame(p) + (Stream(later) + tail);
      assert payloads == [p] + later;
      assert [p] + (later + d.frames) == [p] + later + d.frames;
    }
  }

  ghost predicate IsPrefix<T(!new)>(a: seq<T>, b: seq<T>) {
    |a| <= |b| && b[..|a|] == a
  }

  /** A peer that has received only part of a stream decodes a prefix of its frames, and nothing else. */
  lemma DecodePrefix(received: seq<byte>, missing: seq<byte>, payloads: seq<seq<byte>>)
    requires AllWithin(payloads, MAX_FRAME) && received + missing == Stream(payloads)
    ensures !Decode(received).oversized && IsPrefix(Decode(received).frames, payloads)
  {
    DecodeStream(payloads, []);
    assert Stream(payloads) + [] == Stream(payloads) && payloads + [] == payloads;
    DecodeAppend(received, missing);
  }

  /** What is left undecoded is an incomplete frame: it decodes to nothing, and it is the end of the stream. */
  lemma {:induction false} RestIncomplete(s: seq<byte>)
    ensures var d := Decode(s);
            && |d.rest| <= |s| && d.rest == s[|s| - |d.rest|..]
            && Decode(d.rest) == Decoded([], d.rest, d.oversized)
    decreases |s|
  {
    if |s| >= HEADER && FrameLength(s) <= MAX_FRAME && |s| >= HEADER + FrameLength(s) {
      var tail := s[HEADER + FrameLength(s)..];
      RestIncomplete(tail);
      var r := Decode(tail).rest;
      assert tail[|tail| - |r|..] == s[|s| - |r|..];
    }
  }

  // ---- a stream in reads ----

  ghost function Concat(chunks: seq<seq<byte>>): seq<byte> {
    if chunks == [] then [] else Concat(chunks[..|chunks| - 1]) + chunks[|chunks| - 1]
  }

  /** A client's read side between two reads. */
  datatype Reader = Reader(pending: seq<byte>, handled: seq<seq<byte>>, closed: bool)

  const FRESH := Reader([], [], false)

  /** What one recv delivered. No bytes at all, whether the stream ended or no room was offered, closes
      the client; so does an oversized frame. */
  function Read(r: Reader, chunk: seq<byte>): Reader {
    if r.closed then r
    else if chunk == [] then Reader([], r.handled, true)
    else
      var d := Decode(r.pending + chunk);
      if d.oversized then Reader([], r.handled + d.frames, true)
      else Reader(d.rest, r.handled + d.frames, false)
  }

  function ReadAll(chunks: seq<seq<byte>>): Reader {
    if chunks == [] then FRESH else Read(ReadAll(chunks[..|chunks| - 1]), chunks[|chunks| - 1])
  }

  ghost predicate NonEmpty(chunks: seq<seq<byte>>) {
    forall i :: 0 <= i < |chunks| ==> chunks[i] != []
  }

  /** Reads that recv can make: each takes some bytes, and no more than the buffer has room for. */
  ghost predicate Receivable(chunks: seq<seq<byte>>) {
    && NonEmpty(chunks)
    && forall i :: 0 <= i < |chunks| ==> |ReadAll(chunks[..i]).pending| + |chunks[i]| <= 8192
  }

  /** However the bytes are cut into reads, the handler gets the frames of the whole stream, the
      buffer holds exactly its undecoded rest, and the client is closed exactly on an oversized one. */
  lemma {:induction false} ChunkIndependent(chunks: seq<seq<byte>>)
    requires NonEmpty(chunks)
    ensures var r := ReadAll(chunks);
            var d := Decode(Concat(chunks));
            && r.handled == d.frames && (r.closed <==> d.oversized)
            && (!r.closed ==> r.pending == d.rest)
  {
    hide Decode;
    if chunks == [] {
      DecodeNone([]);
    } else {
      var n := |chunks| - 1;
      ChunkIndependent(chunks[..n]);
      DecodeAppend(Concat(chunks[..n]), chunks[n]);
    }
  }

  /** Frames that fit the buffer never fill it: there is always room to receive into. */
  lemma RoomToReceive(s: seq<byte>, payloads: seq<seq<byte>>, missing: seq<byte>)
    requires AllWithin(payloads, 8188) && s + missing == Stream(payloads)
    ensures |Decode(s).rest| < 8192
  {
    hide Decode, FrameLength, Stream;
    DecodePrefix(s, missing, payloads);
    RestIncomplete(s);
    var d := Decode(s);
    DecodeAppend(s, missing);
    DecodeWhole(payloads);
    if |d.rest| >= HEADER {
      var all := d.rest + missing;
      var e := Decode(all);
      assert d.frames + e.frames == payloads;
      HeaderOnly(d.rest, missing);
      if HasFrame(all) {
        DecodeFirst(all);
        assert payloads[|d.frames|] == e.frames[0];
        if HasFrame(d.rest) {
          DecodeFirst(d.rest);
          assert false;
        }
      } else {
        DecodeNone(all);
        assert false;
      }
    }
  }

  /** An encoded stream decodes to its frames and nothing else. */
  lemma DecodeWhole(payloads: seq<seq<byte>>)
    requires AllWithin(payloads, 0x10_0000)
    ensures Decode(Stream(payloads)) == Decoded(payloads, [], false)
  {
    hide Decode, Stream;
    DecodeStream(payloads, []);
    DecodeNone([]);
    assert Stream(payloads) + [] == Stream(payloads) && payloads + [] == payloads;
  }

  lemma {:induction false} ConcatSplit(chunks: seq<seq<byte>>, i: nat)
    requires i <= |chunks|
    ensures IsPrefix(Concat(chunks[..i]), Concat(chunks))
  {
    if i < |chunks| {
      var n := |chunks| - 1;
      ConcatSplit(chunks[..n], i);
      assert chunks[..n][..i] == chunks[..i];
      assert Concat(chunks)[..|Concat(chunks[..i])|] == Concat(chunks[..n])[..|Concat(chunks[..i])|];
    } else {
      assert chunks[..i] == chunks;
    }
  }

  /** The whole promise: any cut of frames of at most 8188 bytes into reads delivers exactly them, and
      before each read there is room. */
  lemma FramesArrive(chunks: seq<seq<byte>>, payloads: seq<seq<byte>>)
    requires AllWithin(payloads, 8188) && NonEmpty(chunks) && Concat(chunks) == Stream(payloads)
    ensures ReadAll(chunks) == Reader([], payloads, false)
    ensures forall i :: 0 <= i <= |chunks| ==> |ReadAll(chunks[..i]).pending| < 8192
  {
    hide Decode, Stream;
    ChunkIndependent(chunks);
    DecodeWhole(payloads);
    forall i | 0 <= i <= |chunks| ensures |ReadAll(chunks[..i]).pending| < 8192 {
      ChunkIndependent(chunks[..i]);
      ConcatSplit(chunks, i);
      var missing := Concat(chunks)[|Concat(chunks[..i])|..];
      RoomToReceive(Concat(chunks[..i]), payloads, missing);
      DecodePrefix(Concat(chunks[..i]), missing, payloads);
    }
  }

  // ---- what the buffer can deliver ----

  /** A frame decoded from s is shorter than s by its header. */
  lemma {:induction false} FramesFit(s: seq<byte>)
    ensures |s| >= HEADER ==> AllWithin(Decode(s).frames, |s| - HEADER)
    ensures |s| < HEADER ==> Decode(s).frames == []
    decreases |s|
  {
    hide Decode, FrameLength;
    if HasFrame(s) {
      DecodeFirst(s);
      FramesFit(s[HEADER + FrameLength(s)..]);
    } else {
      DecodeNone(s);
    }
  }

  /** Whatever a peer sends, no frame of more than 8188 bytes is ever handed over. */
  lemma {:induction false} HandledFit(chunks: seq<seq<byte>>)
    requires Receivable(chunks)
    ensures AllWithin(ReadAll(chunks).handled, 8188)
  {
    hide Decode;
    if chunks != [] {
      var n := |chunks| - 1;
      ReceivableFront(chunks, n);
      HandledFit(chunks[..n]);
      var r := ReadAll(chunks[..n]);
      FramesFit(r.pending + chunks[n]);
    }
  }

  lemma ReceivableFront(chunks: seq<seq<byte>>, n: nat)
    requires Receivable(chunks) && n <= |chunks|
    ensures Receivable(chunks[..n]) && NonEmpty(chunks[..n])
  {
    hide ReadAll;
    forall i | 0 <= i < n ensures |ReadAll(chunks[..n][..i]).pending| + |chunks[..n][i]| <= 8192 {
      assert chunks[..n][..i] == chunks[..i];
    }
  }

  /** One byte at a time. */
  function Singles(s: seq<byte>): seq<seq<byte>> {
    seq(|s|, i requires 0 <= i < |s| => [s[i]])
  }

  lemma {:induction false} SinglesConcat(s: seq<byte>)
    ensures Concat(Singles(s)) == s && NonEmpty(Singles(s))
  {
    if s != [] {
      var n := |s| - 1;
      SinglesConcat(s[..n]);
      assert Singles(s)[..n] == Singles(s[..n]);
      assert s == s[..n] + [s[n]];
    }
  }

  /** The limit, exactly: a sequence of frames can get through the read buffer, in some cut that recv
      can make, if and only if none of them has more than 8188 bytes. */
  lemma DeliverableExactly(payloads: seq<seq<byte>>)
    requires AllWithin(payloads, 0x10_0000)
    ensures (exists chunks :: Receivable(chunks) && Concat(chunks) == Stream(payloads)) <==>
            AllWithin(payloads, 8188)
  {
    hide Decode, Stream, ReadAll, Concat;
    DecodeWhole(payloads);
    if chunks :| Receivable(chunks) && Concat(chunks) == Stream(payloads) {
      ChunkIndependent(chunks);
      HandledFit(chunks);
    }
    if AllWithin(payloads, 8188) {
      var chunks := Singles(Stream(payloads));
      SinglesConcat(Stream(payloads));
      FramesArrive(chunks, payloads);
      assert Receivable(chunks);
    }
  }

  /** The reads of a stream whose next frame is too large for the buffer: the frames before it are
      handed over and it never is. The reads can take in at most one buffer of it. Then no room is
      left, and the next recv, of zero bytes, closes the client. */
  lemma LargeFrameCloses(chunks: seq<seq<byte>>, before: seq<seq<byte>>, large: seq<byte>, missing: seq<byte>)
    requires AllWithin(before, 8188) && 8188 < |large| <= 0x10_0000
    requires Receivable(chunks) && Concat(chunks) + missing == Stream(before) + Frame(large)
    ensures var r := ReadAll(chunks);
            && !r.closed && IsPrefix(r.handled, before)
            && |Concat(chunks)| <= |Stream(before)| + 8192
            && (|Concat(chunks)| == |Stream(before)| + 8192 ==>
                  r.handled == before && |r.pending| == 8192 && Read(r, []) == Reader([], before, true))
  {
    hide Decode, Stream, ReadAll, Concat, Frame, FrameLength;
    var s := Concat(chunks);
    var r := ReadAll(chunks);
    ChunkIndependent(chunks);
    if |s| <= |Stream(before)| {
      var rest := Stream(before)[|s|..];
      assert s + rest == Stream(before) by { FrontOf(s, missing, Stream(before), Frame(large)); }
      DecodePrefix(s, rest, before);
    } else {
      var part := s[|Stream(before)|..];
      assert s == Stream(before) + part && part + missing == Frame(large) by {
        BackOf(s, missing, Stream(before), Frame(large));
      }
      DecodeStream(before, part);
      if missing == [] {
        CompleteLarge(chunks, before, large);
        assert false;
      } else {
        PartOfLarge(part, missing, large);
        assert before + [] == before;
        PendingBounded(chunks);
      }
    }
  }

  /** The reads cannot take in the whole of it. */
  lemma CompleteLarge(chunks: seq<seq<byte>>, before: seq<seq<byte>>, large: seq<byte>)
    requires AllWithin(before, 8188) && 8188 < |large| <= 0x10_0000 && NonEmpty(chunks)
    requires Concat(chunks) + [] == Stream(before) + Frame(large)
    ensures !Receivable(chunks)
  {
    hide Decode, Stream, ReadAll, Concat, Frame;
    ChunkIndependent(chunks);
    DecodeStream(before, Frame(large));
    DecodeCons(large, []);
    assert Frame(large) + [] == Frame(large) && Concat(chunks) + [] == Concat(chunks);
    DecodeNone([]);
    var all := before + [large];
    assert ReadAll(chunks).handled == all && all[|before|] == large;
    if Receivable(chunks) {
      HandledFit(chunks);
    }
  }

  lemma FrontOf(s: seq<byte>, m: seq<byte>, a: seq<byte>, b: seq<byte>)
    requires s + m == a + b && |s| <= |a|
    ensures s + a[|s|..] == a
  {
    assert s == (s + m)[..|s|] && a[..|s|] == (a + b)[..|s|];
  }

  lemma BackOf(s: seq<byte>, m: seq<byte>, a: seq<byte>, b: seq<byte>)
    requires s + m == a + b && |s| > |a|
    ensures s == a + s[|a|..] && s[|a|..] + m == b
  {
    assert a == (a + b)[..|a|] && s[..|a|] == (s + m)[..|a|];
    assert b == (a + b)[|a|..] && s[|a|..] + m == (s + m)[|a|..];
  }

  lemma {:induction false} PendingBounded(chunks: seq<seq<byte>>)
    requires Receivable(chunks)
    ensures |ReadAll(chunks).pending| <= 8192
  {
    hide Decode;
    if chunks != [] {
      var n := |chunks| - 1;
      RestIncomplete(ReadAll(chunks[..n]).pending + chunks[n]);
    }
  }

  /** A proper part of one frame decodes to nothing. */
  lemma PartOfLarge(part: seq<byte>, missing: seq<byte>, large: seq<byte>)
    requires |large| <= 0x10_0000 && part + missing == Frame(large) && missing != []
    ensures Decode(part) == Decoded([], part, false)
  {
    hide FrameLength, Decode;
    if |part| >= HEADER {
      HeaderLength(|large|, large);
      HeaderOnly(part, missing);
      assert FrameLength(part) == |large|;
    }
    DecodeNone(part);
  }

  /** A full buffer happens only with such a frame. */
  lemma FullBufferMeans(s: seq<byte>)
    requires Decode(s).rest == s && |s| == 8192 && !Decode(s).oversized
    ensures 8188 < FrameLength(s) <= 0x10_0000
  {
    RestIncomplete(s);
    assert Decode(s).frames == [];
  }
}
