/**
 One client of the IPC socket: its fixed read and write buffers updated in
 place. Every read hands over exactly the frames the stream decoder finds, and
 every byte queued is accepted by the socket or still waiting, in order.
 */
module UdsClient {
  import opened Framing

  /** What recv returned: nothing yet, an error, or bytes (none at end of stream). */
  datatype Received = RecvAgain | RecvFailed | Bytes(data: seq<byte>)

  /** What send returned. */
  datatype Accepted = SendAgain | SendFailed | Took(n: nat)

  /** Between reads the buffer holds the start of a frame that is not complete yet. */
  ghost predicate Incomplete(s: seq<byte>) {
    Decode(s) == Decoded([], s, false)
  }

  lemma HeaderWithin(s: seq<byte>)
    requires Incomplete(s) && |s| >= HEADER
    ensures FrameLength(s) <= MAX_FRAME
  {
  }

  class Client {
    var closed: bool
    const rbuf: array<byte>
    var rlen: nat
    var haveLength: bool
    var frameLength: nat
    const wbuf: array<byte>
    var wlen: nat
    var wpos: nat
    ghost var taken: seq<byte>
    ghost var queued: seq<byte>
    ghost var sent: seq<seq<byte>>

    ghost predicate Valid()
      reads this
    {
      rbuf.Length == 8192 && wbuf.Length == 65536 && rbuf != wbuf &&
      rlen <= 8192 && wpos <= wlen <= 65536
    }

    /** The bytes received and not yet handed over. */
    ghost function Pending(): seq<byte>
      requires Valid()
      reads this, rbuf
    {
      rbuf[..rlen]
    }

    /** The header is remembered exactly when it has been parsed. */
    ghost predicate ReadOk()
      requires Valid()
      reads this, rbuf
    {
      && Incomplete(Pending())
      && (haveLength <==> rlen >= HEADER)
      && (haveLength ==> frameLength == FrameLength(Pending()))
    }

    /** Bytes waiting to be sent. */
    ghost function Waiting(): seq<byte>
      requires Valid()
      reads this, wbuf
    {
      wbuf[wpos..wlen]
    }

    /** Nothing queued is lost, repeated or reordered while the client is open. */
    ghost predicate Conserved()
      requires Valid()
      reads this, wbuf
    {
      !closed ==> taken + Waiting() == queued
    }

    /** What was queued is the stream of the responses sent. */
    ghost predicate Framed()
      reads this
    {
      !closed ==> AllWithin(sent, MAX_FRAME) && queued == Stream(sent)
    }

    /** What any open client's peer can decode from the bytes taken so far: the first responses, whole
        and in order; and all of them once nothing waits. */
    lemma PeerDecodes()
      requires Valid() && Conserved() && Framed() && !closed
      ensures AllWithin(sent, MAX_FRAME) && IsPrefix(Decode(taken).frames, sent)
      ensures Waiting() == [] ==> Decode(taken) == Decoded(sent, [], false)
    {
      PeerSeesPrefix(taken, Waiting(), sent);
    }

    constructor ()
      ensures Valid() && ReadOk() && Conserved() && Framed() && !closed && Pending() == [] && sent == []
      ensures fresh(rbuf) && fresh(wbuf)
    {
      closed, rlen, haveLength, frameLength, wlen, wpos := false, 0, false, 0, 0, 0;
      taken, queued, sent := [], [], [];
      rbuf := new byte[READ_BUFFER](_ => 0);
      wbuf := new byte[WRITE_BUFFER](_ => 0);
    }

    method Close()
      requires Valid()
      modifies this`closed, this`rlen, this`haveLength, this`frameLength, this`wlen, this`wpos
      ensures Valid() && closed && Pending() == [] && Waiting() == [] && wlen == 0
    {
      closed, rlen, haveLength, frameLength, wlen, wpos := true, 0, false, 0, 0, 0;
    }

    // ---- write side ----

    /** One attempt to send what is waiting; any number of bytes may be accepted. */
    method Write(result: Accepted) returns (ok: bool)
      requires Valid() && Conserved() && !closed
      requires result.Took? ==> result.n <= |Waiting()|
      modifies this`closed, this`rlen, this`haveLength, this`frameLength, this`wlen, this`wpos, this`taken
      ensures Valid() && Conserved() && ok == !closed && (old(Framed()) ==> Framed())
      ensures closed <==> old(wpos) < old(wlen) && result.SendFailed?
      ensures wlen <= old(wlen)
      ensures result.Took? ==> taken == old(taken) + old(Waiting())[..result.n]
      ensures !result.Took? ==> taken == old(taken)
      ensures !closed ==> rlen == old(rlen) && haveLength == old(haveLength) && frameLength == old(frameLength)
    {
      if wpos >= wlen {
        assert result.Took? ==> Waiting()[..result.n] == [];
        return true;
      }
      match result
      case SendAgain => return true;
      case SendFailed =>
        Close();
        return false;
      case Took(n) =>
        ghost var waiting := Waiting();
        assert wbuf[wpos..wpos + n] == waiting[..n] && wbuf[wpos + n..wlen] == waiting[n..];
        assert waiting[..n] + waiting[n..] == waiting;
        assert taken + waiting[..n] + waiting[n..] == taken + waiting;
        taken := taken + wbuf[wpos..wpos + n];
        wpos := wpos + n;
        assert Waiting() == waiting[n..] && Conserved();
        if wpos >= wlen {
          assert Waiting() == [];
          wpos, wlen := 0, 0;
          assert Waiting() == [];
        }
        return true;
    }

    /** Append to the queue and try to send; too much at once closes the client. */
    method Enqueue(data: seq<byte>, result: Accepted) returns (ok: bool)
      requires Valid() && Conserved() && !closed
      requires result.Took? ==> result.n <= |Waiting()| + |data|
      modifies this`closed, this`rlen, this`haveLength, this`frameLength, this`wlen, this`wpos, this`taken, this`queued,
               wbuf
      ensures Valid() && Conserved() && ok == !closed
      ensures old(wlen) + |data| > 65536 ==> closed
      ensures old(wlen) + |data| <= 65536 && !result.SendFailed? ==> !closed && wlen <= old(wlen) + |data|
      ensures !closed ==> queued == old(queued) + data
      ensures !closed ==> rlen == old(rlen) && haveLength == old(haveLength) && frameLength == old(frameLength)
    {
      if wlen + |data| > WRITE_BUFFER {
        Close();
        return false;
      }
      ghost var before := Waiting();
      forall i | 0 <= i < |data| {
        wbuf[wlen + i] := data[i];
      }
      wlen := wlen + |data|;
      queued := queued + data;
      assert Waiting() == before + data;
      ok := Write(result);
    }

    /** A response: its header, then its bytes. Over the frame limit nothing is sent at all; below it, a
        response larger than the write buffer always closes the client, and one that fits behind what is
        queued closes it only if a send fails. */
    method SendFrame(json: seq<byte>, first: Accepted, second: Accepted) returns (ok: bool)
      requires Valid() && Conserved() && !closed
      requires first.Took? ==> first.n <= |Waiting()| + HEADER
      requires second.Took? ==> second.n <= |json|
      requires Framed()
      modifies this`closed, this`rlen, this`haveLength, this`frameLength, this`wlen, this`wpos, this`taken,
               this`queued, this`sent, wbuf
      ensures Valid() && Conserved() && Framed()
      ensures |json| > 0x10_0000 ==> !ok && !closed && queued == old(queued) && sent == old(sent)
      ensures |json| <= 0x10_0000 ==>
                ok == !closed && (!closed ==> queued == old(queued) + Frame(json) && sent == old(sent) + [json])
      ensures 65536 < |json| <= 0x10_0000 ==> closed && !ok
      ensures old(wlen) + 4 + |json| <= 65536 && !first.SendFailed? && !second.SendFailed? ==> !closed
      ensures !closed ==> rlen == old(rlen) && haveLength == old(haveLength) && frameLength == old(frameLength)
    {
      hide Stream;
      if |json| > MAX_FRAME {
        return false;
      }
      ok := Enqueue(Header(|json|), first);
      if !ok {
        return false;
      }
      ok := Enqueue(json, second);
      assert !closed ==> queued == old(queued) + Frame(json);
      StreamSnoc(sent, json);
      sent := sent + [json];
    }

    // ---- read side ----

    /** Drop the frame at the front of the buffer and hand it over. */
    method TakeFrame() returns (request: seq<byte>)
      requires Valid() && HasFrame(Pending()) && haveLength && frameLength == FrameLength(Pending())
      modifies this`rlen, this`haveLength, this`frameLength, rbuf
      ensures Valid() && !haveLength && rlen < old(rlen)
      ensures request == old(Pending())[HEADER..HEADER + old(frameLength)]
      ensures Pending() == old(Pending())[HEADER + old(frameLength)..]
    {
      hide FrameLength;
      request := rbuf[HEADER..HEADER + frameLength];
      assert request == Pending()[HEADER..HEADER + frameLength];
      var consumed := HEADER + frameLength;
      forall i | 0 <= i < rlen - consumed {
        rbuf[i] := rbuf[i + consumed];
      }
      rlen := rlen - consumed;
      haveLength, frameLength := false, 0;
    }

    /** One readable event: exactly the frames that the bytes so far complete are handed over, in
        order; the rest stays; an oversized frame, an error or the end of the stream closes. */
    method ProcessRead(result: Received) returns (requests: seq<seq<byte>>)
      requires Valid() && ReadOk() && !closed
      requires result.Bytes? ==> |result.data| <= READ_BUFFER - rlen
      modifies this`closed, this`rlen, this`haveLength, this`frameLength, this`wlen, this`wpos, rbuf
      ensures Valid() && (!closed ==> ReadOk() && wlen == old(wlen) && wpos == old(wpos))
      ensures result.RecvAgain? ==> !closed && requests == [] && Pending() == old(Pending())
      ensures result.RecvFailed? ==> closed && requests == []
      ensures result.Bytes? ==>
                Reader(Pending(), requests, closed) == Read(Reader(old(Pending()), [], false), result.data)
      ensures old(Framed()) ==> Framed()
    {
      hide Decode, Stream, FrameLength;
      requests := [];
      match result {
        case RecvAgain => return;
        case RecvFailed =>
          Close();
          return;
        case Bytes(data) =>
          if data == [] {
            Close();
            return;
          }
      }
      var data := result.data;
      ghost var all := Pending() + data;
      if haveLength {
        HeaderOnly(Pending(), data);
        HeaderWithin(Pending());
      }
      forall i | 0 <= i < |data| {
        rbuf[rlen + i] := data[i];
      }
      rlen := rlen + |data|;
      assert Pending() == all;
      requests := ExtractFrames();
    }

    /** Extract complete frames from the front of the buffer. */
    method ExtractFrames() returns (requests: seq<seq<byte>>)
      requires Valid() && !closed
      requires haveLength ==> rlen >= HEADER && frameLength == FrameLength(Pending()) <= MAX_FRAME
      modifies this`closed, this`rlen, this`haveLength, this`frameLength, this`wlen, this`wpos, rbuf
      ensures Valid() && (!closed ==> ReadOk() && wlen == old(wlen) && wpos == old(wpos))
      ensures var d := Decode(old(Pending()));
              && requests == d.frames && (closed <==> d.oversized)
              && Pending() == if closed then [] else d.rest
    {
      hide FrameLength, Decode;
      requests := [];
      while rlen > 0
        invariant Valid() && !closed && wlen == old(wlen) && wpos == old(wpos)
        invariant haveLength ==> rlen >= HEADER && frameLength == FrameLength(Pending()) <= MAX_FRAME
        invariant var d := Decode(Pending());
                  Decode(old(Pending())) == Decoded(requests + d.frames, d.rest, d.oversized)
        decreases rlen
      {
        if !haveLength {
          if rlen < HEADER {
            DecodeNone(Pending());
            break;
          }
          frameLength := HeaderValue();
          if frameLength > MAX_FRAME {
            DecodeNone(Pending());
            Close();
            return;
          }
          haveLength := true;
        }
        if rlen < HEADER + frameLength {
          DecodeNone(Pending());
          break;
        }
        DecodeFirst(Pending());
        var request := TakeFrame();
        requests := requests + [request];
      }
      DecodeNone([]);
    }

    method HeaderValue() returns (n: nat)
      requires Valid() && rlen >= HEADER
      ensures n == FrameLength(Pending())
    {
      var a: nat, b: nat, c: nat, d: nat := rbuf[0], rbuf[1], rbuf[2], rbuf[3];
      n := a * 0x100_0000 + b * 0x1_0000 + c * 0x100 + d;
    }
  }

  /** A peer that decodes the bytes the socket took so far gets a prefix of the frames sent. */
  lemma PeerSeesPrefix(taken: seq<byte>, waiting: seq<byte>, frames: seq<seq<byte>>)
    requires AllWithin(frames, MAX_FRAME) && taken + waiting == Stream(frames)
    ensures !Decode(taken).oversized && IsPrefix(Decode(taken).frames, frames)
    ensures waiting == [] ==> Decode(taken) == Decoded(frames, [], false)
  {
    hide Decode, Stream;
    DecodePrefix(taken, waiting, frames);
    DecodeStream(frames, []);
    DecodeNone([]);
    assert Stream(frames) + [] == Stream(frames) && frames + [] == frames;
    assert waiting == [] ==> taken == Stream(frames);
  }

  /** One more frame at the end of the stream. */
  lemma {:induction false} StreamSnoc(frames: seq<seq<byte>>, last: seq<byte>)
    requires AllWithin(frames, MAX_FRAME) && |last| <= MAX_FRAME
    ensures AllWithin(frames + [last], MAX_FRAME)
    ensures Stream(frames + [last]) == Stream(frames) + Frame(last)
  {
    hide Frame, Stream;
    var all := frames + [last];
    if frames == [] {
      StreamCons(all);
      StreamNil();
      assert all[1..] == [] && Frame(last) + [] == [] + Frame(last);
    } else {
      StreamCons(frames);
      StreamCons(all);
      StreamSnoc(frames[1..], last);
      assert all[1..] == frames[1..] + [last];
    }
  }
}
