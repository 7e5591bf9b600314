/** The chunked byte stream and the 13-octet frame reader above it. */
module Framing {
  // packages/rpc/src/protocol.ts.

  import opened Buffers
  import opened Outcomes

  const REGULAR: Byte := 1
  const DISCONNECT: Byte := 5
  const KEEP_ALIVE: Byte := 9
  const HEADER_SIZE: nat := 13

  /** `ProtocolMessage`: a frame before its integers are cut down to 32 bits. */
  datatype Frame = Frame(kind: Byte, id: nat, ack: nat, data: Bytes)

  /** A frame whose body length survives the 32-bit length field. */
  predicate Sendable(frame: Frame) {
    |frame.data| < TWO_32
  }

  /** What the peer can see of a frame: both numbers modulo 2^32. */
  function Wire(frame: Frame): Frame {
    frame.(id := frame.id % TWO_32, ack := frame.ack % TWO_32)
  }

  function WireAll(frames: seq<Frame>): (wires: seq<Frame>)
    ensures |wires| == |frames|
    ensures forall k :: 0 <= k < |frames| ==> wires[k] == Wire(frames[k])
  {
    seq(|frames|, k requires 0 <= k < |frames| => Wire(frames[k]))
  }

  function EncodeFrame(frame: Frame): Bytes {
    [frame.kind] + U32BE(frame.id) + U32BE(frame.ack) + U32BE(|frame.data|) + frame.data
  }

  function EncodeAll(frames: seq<Frame>): Bytes {
    if frames == [] then [] else EncodeFrame(frames[0]) + EncodeAll(frames[1..])
  }

  /** One complete frame at the front of a flat buffer, with what follows it. */
  function ParseFrame(buffer: Bytes): Option<(Frame, Bytes)> {
    if |buffer| < HEADER_SIZE then None
    else
      var total := HEADER_SIZE + FromU32BE(buffer[9..13]);
      if |buffer| < total then None
      else Some((Frame(buffer[0], FromU32BE(buffer[1..5]), FromU32BE(buffer[5..9]), buffer[13..total]), buffer[total..]))
  }

  /** Every complete frame of a flat buffer, and the unfinished tail. */
  function Drain(buffer: Bytes): (result: (seq<Frame>, Bytes))
    ensures ParseFrame(result.1).None?
    decreases |buffer|
  {
    match ParseFrame(buffer)
    case None => ([], buffer)
    case Some((frame, rest)) =>
      var (frames, tail) := Drain(rest);
      ([frame] + frames, tail)
  }

  /** The bodies the protocol fires for a run of frames: those of Regular frames. */
  function Fired(frames: seq<Frame>): seq<Bytes> {
    if frames == [] then []
    else (if frames[0].kind == REGULAR then [frames[0].data] else []) + Fired(frames[1..])
  }

  /** Feeding chunks one by one, draining after each: the frames read and the bytes kept. */
  function Feed(buffer: Bytes, chunks: seq<Bytes>): (seq<Frame>, Bytes)
    decreases |chunks|
  {
    if chunks == [] then ([], buffer)
    else
      var (frames, kept) := Drain(buffer + chunks[0]);
      var (more, tail) := Feed(kept, chunks[1..]);
      (frames + more, tail)
  }

  /** How many frames of a stream are complete once its first `count` octets have arrived. */
  function Complete(frames: seq<Frame>, count: nat): (k: nat)
    ensures k <= |frames|
  {
    if frames == [] || count < |EncodeFrame(frames[0])| then 0
    else 1 + Complete(frames[1..], count - |EncodeFrame(frames[0])|)
  }

  lemma ParseEncoded(frame: Frame, rest: Bytes)
    requires Sendable(frame)
    ensures ParseFrame(EncodeFrame(frame) + rest) == Some((Wire(frame), rest))
  {
    var buffer := EncodeFrame(frame) + rest;
    assert buffer[1..5] == U32BE(frame.id);
    assert buffer[5..9] == U32BE(frame.ack);
    assert buffer[9..13] == U32BE(|frame.data|);
    U32RoundTrip(frame.id);
    U32RoundTrip(frame.ack);
    U32RoundTrip(|frame.data|);
    assert buffer[13..13 + |frame.data|] == frame.data;
    assert buffer[13 + |frame.data|..] == rest;
  }

  lemma ParsePrefix(frame: Frame, count: nat)
    requires Sendable(frame) && count < |EncodeFrame(frame)|
    ensures ParseFrame(EncodeFrame(frame)[..count]).None?
  {
    var buffer := EncodeFrame(frame);
    if HEADER_SIZE <= count {
      assert buffer[..count][9..13] == buffer[9..13] == U32BE(|frame.data|);
      U32RoundTrip(|frame.data|);
    }
  }

  lemma ParseExtended(buffer: Bytes, more: Bytes)
    requires ParseFrame(buffer).Some?
    ensures ParseFrame(buffer + more) == Some((ParseFrame(buffer).value.0, ParseFrame(buffer).value.1 + more))
  {
    assert (buffer + more)[1..5] == buffer[1..5];
    assert (buffer + more)[5..9] == buffer[5..9];
    assert (buffer + more)[9..13] == buffer[9..13];
    var total := HEADER_SIZE + FromU32BE(buffer[9..13]);
    assert (buffer + more)[13..total] == buffer[13..total];
    assert (buffer + more)[total..] == buffer[total..] + more;
  }

  lemma {:induction false} DrainAppend(buffer: Bytes, more: Bytes)
    ensures Drain(buffer + more).0 == Drain(buffer).0 + Drain(Drain(buffer).1 + more).0
    ensures Drain(buffer + more).1 == Drain(Drain(buffer).1 + more).1
    decreases |buffer|
  {
    if ParseFrame(buffer).Some? {
      ParseExtended(buffer, more);
      DrainAppend(ParseFrame(buffer).value.1, more);
    }
  }

  /** The chunk boundaries do not matter: feeding any split equals draining the joined bytes. */
  lemma {:induction false} FeedIsDrain(buffer: Bytes, chunks: seq<Bytes>)
    requires ParseFrame(buffer).None?
    ensures Feed(buffer, chunks) == Drain(buffer + Concat(chunks))
    decreases |chunks|
  {
    if chunks == [] {
      assert buffer + Concat(chunks) == buffer;
    } else {
      var kept := Drain(buffer + chunks[0]).1;
      FeedIsDrain(kept, chunks[1..]);
      DrainAppend(buffer + chunks[0], Concat(chunks[1..]));
      assert buffer + Concat(chunks) == buffer + chunks[0] + Concat(chunks[1..]);
    }
  }

  lemma DrainEncoded(frame: Frame, rest: Bytes)
    requires Sendable(frame)
    ensures Drain(EncodeFrame(frame) + rest) == ([Wire(frame)] + Drain(rest).0, Drain(rest).1)
  {
    ParseEncoded(frame, rest);
  }

  lemma DrainPrefix(frame: Frame, rest: Bytes, count: nat)
    requires Sendable(frame) && count < |EncodeFrame(frame)|
    ensures Drain((EncodeFrame(frame) + rest)[..count]) == ([], (EncodeFrame(frame) + rest)[..count])
  {
    ParsePrefix(frame, count);
    assert (EncodeFrame(frame) + rest)[..count] == EncodeFrame(frame)[..count];
  }

  lemma EncodePrefix(frame: Frame, frames: seq<Frame>, done: nat)
    requires done <= |frames|
    ensures EncodeAll(([frame] + frames)[..done + 1]) == EncodeFrame(frame) + EncodeAll(frames[..done])
    ensures WireAll(([frame] + frames)[..done + 1]) == [Wire(frame)] + WireAll(frames[..done])
  {
    hide EncodeFrame, Wire;
    assert ([frame] + frames)[..done + 1] == [frame] + frames[..done];
    assert ([frame] + frames[..done])[1..] == frames[..done];
  }

  /** Draining the first `count` octets of an encoded stream yields exactly the frames completed by then. */
  lemma {:induction false} DrainStream(frames: seq<Frame>, count: nat)
    requires forall frame :: frame in frames ==> Sendable(frame)
    requires count <= |EncodeAll(frames)|
    ensures var done := Complete(frames, count);
            var (read, kept) := Drain(EncodeAll(frames)[..count]);
            read == WireAll(frames[..done]) && EncodeAll(frames[..done]) + kept == EncodeAll(frames)[..count]
  {
    hide EncodeFrame, ParseFrame, Drain, WireAll;
    if frames == [] {
      DrainEmpty();
    } else {
      var head, tail := EncodeFrame(frames[0]), EncodeAll(frames[1..]);
      if count < |head| {
        DrainPrefix(frames[0], tail, count);
        assert frames[..0] == [];
      } else {
        var left := count - |head|;
        var done := Complete(frames[1..], left);
        DrainStream(frames[1..], left);
        DrainEncoded(frames[0], tail[..left]);
        TakeBeyond(head, tail, count);
        assert frames == [frames[0]] + frames[1..];
        EncodePrefix(frames[0], frames[1..], done);
        hide EncodeAll;
        Regroup(head, EncodeAll(frames[1..][..done]), Drain(tail[..left]).1);
      }
    }
  }

  lemma TakeBeyond(head: Bytes, tail: Bytes, count: nat)
    requires |head| <= count <= |head + tail|
    ensures (head + tail)[..count] == head + tail[..count - |head|]
  {
  }

  lemma Regroup(a: Bytes, b: Bytes, c: Bytes)
    ensures a + b + c == a + (b + c)
  {
  }

  /**
   * The refinement theorem. However the first octets of a stream of frames are cut into chunks, the
   * reader sees exactly the frames whose last octet has arrived and keeps exactly the unfinished rest.
   */
  lemma AnySplitReadsTheStream(frames: seq<Frame>, chunks: seq<Bytes>)
    requires forall frame :: frame in frames ==> Sendable(frame)
    requires Concat(chunks) <= EncodeAll(frames)
    ensures var done := Complete(frames, |Concat(chunks)|);
            && Feed([], chunks).0 == WireAll(frames[..done])
            && EncodeAll(frames[..done]) + Feed([], chunks).1 == Concat(chunks)
  {
    var count := |Concat(chunks)|;
    FeedIsDrain([], chunks);
    assert [] + Concat(chunks) == EncodeAll(frames)[..count];
    DrainStream(frames, count);
  }

  /** The last octet is what completes a frame: one octet short and the last frame is not fired. */
  lemma {:induction false} CompleteExactly(frames: seq<Frame>, count: nat)
    ensures |EncodeAll(frames[..Complete(frames, count)])| <= count
    ensures Complete(frames, count) < |frames| ==> count < |EncodeAll(frames[..Complete(frames, count) + 1])|
  {
    if frames == [] {
    } else if count < |EncodeFrame(frames[0])| {
      EncodePrefix(frames[0], frames[1..], 0);
      assert [frames[0]] + frames[1..] == frames;
    } else {
      var rest := count - |EncodeFrame(frames[0])|;
      var done := Complete(frames[1..], rest);
      CompleteExactly(frames[1..], rest);
      assert [frames[0]] + frames[1..] == frames;
      EncodePrefix(frames[0], frames[1..], done);
      if done < |frames[1..]| {
        EncodePrefix(frames[0], frames[1..], done + 1);
      }
    }
  }

  lemma HeaderIsPrefix(buffer: Bytes)
    requires HEADER_SIZE <= |buffer|
    ensures buffer[..HEADER_SIZE][0] == buffer[0]
    ensures buffer[..HEADER_SIZE][1..5] == buffer[1..5]
    ensures buffer[..HEADER_SIZE][5..9] == buffer[5..9]
    ensures buffer[..HEADER_SIZE][9..13] == buffer[9..13]
    ensures forall total :: HEADER_SIZE <= total <= |buffer| ==>
              && buffer[HEADER_SIZE..][..total - HEADER_SIZE] == buffer[HEADER_SIZE..total]
              && buffer[HEADER_SIZE..][total - HEADER_SIZE..] == buffer[total..]
  {
  }

  lemma ParseShortens(buffer: Bytes)
    requires ParseFrame(buffer).Some?
    ensures |ParseFrame(buffer).value.1| < |buffer|
  {
  }

  lemma DrainEmpty()
    ensures Drain([]) == ([], [])
  {
  }

  lemma DrainNothing(buffer: Bytes)
    requires ParseFrame(buffer).None?
    ensures Drain(buffer) == ([], buffer) && Fired([]) == []
  {
  }

  /** Wherever a frame stands among others, it fires its body if its type is 1 and nothing otherwise. */
  lemma {:induction false} RegularFramesFire(before: seq<Frame>, frame: Frame, after: seq<Frame>)
    ensures Fired(before + [frame] + after) == Fired(before) + (if frame.kind == 1 then [frame.data] else []) + Fired(after)
    decreases |before|
  {
    var all := before + [frame] + after;
    if before == [] {
      assert all[1..] == after;
    } else {
      assert all[1..] == before[1..] + [frame] + after;
      RegularFramesFire(before[1..], frame, after);
      hide Fired;
      FiredFirst(before);
      FiredFirst(all);
    }
  }

  lemma FiredFirst(frames: seq<Frame>)
    requires frames != []
    ensures Fired(frames) == (if frames[0].kind == 1 then [frames[0].data] else []) + Fired(frames[1..])
  {
  }

  lemma FiredCons(fired: seq<Bytes>, frame: Frame, frames: seq<Frame>)
    ensures fired + Fired([frame] + frames)
            == (if frame.kind == REGULAR then fired + [frame.data] else fired) + Fired(frames)
  {
    assert ([frame] + frames)[1..] == frames;
  }

  lemma FiredStep(fired: seq<Bytes>, buffer: Bytes)
    requires ParseFrame(buffer).Some?
    ensures var (frame, rest) := ParseFrame(buffer).value;
            && |rest| < |buffer|
            && Drain(buffer).1 == Drain(rest).1
            && fired + Fired(Drain(buffer).0)
               == (if frame.kind == REGULAR then fired + [frame.data] else fired) + Fired(Drain(rest).0)
  {
    ParseShortens(buffer);
    hide ParseFrame;
    var (frame, rest) := ParseFrame(buffer).value;
    FiredCons(fired, frame, Drain(rest).0);
  }

  /** The first octets of what is ahead come from the first chunk. */
  lemma TakeSlice(whole: Bytes, offset: nat, chunk: Bytes, rest: Bytes, taken: nat)
    requires offset <= |whole| && whole[offset..] == chunk + rest && taken <= |chunk|
    ensures offset + taken <= |whole| && whole[..offset] + chunk[..taken] == whole[..offset + taken]
    ensures chunk[taken..] + rest == whole[offset + taken..]
    ensures taken == |chunk| ==> chunk[..taken] == chunk && rest == whole[offset + taken..]
  {
    assert |whole[offset..]| == |chunk| + |rest|;
    assert whole[offset + taken..] == whole[offset..][taken..];
    assert forall k :: 0 <= k < taken ==> whole[offset + k] == whole[offset..][k] == chunk[k];
  }

  lemma FirstChunk(chunks: seq<Bytes>, i: nat)
    requires i < |chunks|
    ensures Concat(chunks[i..]) == chunks[i] + Concat(chunks[i + 1..])
  {
    assert chunks[i..][1..] == chunks[i + 1..];
  }

  lemma HeadChunk(chunks: seq<Bytes>)
    requires chunks != []
    ensures Concat(chunks) == chunks[0] + Concat(chunks[1..])
  {
  }

  lemma CutChunk(chunk: Bytes, chunks: seq<Bytes>)
    ensures Concat([chunk] + chunks) == chunk + Concat(chunks)
  {
    assert ([chunk] + chunks)[1..] == chunks;
  }

  lemma NoChunks(chunks: seq<Bytes>)
    ensures chunks == [] ==> Concat(chunks) == []
  {
  }

  /** What was copied, and what is left while it is not enough. */
  ghost predicate Joining(whole: Bytes, copied: Bytes, rest: Bytes, byteCount: nat) {
    if |copied| < byteCount then whole == copied + rest else byteCount <= |whole| && copied == whole[..byteCount]
  }

  lemma CopyStep(whole: Bytes, copied: Bytes, chunk: Bytes, source: Bytes, rest: Bytes, byteCount: nat)
    requires Joining(whole, copied, chunk + rest, byteCount) && |copied| < byteCount
    requires source == if |chunk| < byteCount - |copied| then chunk else chunk[..byteCount - |copied|]
    ensures Joining(whole, copied + source, rest, byteCount) && |source| <= byteCount - |copied|
  {
    assert copied + (chunk + rest) == copied + chunk + rest;
  }

  lemma NothingCopied(whole: Bytes, byteCount: nat)
    requires 0 < byteCount
    ensures Joining(whole, [], whole, byteCount)
  {
  }

  lemma AllCopied(whole: Bytes, copied: Bytes, rest: Bytes, byteCount: nat)
    requires Joining(whole, copied, rest, byteCount) && (|copied| < byteCount ==> rest == []) && byteCount <= |whole|
    ensures copied == whole[..byteCount]
  {
  }

  method WriteProtocolMessage(message: Frame) returns (result: Bytes)
    ensures result == EncodeFrame(message)
  {
    hide U32BE;
    var buffer := new Byte[HEADER_SIZE + |message.data|](_ => 0);
    buffer[0] := message.kind;
    assert buffer[..1] == [message.kind];
    WriteUInt32BE(buffer, message.id, 1);
    WriteUInt32BE(buffer, message.ack, 5);
    WriteUInt32BE(buffer, |message.data|, 9);
    Set(buffer, message.data, HEADER_SIZE);
    assert buffer[..HEADER_SIZE + |message.data|] == buffer[..];
    result := buffer[..];
  }

  class ChunkStream {
    var chunks: seq<Bytes>
    var totalLength: nat

    ghost predicate Valid()
      reads this
    {
      totalLength == |Contents()|
    }

    ghost function Contents(): Bytes
      reads this
    {
      Concat(chunks)
    }

    constructor ()
      ensures Valid() && Contents() == []
    {
      chunks, totalLength := [], 0;
    }

    method AcceptChunk(chunk: Bytes)
      requires Valid()
      modifies this
      ensures Valid() && Contents() == old(Contents()) + chunk
    {
      ConcatSplit(chunks, [chunk]);
      assert Concat([chunk]) == chunk;
      chunks := chunks + [chunk];
      totalLength := totalLength + |chunk|;
    }

    /** The first octets without consuming them; null while fewer have arrived. */
    method Peek(byteCount: nat) returns (result: Option<Bytes>)
      requires Valid() && 0 < byteCount
      ensures result == if |Contents()| < byteCount then None else Some(Contents()[..byteCount])
    {
      if totalLength < byteCount {
        return None;
      }
      assert Contents() == chunks[0] + Concat(chunks[1..]);
      if |chunks[0]| >= byteCount {
        assert Contents()[..byteCount] == chunks[0][..byteCount];
        return Some(chunks[0][..byteCount]);
      }
      result := PeekAcross(byteCount);
    }

    /** The part of `peek` that joins several chunks. */
    method PeekAcross(byteCount: nat) returns (result: Option<Bytes>)
      requires Valid() && 0 < byteCount <= |Contents()|
      ensures result == Some(Contents()[..byteCount])
    {
      var buffer := new Byte[byteCount](_ => 0);
      var offset: nat, i: nat := 0, 0;
      ghost var whole := Contents();
      assert chunks[0..] == chunks && buffer[..0] == [] && Concat([]) == [];
      NothingCopied(whole, byteCount);
      hide Concat, Contents, Joining;
      while i < |chunks| && offset < byteCount
        invariant i <= |chunks| && offset <= byteCount
        invariant Joining(whole, buffer[..offset], Concat(chunks[i..]), byteCount)
      {
        var chunk := chunks[i];
        var copyLength: nat := if |chunk| < byteCount - offset then |chunk| else byteCount - offset;
        FirstChunk(chunks, i);
        ghost var copied := buffer[..offset];
        var source := if copyLength == |chunk| then chunk else chunk[..copyLength];
        CopyStep(whole, copied, chunk, source, Concat(chunks[i + 1..]), byteCount);
        Set(buffer, source, offset);
        offset := offset + copyLength;
        i := i + 1;
      }
      assert i == |chunks| ==> chunks[i..] == [];
      AllCopied(whole, buffer[..offset], Concat(chunks[i..]), byteCount);
      assert buffer[..offset] == buffer[..];
      result := Some(buffer[..]);
    }

    /** The first octets, consumed; null, and nothing consumed, while fewer have arrived. */
    method Read(byteCount: nat) returns (result: Option<Bytes>)
      requires Valid() && 0 < byteCount
      modifies this
      ensures Valid()
      ensures |old(Contents())| < byteCount ==> result == None && Contents() == old(Contents())
      ensures byteCount <= |old(Contents())| ==>
                result == Some(old(Contents())[..byteCount]) && Contents() == old(Contents())[byteCount..]
    {
      if totalLength < byteCount {
        return None;
      }
      assert Contents() == chunks[0] + Concat(chunks[1..]);
      if |chunks[0]| == byteCount {
        result := Some(chunks[0]);
        chunks := chunks[1..];
        totalLength := totalLength - byteCount;
        return;
      }
      if |chunks[0]| > byteCount {
        result := Some(chunks[0][..byteCount]);
        assert Contents()[..byteCount] == result.value;
        assert Contents()[byteCount..] == chunks[0][byteCount..] + Concat(chunks[1..]);
        chunks := [chunks[0][byteCount..]] + chunks[1..];
        totalLength := totalLength - byteCount;
        return;
      }
      result := ReadAcross(byteCount);
    }

    /** The part of `read` that joins several chunks. */
    method ReadAcross(byteCount: nat) returns (result: Option<Bytes>)
      requires Valid() && byteCount <= totalLength
      modifies this
      ensures Valid()
      ensures result == Some(old(Contents())[..byteCount]) && Contents() == old(Contents())[byteCount..]
    {
      ghost var whole := Contents();
      var buffer := new Byte[byteCount](_ => 0);
      var offset := 0;
      hide Concat;
      while offset < byteCount
        invariant offset <= byteCount <= |whole| && totalLength == |whole|
        invariant buffer[..offset] == whole[..offset]
        invariant Concat(chunks) == whole[offset..]
        decreases byteCount - offset, |chunks|
      {
        NoChunks(chunks);
        HeadChunk(chunks);
        var chunk := chunks[0];
        var needed := byteCount - offset;
        var taken := if |chunk| <= needed then |chunk| else needed;
        TakeSlice(whole, offset, chunk, Concat(chunks[1..]), taken);
        Set(buffer, if |chunk| <= needed then chunk else chunk[..needed], offset);
        if |chunk| <= needed {
          chunks := chunks[1..];
        } else {
          CutChunk(chunk[needed..], chunks[1..]);
          chunks := [chunk[needed..]] + chunks[1..];
        }
        offset := offset + taken;
      }
      totalLength := totalLength - byteCount;
      assert buffer[..offset] == buffer[..];
      result := Some(buffer[..]);
    }

    /** Drops octets; `ok` is false where the source throws. */
    method Skip(byteCount: nat) returns (ok: bool)
      requires Valid() && 0 < byteCount
      modifies this
      ensures Valid() && ok == (byteCount <= |old(Contents())|)
      ensures Contents() == if ok then old(Contents())[byteCount..] else old(Contents())
    {
      var discarded := Read(byteCount);
      ok := discarded.Some?;
    }
  }

  /** Bare framing over a socket, without acknowledgements. */
  class SocketProtocol {
    const chunkStream: ChunkStream
    var fired: seq<Bytes>

    constructor ()
      ensures fresh(chunkStream) && chunkStream.Valid() && chunkStream.Contents() == [] && fired == []
    {
      chunkStream := new ChunkStream();
      fired := [];
    }

    /** The socket's data listener: one chunk in, every completed Regular body fired, the tail kept. */
    method OnData(data: Bytes)
      requires chunkStream.Valid()
      modifies this, chunkStream
      ensures chunkStream.Valid()
      ensures fired == old(fired) + Fired(Drain(old(chunkStream.Contents()) + data).0)
      ensures chunkStream.Contents() == Drain(old(chunkStream.Contents()) + data).1
    {
      chunkStream.AcceptChunk(data);
      ReadMessages();
    }

    method ReadMessages()
      requires chunkStream.Valid()
      modifies this, chunkStream
      ensures chunkStream.Valid()
      ensures fired == old(fired) + Fired(Drain(old(chunkStream.Contents())).0)
      ensures chunkStream.Contents() == Drain(old(chunkStream.Contents())).1
    {
      hide Drain, Fired;
      while true
        invariant chunkStream.Valid()
        invariant fired + Fired(Drain(chunkStream.Contents()).0) == old(fired) + Fired(Drain(old(chunkStream.Contents())).0)
        invariant Drain(chunkStream.Contents()).1 == Drain(old(chunkStream.Contents())).1
        decreases |chunkStream.Contents()|
      {
        ghost var before, firedBefore := chunkStream.Contents(), fired;
        var peeked := chunkStream.Peek(HEADER_SIZE);
        if peeked.None? {
          DrainNothing(before);
          break;
        }
        var header := peeked.value;
        var length := FromU32BE(header[9..13]);
        HeaderIsPrefix(before);
        if chunkStream.totalLength < HEADER_SIZE + length {
          DrainNothing(before);
          break;
        }
        FiredStep(firedBefore, before);
        var _ := chunkStream.Skip(HEADER_SIZE);
        if length == 0 {
          if header[0] == REGULAR {
            fired := fired + [[]];
          }
          continue;
        }
        var body := chunkStream.Read(length);
        if header[0] == REGULAR {
          fired := fired + [body.value];
        }
      }
    }
  }
}
