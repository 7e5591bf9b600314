/** Octet buffers and the big-endian integers of packages/rpc/src/buffer.ts. */
module Buffers {
  import opened Outcomes

  type Byte = b: int | 0 <= b < 0x100
  type Bytes = seq<Byte>

  const TWO_32: int := 0x1_0000_0000

  /** The four octets `writeUInt32BE` stores; `>>>` first reduces the number modulo 2^32. */
  function U32BE(value: nat): (bytes: Bytes)
    ensures |bytes| == 4
  {
    var v := value % TWO_32;
    [v / 0x100_0000, v / 0x1_0000 % 0x100, v / 0x100 % 0x100, v % 0x100]
  }

  /** The number `readUInt32BE` assembles from four octets. */
  function FromU32BE(bytes: Bytes): (value: nat)
    requires |bytes| == 4
    ensures value < TWO_32
  {
    var b0: int, b1: int, b2: int, b3: int := bytes[0], bytes[1], bytes[2], bytes[3];
    b0 * 0x100_0000 + b1 * 0x1_0000 + b2 * 0x100 + b3
  }

  lemma U32RoundTrip(value: nat)
    ensures FromU32BE(U32BE(value)) == value % TWO_32
  {
    var v := value % TWO_32;
    var a, b, c := v / 0x100, v / 0x1_0000, v / 0x100_0000;
    assert b == a / 0x100 && c == b / 0x100 && c < 0x100;
    assert v == a * 0x100 + v % 0x100 && a == b * 0x100 + a % 0x100 && b == c * 0x100 + b % 0x100;
  }

  /** `VSBuffer.concat`: the chunks joined in order. */
  function Concat(chunks: seq<Bytes>): Bytes {
    if chunks == [] then [] else chunks[0] + Concat(chunks[1..])
  }

  lemma {:induction false} ConcatSplit(front: seq<Bytes>, back: seq<Bytes>)
    ensures Concat(front + back) == Concat(front) + Concat(back)
  {
    if front == [] {
      assert front + back == back;
    } else {
      assert (front + back)[1..] == front[1..] + back;
      ConcatSplit(front[1..], back);
    }
  }

  /** `VSBuffer.set`: copies `source` into `target` from `offset` on. */
  method Set(target: array<Byte>, source: Bytes, offset: nat)
    requires offset + |source| <= target.Length
    modifies target
    ensures target[..offset + |source|] == old(target[..offset]) + source
    ensures target[offset + |source|..] == old(target[offset + |source|..])
  {
    forall i | 0 <= i < |source| {
      target[offset + i] := source[i];
    }
  }

  function Zeros(count: nat): (zeros: Bytes)
    ensures |zeros| == count
  {
    seq(count, _ => 0)
  }

  /**
   * `VSBuffer.concat`: the buffers are copied one behind the other into a new one of the length given, or of their
   * total length. A length that is too short makes a copy throw, a longer one leaves zeros behind.
   */
  method ConcatBuffers(buffers: seq<Bytes>, totalLength: Option<nat>) returns (result: Option<Bytes>)
    ensures totalLength.None? ==> result == Some(Concat(buffers))
    ensures totalLength.Some? ==>
              result == if totalLength.value < |Concat(buffers)| then None
                        else Some(Concat(buffers) + Zeros(totalLength.value - |Concat(buffers)|))
  {
    var length := 0;
    for k := 0 to |buffers|
      invariant length == |Concat(buffers[..k])|
    {
      NextJoined(buffers, k);
      length := length + |buffers[k]|;
    }
    assert buffers[..|buffers|] == buffers;
    if totalLength.Some? {
      length := totalLength.value;
    }
    var target := new Byte[length](_ => 0);
    var offset := 0;
    for k := 0 to |buffers|
      invariant offset == |Concat(buffers[..k])| <= length
      invariant target[..] == Concat(buffers[..k]) + Zeros(length - offset)
    {
      NextJoined(buffers, k);
      if length < offset + |buffers[k]| {
        ConcatSplit(buffers[..k + 1], buffers[k + 1..]);
        assert buffers == buffers[..k + 1] + buffers[k + 1..];
        return None;
      }
      Set(target, buffers[k], offset);
      offset := offset + |buffers[k]|;
      assert target[..] == target[..offset] + target[offset..];
    }
    result := Some(target[..]);
    assert totalLength.None? ==> target[..] == Concat(buffers);
  }

  lemma NextJoined(buffers: seq<Bytes>, k: nat)
    requires k < |buffers|
    ensures Concat(buffers[..k + 1]) == Concat(buffers[..k]) + buffers[k]
  {
    assert buffers[..k + 1] == buffers[..k] + [buffers[k]];
    ConcatSplit(buffers[..k], [buffers[k]]);
    assert Concat([buffers[k]]) == buffers[k];
  }

  /** `writeUInt32BE` on a buffer under construction. */
  method WriteUInt32BE(target: array<Byte>, value: nat, offset: nat)
    requires offset + 4 <= target.Length
    modifies target
    ensures target[..offset + 4] == old(target[..offset]) + U32BE(value)
    ensures target[offset + 4..] == old(target[offset + 4..])
  {
    var v := value % TWO_32;
    target[offset] := v / 0x100_0000;
    target[offset + 1] := v / 0x1_0000 % 0x100;
    target[offset + 2] := v / 0x100 % 0x100;
    target[offset + 3] := v % 0x100;
  }
}
