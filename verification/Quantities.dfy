/** Variable-length quantities, with the 32-bit operators of the source. */
module Quantities {
  // `readIntVQL` and `writeInt32VQL` of packages/rpc/src/serialization.ts.

  import opened Buffers
  import opened Powers
  import opened Sequences

  lemma Pow2Values()
    ensures Pow2(0) == 1 && Pow2(7) == 0x80 && Pow2(14) == 0x4000 && Pow2(21) == 0x20_0000 && Pow2(28) == 0x1000_0000
    ensures Pow2(32) == TWO_32
  {
    assert Pow2(4) == 16 && Pow2(11) == 16 * Pow2(7) && Pow2(18) == 16 * Pow2(14) && Pow2(25) == 16 * Pow2(21);
    assert Pow2(28) == 8 * Pow2(25) && Pow2(32) == 16 * Pow2(28);
  }

  /** Bitwise or. */
  function Or(a: nat, b: nat): (c: nat)
    ensures c >= a && c >= b
    decreases a + b
  {
    if a == 0 then b else if b == 0 then a else 2 * Or(a / 2, b / 2) + (if a % 2 + b % 2 > 0 then 1 else 0)
  }

  lemma {:induction false} OrBound(a: nat, b: nat, n: nat)
    requires a < Pow2(n) && b < Pow2(n)
    ensures Or(a, b) < Pow2(n)
    decreases n
  {
    if a != 0 && b != 0 {
      OrBound(a / 2, b / 2, n - 1);
    }
  }

  function Shifted(bits: nat, shift: nat): nat {
    bits * Pow2(shift)
  }

  lemma ShiftedTwice(bits: nat, n: nat)
    requires n > 0
    ensures Shifted(bits, n) == 2 * Shifted(bits, n - 1) && (bits > 0 ==> Shifted(bits, n - 1) > 0)
  {
    assert bits * (2 * Pow2(n - 1)) == 2 * (bits * Pow2(n - 1));
  }

  /** Or adds when the right operand is shifted past the left one. */
  lemma {:induction false} OrShifted(a: nat, c: nat, n: nat)
    requires a < Pow2(n)
    ensures Or(a, Shifted(c, n)) == a + Shifted(c, n)
    decreases n
  {
    if n > 0 && a > 0 && c > 0 {
      assert a / 2 < Pow2(n - 1);
      ShiftedTwice(c, n);
      OrTwice(a, Shifted(c, n - 1));
      hide *;
      OrShifted(a / 2, c, n - 1);
    } else {
      assert n == 0 || c == 0 ==> a == 0 || Shifted(c, n) == 0;
    }
  }

  lemma OrTwice(a: nat, b: nat)
    requires a > 0 && b > 0
    ensures Or(a, 2 * b) == 2 * Or(a / 2, b) + a % 2
  {
    assert 2 * b / 2 == b && 2 * b % 2 == 0;
  }

  /** The signed integer with these 32 bits. */
  function ToInt32(bits: nat): (value: int)
    requires bits < TWO_32
    ensures IsInt32(value) && value % TWO_32 == bits
  {
    if bits < 0x8000_0000 then bits else bits - TWO_32
  }

  predicate IsInt32(value: int) {
    -0x8000_0000 <= value < 0x8000_0000
  }

  lemma Int32RoundTrip(value: int)
    requires IsInt32(value)
    ensures ToInt32(value % TWO_32) == value
  {
    assert value < 0 ==> value % TWO_32 == value + TWO_32;
  }

  /** Seven bits a byte, low bits first, the high bit set on all but the last. */
  function Groups(bits: nat): (bytes: Bytes)
    ensures bytes != []
  {
    if bits < 0x80 then [bits] else [bits % 0x80 + 0x80] + Groups(bits / 0x80)
  }

  /** What `writeInt32VQL` writes: negative numbers by their 32 bits, as `>>>` sees them. */
  function Quantity(value: int): (bytes: Bytes)
    ensures bytes != []
  {
    Groups(value % TWO_32)
  }

  /** The loop of `readIntVQL`; past the end of the input a byte reads as zero. */
  function ReadGroups(bytes: Bytes, pos: nat, shift: nat, acc: nat): (r: (int, nat))
    requires pos <= |bytes| && acc < TWO_32
    ensures IsInt32(r.0) && pos <= r.1 <= |bytes|
    decreases |bytes| - pos
  {
    if pos == |bytes| then (ToInt32(acc), pos)
    else
      var b: int := bytes[pos];
      var next := OrGroup(acc, b % 0x80, shift);
      if b < 0x80 then (ToInt32(next), pos + 1) else ReadGroups(bytes, pos + 1, shift + 7, next)
  }

  /** `acc | (group << shift)`; the shift counts modulo 32 and drops the high bits. */
  function OrGroup(acc: nat, group: nat, shift: nat): (next: nat)
    requires acc < TWO_32
    ensures next < TWO_32
  {
    Pow2Values();
    OrBound(acc, Shifted(group, shift % 32) % TWO_32, 32);
    Or(acc, Shifted(group, shift % 32) % TWO_32)
  }

  function ReadQuantity(bytes: Bytes, pos: nat): (r: (int, nat))
    requires pos <= |bytes|
    ensures IsInt32(r.0) && pos <= r.1 <= |bytes|
  {
    ReadGroups(bytes, pos, 0, 0)
  }

  // ---------------------------------------------------------------------------------------------
  // The loops
  // ---------------------------------------------------------------------------------------------

  /** `BufferReader`: a cursor that never passes the end; short reads return what is there. */
  class BufferReader {
    const buffer: Bytes
    var pos: nat

    ghost predicate Valid()
      reads this
    {
      pos <= |buffer|
    }

    constructor (buffer: Bytes)
      ensures Valid() && pos == 0 && this.buffer == buffer
    {
      this.buffer, pos := buffer, 0;
    }

    method Read(bytes: int) returns (result: Bytes)
      requires Valid()
      modifies this
      ensures Valid() && pos == SliceEnd(|buffer|, old(pos), bytes) && result == buffer[old(pos)..pos]
    {
      result := buffer[pos..SliceEnd(|buffer|, pos, bytes)];
      pos := pos + |result|;
    }
  }

  /** Where `slice(pos, pos + bytes)` ends; a negative end counts from the back. */
  function SliceEnd(length: nat, pos: nat, bytes: int): (end: nat)
    requires pos <= length
    ensures pos <= end <= length
    ensures 0 <= bytes <= length - pos ==> end == pos + bytes
  {
    var end := if pos + bytes < 0 then length + pos + bytes else if pos + bytes <= length then pos + bytes else length;
    if end < pos then pos else end
  }

  /** `BufferWriter`: the written pieces, joined on demand. */
  class BufferWriter {
    var buffers: seq<Bytes>

    function Contents(): Bytes
      reads this
    {
      Concat(buffers)
    }

    constructor ()
      ensures Contents() == []
    {
      buffers := [];
    }

    method Write(buffer: Bytes)
      modifies this
      ensures Contents() == old(Contents()) + buffer
    {
      ConcatSplit(buffers, [buffer]);
      assert Concat([buffer]) == buffer + Concat([]);
      buffers := buffers + [buffer];
    }
  }

  method ReadIntVQL(reader: BufferReader) returns (value: int)
    requires reader.Valid()
    modifies reader
    ensures reader.Valid() && (value, reader.pos) == ReadQuantity(reader.buffer, old(reader.pos))
  {
    var bits: nat := 0;
    var n: nat := 0;
    while true
      invariant reader.Valid() && bits < TWO_32
      invariant ReadGroups(reader.buffer, reader.pos, n, bits) == ReadQuantity(reader.buffer, old(reader.pos))
      decreases |reader.buffer| - reader.pos
    {
      var next := reader.Read(1);
      if next == [] {
        return ToInt32(bits);
      }
      var b: int := next[0];
      bits := OrGroup(bits, b % 0x80, n);
      if b < 0x80 {
        return ToInt32(bits);
      }
      n := n + 7;
    }
  }

  lemma FirstGroup(bits: nat)
    ensures Groups(bits)
         == [if bits < 0x80 then bits else bits % 0x80 + 0x80] + (if bits < 0x80 then [] else Groups(bits / 0x80))
    ensures bits < 0x80 <==> bits / 0x80 == 0
  {
  }

  /** Groups written so far, the next one and those to come. */
  lemma NextGroup(done: Bytes, group: Byte, rest: Bytes, whole: Bytes)
    ensures done + ([group] + rest) == whole <==> done + [group] + rest == whole
  {
    assert done + ([group] + rest) == done + [group] + rest;
  }

  method WriteInt32VQL(writer: BufferWriter, value: int)
    modifies writer
    ensures writer.Contents() == old(writer.Contents()) + Quantity(value)
  {
    var bits: nat := value % TWO_32;
    if bits == 0 {
      writer.Write([0]);
      return;
    }
    var len := CountGroups(bits);
    var scratch := new Byte[len](_ => 0);
    FillGroups(scratch, bits);
    writer.Write(scratch[..]);
  }

  /** The counting loop of `writeInt32VQL`. */
  method CountGroups(bits: nat) returns (len: nat)
    requires 0 < bits
    ensures len == |Groups(bits)|
  {
    ghost var groups := Groups(bits);
    hide Groups;
    len := 0;
    var v := bits;
    while v != 0
      invariant v == 0 ==> len == |groups|
      invariant v != 0 ==> len + |Groups(v)| == |groups|
      decreases v
    {
      FirstGroup(v);
      len := len + 1;
      v := v / 0x80;
    }
  }

  /** Its writing loop. */
  method FillGroups(scratch: array<Byte>, bits: nat)
    requires 0 < bits && scratch.Length == |Groups(bits)|
    modifies scratch
    ensures scratch[..] == Groups(bits)
  {
    ghost var groups := Groups(bits);
    hide Groups;
    var v, i := bits, 0;
    assert scratch[..0] + groups == groups;
    while v != 0
      invariant v == 0 ==> i == scratch.Length && scratch[..i] == groups
      invariant v != 0 ==> i + |Groups(v)| == scratch.Length && scratch[..i] + Groups(v) == groups
      decreases v
    {
      FirstGroup(v);
      ghost var done := scratch[..i];
      NextGroup(done, if v < 0x80 then v else v % 0x80 + 0x80, if v < 0x80 then [] else Groups(v / 0x80), groups);
      scratch[i] := v % 0x80;
      v := v / 0x80;
      if v > 0 {
        scratch[i] := scratch[i] + 0x80;
      }
      i := i + 1;
      assert scratch[..i] == done + [scratch[i - 1]];
      assert scratch[..i] + [] == scratch[..i];
    }
    assert scratch[..] == scratch[..i];
  }

  // ---------------------------------------------------------------------------------------------
  // The round trip, and how short it is
  // ---------------------------------------------------------------------------------------------

  /** Where the groups of a number may begin, and how large the number then still is. */
  predicate Fits(bits: nat, shift: nat) {
    || (shift == 0 && bits < 0x1_0000_0000) || (shift == 7 && bits < 0x200_0000) || (shift == 14 && bits < 0x4_0000)
    || (shift == 21 && bits < 0x800) || (shift == 28 && bits < 0x10)
  }

  /** Two places a number may be split at: behind a group, with `p` the weight of its first bit. */
  lemma GroupArithmetic(acc: nat, bits: nat, p: nat)
    requires p == 1 || p == 0x80 || p == 0x4000 || p == 0x20_0000 || p == 0x1000_0000
    requires acc < p && bits < TWO_32 / p
    ensures acc + bits * p < TWO_32 && bits % 0x80 * p < TWO_32
    ensures acc + bits * p == acc + bits % 0x80 * p + bits / 0x80 * (0x80 * p)
    ensures acc + bits % 0x80 * p < 0x80 * p
  {
    if p == 1 {
    } else if p == 0x80 {
    } else if p == 0x4000 {
    } else if p == 0x20_0000 {
    }
  }

  lemma ScaleOf(shift: nat, bits: nat)
    requires Fits(bits, shift)
    ensures var p := Pow2(shift);
            && (p == 1 || p == 0x80 || p == 0x4000 || p == 0x20_0000 || p == 0x1000_0000)
            && bits < TWO_32 / p && shift % 32 == shift
    ensures bits >= 0x80 ==> Pow2(shift + 7) == 0x80 * Pow2(shift)
  {
    Pow2Values();
  }

  lemma OneGroup(acc: nat, bits: nat, shift: nat)
    requires Fits(bits, shift) && acc < Pow2(shift)
    ensures acc < TWO_32 && acc + Shifted(bits, shift) < TWO_32
    ensures OrGroup(acc, bits % 0x80, shift) == acc + Shifted(bits % 0x80, shift)
    ensures bits >= 0x80 ==> Fits(bits / 0x80, shift + 7) && OrGroup(acc, bits % 0x80, shift) < Pow2(shift + 7)
    ensures bits >= 0x80 ==>
              acc + Shifted(bits, shift) == OrGroup(acc, bits % 0x80, shift) + Shifted(bits / 0x80, shift + 7)
  {
    hide Pow2, Or;
    ScaleOf(shift, bits);
    GroupArithmetic(acc, bits, Pow2(shift));
    OrShifted(acc, bits % 0x80, shift);
  }

  lemma {:induction false} GroupsReadBack(bytes: Bytes, pos: nat, bits: nat, shift: nat, acc: nat)
    requires Stands(bytes, pos, Groups(bits)) && Fits(bits, shift) && acc < Pow2(shift)
    ensures acc < TWO_32 && acc + Shifted(bits, shift) < TWO_32 && pos <= |bytes|
    ensures ReadGroups(bytes, pos, shift, acc) == (ToInt32(acc + Shifted(bits, shift)), pos + |Groups(bits)|)
    decreases bits
  {
    hide *;
    OneGroup(acc, bits, shift);
    StandsFirst(bytes, pos, Groups(bits));
    if bits < 0x80 {
      LastGroup(bytes, pos, bits, shift, acc);
    } else {
      GroupsTail(bits);
      GroupsReadBack(bytes, pos + 1, bits / 0x80, shift + 7, OrGroup(acc, bits % 0x80, shift));
      ContinuedGroup(bytes, pos, bits, shift, acc);
    }
  }

  lemma GroupsTail(bits: nat)
    requires bits >= 0x80
    ensures Groups(bits)[1..] == Groups(bits / 0x80) && |Groups(bits)| == 1 + |Groups(bits / 0x80)|
  {
  }

  lemma LastGroup(bytes: Bytes, pos: nat, bits: nat, shift: nat, acc: nat)
    requires pos < |bytes| && acc < TWO_32 && bits < 0x80 && bytes[pos] == Groups(bits)[0]
    ensures ReadGroups(bytes, pos, shift, acc) == (ToInt32(OrGroup(acc, bits % 0x80, shift)), pos + |Groups(bits)|)
  {
    hide OrGroup, ToInt32;
  }

  lemma ContinuedGroup(bytes: Bytes, pos: nat, bits: nat, shift: nat, acc: nat)
    requires pos < |bytes| && acc < TWO_32 && bits >= 0x80 && bytes[pos] == Groups(bits)[0]
    ensures ReadGroups(bytes, pos, shift, acc) == ReadGroups(bytes, pos + 1, shift + 7, OrGroup(acc, bits % 0x80, shift))
  {
    hide OrGroup;
    var b: int := bytes[pos];
    assert b == bits % 0x80 + 0x80 && b % 0x80 == bits % 0x80;
  }

  /** Reading what was written gives every 32-bit integer back, and the reader stands just behind it. */
  lemma QuantityRoundTrip(bytes: Bytes, pos: nat, value: int)
    requires IsInt32(value) && Stands(bytes, pos, Quantity(value))
    ensures ReadQuantity(bytes, pos) == (value, pos + |Quantity(value)|)
  {
    GroupsReadBack(bytes, pos, value % TWO_32, 0, 0);
    Int32RoundTrip(value);
  }

  /** A number wider than 32 bits comes back as its low 32, read as signed. */
  lemma WideQuantityWraps(bytes: Bytes, pos: nat, value: int)
    requires Stands(bytes, pos, Quantity(value))
    ensures ReadQuantity(bytes, pos) == (ToInt32(value % TWO_32), pos + |Quantity(value)|)
  {
    GroupsReadBack(bytes, pos, value % TWO_32, 0, 0);
  }

  lemma {:induction false} GroupsAreShort(bits: nat, shift: nat)
    requires Fits(bits, shift)
    ensures |Groups(bits)| * 7 + shift <= 35
    decreases bits
  {
    if bits >= 0x80 {
      GroupsAreShort(bits / 0x80, shift + 7);
    }
  }

  lemma QuantityIsShort(value: int)
    ensures 1 <= |Quantity(value)| <= 5
  {
    GroupsAreShort(value % TWO_32, 0);
  }

  /** A whole group sequence: the high bit is set on all bytes but the last. */
  predicate Whole(bytes: Bytes) {
    bytes != [] && bytes[|bytes| - 1] < 0x80 && forall k :: 0 <= k < |bytes| - 1 ==> bytes[k] >= 0x80
  }

  lemma {:induction false} FewBytesReadSmall(bytes: Bytes, pos: nat, acc: nat)
    requires pos < |bytes| <= 4 && Whole(bytes) && acc < Pow2(7 * pos)
    ensures acc < TWO_32
    ensures 0 <= ReadGroups(bytes, pos, 7 * pos, acc).0 < Pow2(7 * |bytes|)
    decreases |bytes| - pos
  {
    hide Pow2, OrGroup;
    var b: int := bytes[pos];
    var next := SmallStep(acc, b % 0x80, pos);
    if b >= 0x80 {
      FewBytesReadSmall(bytes, pos + 1, next);
    }
  }

  lemma SmallStep(acc: nat, group: nat, pos: nat) returns (next: nat)
    requires pos < 4 && acc < Pow2(7 * pos) && group < 0x80
    ensures acc < TWO_32 && next == OrGroup(acc, group, 7 * pos) < Pow2(7 * (pos + 1)) <= Pow2(28) == 0x1000_0000
  {
    hide Pow2, Or;
    var p := SmallWeight(pos);
    GroupArithmetic(acc, group, p);
    OrShifted(acc, group, 7 * pos);
    next := OrGroup(acc, group, 7 * pos);
    assert next == acc + group * p < 0x80 * p;
  }

  /** The weight of one of the first four groups. */
  lemma SmallWeight(pos: nat) returns (p: nat)
    requires pos < 4
    ensures p == Pow2(7 * pos) && (p == 1 || p == 0x80 || p == 0x4000 || p == 0x20_0000)
    ensures Pow2(7 * (pos + 1)) == 0x80 * p <= Pow2(28) == 0x1000_0000
  {
    hide Pow2;
    Pow2Values();
    p := Pow2(7 * pos);
    assert pos == 0 || pos == 1 || pos == 2 || pos == 3;
  }

  lemma {:induction false} GroupsNeedRoom(bits: nat)
    ensures bits < Pow2(7 * |Groups(bits)|)
    ensures |Groups(bits)| > 1 ==> bits >= Pow2(7 * (|Groups(bits)| - 1))
    decreases bits
  {
    if bits < 0x80 {
      Pow2Values();
    } else {
      GroupsNeedRoom(bits / 0x80);
      var n := |Groups(bits / 0x80)|;
      hide Pow2;
      assert |Groups(bits)| == n + 1;
      SevenMore(7 * n);
      Pow2Values();
      if n > 1 {
        SevenMore(7 * (n - 1));
      }
    }
  }

  /** The bytes of a number are whole, and the last is zero only for zero. */
  lemma {:induction false} GroupsAreWhole(bits: nat)
    ensures Whole(Groups(bits)) && (bits > 0 ==> Groups(bits)[|Groups(bits)| - 1] != 0)
    decreases bits
  {
    if bits >= 0x80 {
      GroupsAreWhole(bits / 0x80);
      var rest := Groups(bits / 0x80);
      assert forall k :: 1 <= k < |Groups(bits)| ==> Groups(bits)[k] == rest[k - 1];
    }
  }

  lemma SevenMore(n: nat)
    ensures Pow2(n + 7) == 0x80 * Pow2(n)
  {
    assert Pow2(n + 1) == 2 * Pow2(n) && Pow2(n + 2) == 2 * Pow2(n + 1) && Pow2(n + 3) == 2 * Pow2(n + 2);
    assert Pow2(n + 4) == 2 * Pow2(n + 3) && Pow2(n + 5) == 2 * Pow2(n + 4) && Pow2(n + 6) == 2 * Pow2(n + 5);
  }

  lemma ShortReadsSmall(other: Bytes, value: int)
    requires Whole(other) && |other| <= 4 && ReadQuantity(other, 0).0 == value
    ensures 0 <= value < Pow2(7 * |other|) && (value < TWO_32 ==> Quantity(value) == Groups(value))
  {
    hide ReadGroups, Groups, OrGroup, Pow2;
    Pow2Values();
    FewBytesReadSmall(other, 0, 0);
  }

  /** No shorter group sequence reads as the same number. */
  lemma QuantityIsMinimal(value: int, other: Bytes)
    requires IsInt32(value) && Whole(other) && ReadQuantity(other, 0).0 == value
    ensures |Quantity(value)| <= |other|
  {
    QuantityIsShort(value);
    if |other| < |Quantity(value)| {
      ShortReadsSmall(other, value);
      hide *;
      GroupsNeedRoom(value);
      Pow2Grows(7 * |other|, 7 * (|Quantity(value)| - 1));
    }
  }
}
