/** The assumptions made about UTF-8, JSON text and base64 can be met together. */
module CodecWitness {
  // A codec that meets them: data is spelled in two characters, so that no data is the beginning of another, and the
  // texts UTF-8 does not carry are given up on decoding.

  import opened Buffers
  import opened Outcomes
  import opened Serialization
  import opened Texts

  const ONE: CodeUnit := 49
  const ZERO: CodeUnit := 48

  /** A number in unary, closed by a zero. */
  function Unary(n: nat): Text {
    if n == 0 then [ZERO] else [ONE] + Unary(n - 1)
  }

  function Units(text: Text): Text {
    if text == [] then [] else Unary(text[0]) + Units(text[1..])
  }

  function Word(text: Text): Text {
    Unary(|text|) + Units(text)
  }

  function Whole(value: int): Text {
    if value < 0 then Unary(1) + Unary(-value) else Unary(0) + Unary(value)
  }

  /** Some order of the keys. */
  ghost function Listed(keys: set<Text>): (list: seq<Text>)
    ensures forall key :: key in list <==> key in keys
  {
    if keys == {} then []
    else
      var key :| key in keys;
      [key] + Listed(keys - {key})
  }

  ghost function Spell(data: Data): Text
    decreases data, 1, 0
  {
    match data
    case Undefined => Unary(0)
    case Null => Unary(1)
    case Bool(flag) => Unary(2) + Unary(if flag then 1 else 0)
    case Int(value) => Unary(3) + Whole(value)
    case Fraction(digits) => Unary(4) + Word(digits)
    case String(text) => Unary(5) + Word(text)
    case Binary(_) => Unary(0)
    case Buffer(_) => Unary(0)
    case Array(items) => Unary(6) + (Unary(|items|) + SpellAll(data, 0))
    case Object(fields) => Unary(7) + (Unary(|Listed(fields.Keys)|) + SpellFields(data, Listed(fields.Keys)))
  }

  ghost function SpellAll(data: Data, k: nat): Text
    requires data.Array? && k <= |data.items|
    decreases data, 0, |data.items| - k
  {
    if k == |data.items| then [] else Spell(data.items[k]) + SpellAll(data, k + 1)
  }

  ghost function SpellFields(data: Data, keys: seq<Text>): Text
    requires data.Object? && forall key :: key in keys ==> key in data.fields
    decreases data, 0, |keys|
  {
    if keys == [] then [] else Word(keys[0]) + (Spell(data.fields[keys[0]]) + SpellFields(data, keys[1..]))
  }

  // ---------------------------------------------------------------------------------------------
  // No spelling is the beginning of another
  // ---------------------------------------------------------------------------------------------

  lemma Regroup(a: Text, b: Text, c: Text)
    ensures (a + b) + c == a + (b + c)
  {
  }

  lemma {:induction false} UnaryOnce(m: nat, n: nat, x: Text, y: Text)
    requires Unary(m) + x == Unary(n) + y
    ensures m == n && x == y
  {
    var left, right := Unary(m) + x, Unary(n) + y;
    assert left[0] == right[0];
    assert left[1..] == right[1..];
    if m == 0 {
      assert left[1..] == x && right[1..] == y;
    } else {
      assert left[1..] == Unary(m - 1) + x && right[1..] == Unary(n - 1) + y;
      UnaryOnce(m - 1, n - 1, x, y);
    }
  }

  lemma {:induction false} UnitsOnce(a: Text, b: Text, x: Text, y: Text)
    requires |a| == |b| && Units(a) + x == Units(b) + y
    ensures a == b && x == y
    decreases |a|
  {
    if a == [] {
      assert Units(a) + x == x && Units(b) + y == y;
    } else {
      Regroup(Unary(a[0]), Units(a[1..]), x);
      Regroup(Unary(b[0]), Units(b[1..]), y);
      UnaryOnce(a[0], b[0], Units(a[1..]) + x, Units(b[1..]) + y);
      UnitsOnce(a[1..], b[1..], x, y);
      assert a == [a[0]] + a[1..] && b == [b[0]] + b[1..];
    }
  }

  lemma WordOnce(a: Text, b: Text, x: Text, y: Text)
    requires Word(a) + x == Word(b) + y
    ensures a == b && x == y
  {
    Regroup(Unary(|a|), Units(a), x);
    Regroup(Unary(|b|), Units(b), y);
    UnaryOnce(|a|, |b|, Units(a) + x, Units(b) + y);
    UnitsOnce(a, b, x, y);
  }

  lemma WholeOnce(m: int, n: int, x: Text, y: Text)
    requires Whole(m) + x == Whole(n) + y
    ensures m == n && x == y
  {
    var p, q := if m < 0 then 1 else 0, if n < 0 then 1 else 0;
    var a, b := if m < 0 then -m else m, if n < 0 then -n else n;
    Regroup(Unary(p), Unary(a), x);
    Regroup(Unary(q), Unary(b), y);
    UnaryOnce(p, q, Unary(a) + x, Unary(b) + y);
    UnaryOnce(a, b, x, y);
  }

  function Tag(data: Data): nat {
    match data
    case Null => 1
    case Bool(_) => 2
    case Int(_) => 3
    case Fraction(_) => 4
    case String(_) => 5
    case Array(_) => 6
    case Object(_) => 7
    case _ => 0
  }

  ghost function Payload(data: Data): Text {
    match data
    case Bool(flag) => Unary(if flag then 1 else 0)
    case Int(value) => Whole(value)
    case Fraction(digits) => Word(digits)
    case String(text) => Word(text)
    case Array(items) => Unary(|items|) + SpellAll(data, 0)
    case Object(fields) => Unary(|Listed(fields.Keys)|) + SpellFields(data, Listed(fields.Keys))
    case _ => []
  }

  lemma SpellSplits(data: Data)
    ensures Spell(data) == Unary(Tag(data)) + Payload(data)
  {
    assert Unary(Tag(data)) + [] == Unary(Tag(data));
  }

  lemma {:induction false} SpellOnce(a: Data, b: Data, x: Text, y: Text)
    requires Jsonable(a) && Jsonable(b) && Spell(a) + x == Spell(b) + y
    ensures a == b && x == y
    decreases a, 1, 0
  {
    SpellSplits(a);
    SpellSplits(b);
    hide Spell;
    Regroup(Unary(Tag(a)), Payload(a), x);
    Regroup(Unary(Tag(b)), Payload(b), y);
    UnaryOnce(Tag(a), Tag(b), Payload(a) + x, Payload(b) + y);
    match a
    case Null => assert [] + x == x && [] + y == y;
    case Bool(flag) => UnaryOnce(if flag then 1 else 0, if b.flag then 1 else 0, x, y);
    case Int(value) => WholeOnce(value, b.value, x, y);
    case Fraction(digits) => WordOnce(digits, b.digits, x, y);
    case String(text) => WordOnce(text, b.text, x, y);
    case Array(items) => ArrayOnce(a, b, x, y);
    case Object(fields) => ObjectOnce(a, b, x, y);
  }

  lemma {:induction false} ArrayOnce(a: Data, b: Data, x: Text, y: Text)
    requires Jsonable(a) && Jsonable(b) && a.Array? && b.Array? && Payload(a) + x == Payload(b) + y
    ensures a == b && x == y
    decreases a, 0, |a.items| + 1
  {
    Regroup(Unary(|a.items|), SpellAll(a, 0), x);
    Regroup(Unary(|b.items|), SpellAll(b, 0), y);
    UnaryOnce(|a.items|, |b.items|, SpellAll(a, 0) + x, SpellAll(b, 0) + y);
    AllOnce(a, b, 0, x, y);
  }

  lemma {:induction false} ObjectOnce(a: Data, b: Data, x: Text, y: Text)
    requires Jsonable(a) && Jsonable(b) && a.Object? && b.Object? && Payload(a) + x == Payload(b) + y
    ensures a == b && x == y
    decreases a, 0, |Listed(a.fields.Keys)| + 1
  {
    hide Unary, SpellFields, Jsonable;
    var mine, others := Listed(a.fields.Keys), Listed(b.fields.Keys);
    Regroup(Unary(|mine|), SpellFields(a, mine), x);
    Regroup(Unary(|others|), SpellFields(b, others), y);
    UnaryOnce(|mine|, |others|, SpellFields(a, mine) + x, SpellFields(b, others) + y);
    FieldsOnce(a, b, mine, others, x, y);
    assert a.fields.Keys == b.fields.Keys && a.fields == b.fields;
  }

  lemma {:induction false} AllOnce(a: Data, b: Data, k: nat, x: Text, y: Text)
    requires Jsonable(a) && Jsonable(b) && a.Array? && b.Array? && |a.items| == |b.items| && k <= |a.items|
    requires SpellAll(a, k) + x == SpellAll(b, k) + y
    ensures x == y && forall i :: k <= i < |a.items| ==> a.items[i] == b.items[i]
    ensures k == 0 ==> a == b
    decreases a, 0, |a.items| - k
  {
    if k == |a.items| {
      assert [] + x == x && [] + y == y;
    } else {
      Regroup(Spell(a.items[k]), SpellAll(a, k + 1), x);
      Regroup(Spell(b.items[k]), SpellAll(b, k + 1), y);
      SpellOnce(a.items[k], b.items[k], SpellAll(a, k + 1) + x, SpellAll(b, k + 1) + y);
      AllOnce(a, b, k + 1, x, y);
    }
    assert k == 0 ==> a.items == b.items;
  }

  lemma {:induction false} FieldsOnce(a: Data, b: Data, mine: seq<Text>, others: seq<Text>, x: Text, y: Text)
    requires Jsonable(a) && Jsonable(b) && a.Object? && b.Object? && |mine| == |others|
    requires (forall key :: key in mine ==> key in a.fields) && (forall key :: key in others ==> key in b.fields)
    requires SpellFields(a, mine) + x == SpellFields(b, others) + y
    ensures x == y && mine == others && forall key :: key in mine ==> a.fields[key] == b.fields[key]
    decreases a, 0, |mine|
  {
    if mine == [] {
      assert [] + x == x && [] + y == y;
    } else {
      var p, q := a.fields[mine[0]], b.fields[others[0]];
      var r, s := SpellFields(a, mine[1..]), SpellFields(b, others[1..]);
      Regroup(Word(mine[0]), Spell(p) + r, x);
      Regroup(Word(others[0]), Spell(q) + s, y);
      Regroup(Spell(p), r, x);
      Regroup(Spell(q), s, y);
      WordOnce(mine[0], others[0], Spell(p) + (r + x), Spell(q) + (s + y));
      SpellOnce(p, q, r + x, s + y);
      FieldsOnce(a, b, mine[1..], others[1..], x, y);
      assert mine == [mine[0]] + mine[1..] && others == [others[0]] + others[1..];
    }
  }

  // ---------------------------------------------------------------------------------------------
  // The codec
  // ---------------------------------------------------------------------------------------------

  ghost predicate Digits(text: Text) {
    forall k :: 0 <= k < |text| ==> text[k] == ONE || text[k] == ZERO
  }

  lemma {:induction false} DigitsAreWellFormed(text: Text)
    requires Digits(text)
    ensures Paired(text) && WellFormed(text)
  {
    if text != [] {
      DigitsAreWellFormed(text[1..]);
    }
  }

  lemma UnaryDigits(n: nat)
    ensures Digits(Unary(n))
  {
  }

  lemma {:induction false} UnitsDigits(text: Text)
    ensures Digits(Units(text))
  {
    if text != [] {
      UnaryDigits(text[0]);
      UnitsDigits(text[1..]);
    }
  }

  lemma {:induction false} SpellDigits(data: Data)
    ensures Digits(Spell(data))
    decreases data, 1, 0
  {
    SpellSplits(data);
    hide Spell;
    UnaryDigits(Tag(data));
    match data
    case Bool(flag) => UnaryDigits(if flag then 1 else 0);
    case Int(value) =>
      UnaryDigits(if value < 0 then 1 else 0);
      UnaryDigits(if value < 0 then -value else value);
    case Fraction(digits) => WordDigits(digits);
    case String(text) => WordDigits(text);
    case Array(items) =>
      UnaryDigits(|items|);
      AllDigits(data, 0);
    case Object(fields) =>
      UnaryDigits(|Listed(fields.Keys)|);
      FieldsDigits(data, Listed(fields.Keys));
    case _ =>
  }

  lemma WordDigits(text: Text)
    ensures Digits(Word(text))
  {
    UnaryDigits(|text|);
    UnitsDigits(text);
  }

  lemma {:induction false} AllDigits(data: Data, k: nat)
    requires data.Array? && k <= |data.items|
    ensures Digits(SpellAll(data, k))
    decreases data, 0, |data.items| - k
  {
    if k < |data.items| {
      SpellDigits(data.items[k]);
      AllDigits(data, k + 1);
    }
  }

  lemma {:induction false} FieldsDigits(data: Data, keys: seq<Text>)
    requires data.Object? && forall key :: key in keys ==> key in data.fields
    ensures Digits(SpellFields(data, keys))
    decreases data, 0, |keys|
  {
    if keys != [] {
      WordDigits(keys[0]);
      SpellDigits(data.fields[keys[0]]);
      FieldsDigits(data, keys[1..]);
    }
  }

  ghost function Read(text: Text): Option<Data> {
    if exists data :: Jsonable(data) && Spell(data) == text then
      var data :| Jsonable(data) && Spell(data) == text;
      Some(data)
    else None
  }

  lemma ReadSpelled(data: Data)
    requires Jsonable(data)
    ensures Read(Spell(data)) == Some(data)
  {
    var back := Read(Spell(data)).value;
    assert Spell(back) + [] == Spell(data) + [];
    SpellOnce(back, data, [], []);
  }

  /** Every code unit as two octets. */
  function Octets(text: Text): Bytes {
    if text == [] then [] else [text[0] / 0x100, text[0] % 0x100] + Octets(text[1..])
  }

  function FromOctets(bytes: Bytes): Text {
    if |bytes| < 2 then []
    else
      var high: int, low: int := bytes[0], bytes[1];
      [high * 0x100 + low] + FromOctets(bytes[2..])
  }

  lemma {:induction false} OctetsReturn(text: Text)
    ensures FromOctets(Octets(text)) == text
  {
    if text != [] {
      var octets := Octets(text);
      assert octets[2..] == Octets(text[1..]);
      OctetsReturn(text[1..]);
    }
  }

  /** The decoder gives up on a text that is not well-formed. */
  function Decoded(bytes: Bytes): Text {
    if WellFormed(FromOctets(bytes)) then FromOctets(bytes) else []
  }

  function OctetText(bytes: Bytes): (text: Text)
    ensures |text| == |bytes| && forall k :: 0 <= k < |bytes| ==> text[k] == bytes[k]
  {
    seq(|bytes|, k requires 0 <= k < |bytes| => bytes[k])
  }

  function TextOctets(text: Text): (bytes: Bytes)
    ensures |bytes| == |text| && forall k :: 0 <= k < |text| && text[k] < 0x100 ==> bytes[k] == text[k]
  {
    seq(|text|, k requires 0 <= k < |text| => if text[k] < 0x100 then text[k] else 0)
  }

  ghost function Witness(): Codec {
    Codec(text => Octets(text), bytes => Decoded(bytes), data => Spell(data), text => Read(text),
          bytes => OctetText(bytes), text => TextOctets(text))
  }

  /** So the theorems about `Faithful` codecs speak of something. */
  lemma AFaithfulCodecExists()
    ensures Faithful(Witness())
  {
    var codec := Witness();
    forall text
      ensures codec.fromUtf8(codec.toUtf8(text)) == text <==> WellFormed(text)
    {
      OctetsReturn(text);
    }
    forall data | Jsonable(data)
      ensures WellFormed(codec.stringify(data)) && codec.parse(codec.stringify(data)) == Some(data)
    {
      SpellDigits(data);
      DigitsAreWellFormed(Spell(data));
      ReadSpelled(data);
    }
    forall bytes
      ensures codec.fromBase64(codec.toBase64(bytes)) == bytes
    {
      assert TextOctets(OctetText(bytes)) == bytes;
    }
  }
}
