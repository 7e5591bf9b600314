/** The tagged binary values of packages/rpc/src/serialization.ts, both directions. */
module Serialization {
  import opened Buffers
  import opened Outcomes
  import opened Quantities
  import opened Sequences
  import opened Texts

  /**
   * The values the protocol carries: JavaScript data with octet arrays and buffers among them. A number is an
   * integer or, with a fractional part, its decimal text.
   */
  datatype Data =
    | Undefined
    | Null
    | Bool(flag: bool)
    | Int(value: int)
    | Fraction(digits: Text)
    | String(text: Text)
    | Binary(bytes: Bytes)
    | Buffer(bytes: Bytes)
    | Array(items: seq<Data>)
    | Object(fields: map<Text, Data>)

  /** UTF-8, JSON text and base64 are taken as given. */
  datatype Codec = Codec(
    toUtf8: Text -> Bytes,
    fromUtf8: Bytes -> Text,
    stringify: Data -> Text,
    parse: Text -> Option<Data>,
    toBase64: Bytes -> Text,
    fromBase64: Text -> Bytes)

  /** No lone surrogate: every high one is followed by a low one and every low one follows a high one. */
  predicate Paired(text: Text)
    decreases |text|
  {
    if text == [] then true
    else if 0xD800 <= text[0] <= 0xDBFF then |text| > 1 && 0xDC00 <= text[1] <= 0xDFFF && Paired(text[2..])
    else !(0xDC00 <= text[0] <= 0xDFFF) && Paired(text[1..])
  }

  /** What survives UTF-8 (RFC 3629) and a decoder that drops a leading byte-order mark. */
  predicate WellFormed(text: Text) {
    Paired(text) && (text != [] ==> text[0] != 0xFEFF)
  }

  /** Data JSON text can hold: no undefined, no octets. */
  ghost predicate Jsonable(data: Data)
    decreases data
  {
    match data
    case Undefined => false
    case Binary(_) => false
    case Buffer(_) => false
    case Array(items) => forall k :: 0 <= k < |items| ==> Jsonable(items[k])
    case Object(fields) => forall key :: key in fields ==> Jsonable(fields[key])
    case _ => true
  }

  /** The three pairs are inverse where they can be: UTF-8 exactly on well-formed texts. */
  ghost predicate Faithful(codec: Codec) {
    && (forall text :: codec.fromUtf8(codec.toUtf8(text)) == text <==> WellFormed(text))
    && (forall data :: Jsonable(data) ==> WellFormed(codec.stringify(data)) && codec.parse(codec.stringify(data)) == Some(data))
    && (forall bytes :: codec.fromBase64(codec.toBase64(bytes)) == bytes)
  }

  /** "__zcode_rpc_nested_uint8array_v1" */
  const MARKER: Text := [
    95, 95, 122, 99, 111, 100, 101, 95, 114, 112, 99, 95, 110, 101, 115, 116, 101, 100, 95,
    117, 105, 110, 116, 56, 97, 114, 114, 97, 121, 95, 118, 49]

  /** "base64" */
  const BASE64: Text := [98, 97, 115, 101, 54, 52]

  /** "buffer" */
  const BUFFER: Text := [98, 117, 102, 102, 101, 114]

  /** "byteLength" */
  const BYTE_LENGTH: Text := [98, 121, 116, 101, 76, 101, 110, 103, 116, 104]

  // ---------------------------------------------------------------------------------------------
  // Nested octet arrays in JSON
  // ---------------------------------------------------------------------------------------------

  /** What `JSON.stringify` makes of the data with the replacer: octet arrays marked, undefined members dropped. */
  function EncodeNested(codec: Codec, data: Data): (json: Data)
    ensures json.Array? ==> data.Array?
    decreases data
  {
    match data
    case Undefined => Null
    case Binary(bytes) => Marked(codec, bytes)
    case Buffer(bytes) => Object(map[BUFFER := Marked(codec, bytes), BYTE_LENGTH := Int(|bytes|)])
    case Array(items) => Array(seq(|items|, k requires 0 <= k < |items| => EncodeNested(codec, items[k])))
    case Object(fields) => Object(map key | key in fields && !fields[key].Undefined? :: EncodeNested(codec, fields[key]))
    case _ => data
  }

  function Marked(codec: Codec, bytes: Bytes): Data {
    Object(map[MARKER := Bool(true), BASE64 := String(codec.toBase64(bytes))])
  }

  /** The exact two-key shape of a marked octet array. */
  predicate IsMarked(data: Data) {
    && data.Object? && data.fields.Keys == {MARKER, BASE64}
    && data.fields[MARKER] == Bool(true) && data.fields[BASE64].String?
  }

  /** What the reviver of `JSON.parse` makes of it, members first. */
  function DecodeNested(codec: Codec, json: Data): Data
    decreases json
  {
    match json
    case Array(items) => Array(seq(|items|, k requires 0 <= k < |items| => DecodeNested(codec, items[k])))
    case Object(fields) => Revive(codec, Object(map key | key in fields :: DecodeNested(codec, fields[key])))
    case _ => json
  }

  function Revive(codec: Codec, data: Data): Data {
    if IsMarked(data) then Binary(codec.fromBase64(data.fields[BASE64].text)) else data
  }

  /** Nothing JSON cannot hold except octet arrays, and no object that looks like a marked one. */
  ghost predicate Restorable(data: Data)
    decreases data
  {
    match data
    case Undefined => false
    case Buffer(_) => false
    case Array(items) => forall k :: 0 <= k < |items| ==> Restorable(items[k])
    case Object(fields) => !IsMarked(data) && forall key :: key in fields ==> Restorable(fields[key])
    case _ => true
  }

  lemma {:induction false} EncodedIsJsonable(codec: Codec, data: Data)
    ensures Jsonable(EncodeNested(codec, data))
    decreases data
  {
    match data
    case Array(items) =>
      forall k | 0 <= k < |items|
        ensures Jsonable(EncodeNested(codec, items[k]))
      {
        EncodedIsJsonable(codec, items[k]);
      }
    case Object(fields) =>
      forall key | key in fields
        ensures Jsonable(EncodeNested(codec, fields[key]))
      {
        EncodedIsJsonable(codec, fields[key]);
      }
    case Binary(bytes) => MarkedIsJsonable(codec, bytes);
    case Buffer(bytes) => MarkedIsJsonable(codec, bytes);
    case _ =>
  }

  lemma MarkedIsJsonable(codec: Codec, bytes: Bytes)
    ensures Jsonable(Marked(codec, bytes))
  {
    var fields := Marked(codec, bytes).fields;
    forall key | key in fields
      ensures Jsonable(fields[key])
    {
    }
  }

  lemma MarkedIsRevived(codec: Codec, bytes: Bytes)
    requires Faithful(codec)
    ensures DecodeNested(codec, Marked(codec, bytes)) == Binary(bytes)
  {
    var marked := Marked(codec, bytes);
    var decoded := Object(map key | key in marked.fields :: DecodeNested(codec, marked.fields[key]));
    assert MARKER != BASE64 by {
      assert |MARKER| == 32 && |BASE64| == 6;
    }
    assert decoded.fields.Keys == {MARKER, BASE64};
    assert IsMarked(decoded);
  }

  /** Encoding and reviving gives a value back exactly when it is restorable. */
  lemma {:induction false} RestoredExactlyWhen(codec: Codec, data: Data)
    requires Faithful(codec)
    ensures DecodeNested(codec, EncodeNested(codec, data)) == data <==> Restorable(data)
    decreases data
  {
    match data
    case Binary(bytes) => MarkedIsRevived(codec, bytes);
    case Array(items) => ArrayRestored(codec, data);
    case Object(fields) => ObjectRestored(codec, data);
    case Buffer(bytes) => NoBufferIsRevived(codec, EncodeNested(codec, data));
    case _ =>
  }

  lemma {:induction false} NoBufferIsRevived(codec: Codec, json: Data)
    requires json.Object?
    ensures !DecodeNested(codec, json).Buffer?
  {
  }

  lemma {:induction false} ArrayRestored(codec: Codec, data: Data)
    requires Faithful(codec) && data.Array?
    ensures DecodeNested(codec, EncodeNested(codec, data)) == data <==> Restorable(data)
    decreases data, 0
  {
    var items := data.items;
    var result := DecodeNested(codec, EncodeNested(codec, data)).items;
    forall k | 0 <= k < |items|
      ensures result[k] == items[k] <==> Restorable(items[k])
    {
      RestoredExactlyWhen(codec, items[k]);
      assert EncodeNested(codec, data).items[k] == EncodeNested(codec, items[k]);
    }
    assert result == items <==> forall k :: 0 <= k < |items| ==> result[k] == items[k];
  }

  lemma {:induction false} ObjectRestored(codec: Codec, data: Data)
    requires Faithful(codec) && data.Object?
    ensures DecodeNested(codec, EncodeNested(codec, data)) == data <==> Restorable(data)
    decreases data, 0
  {
    var fields := data.fields;
    forall key | key in fields
      ensures DecodeNested(codec, EncodeNested(codec, fields[key])) == fields[key] <==> Restorable(fields[key])
    {
      RestoredExactlyWhen(codec, fields[key]);
    }
    FieldsRestored(codec, data);
    hide Faithful, DecodeNested, EncodeNested, IsMarked;
  }

  /** The members decide, unless the object as a whole looks like a marked octet array. */
  lemma FieldsRestored(codec: Codec, data: Data)
    requires data.Object?
    ensures DecodeNested(codec, EncodeNested(codec, data)) == data
       <==> !IsMarked(data)
            && forall key :: key in data.fields ==>
                 !data.fields[key].Undefined? && DecodeNested(codec, EncodeNested(codec, data.fields[key])) == data.fields[key]
  {
    hide IsMarked;
    var fields := data.fields;
    var encoded := EncodeNested(codec, data).fields;
    var decoded := map key | key in encoded :: DecodeNested(codec, encoded[key]);
    assert DecodeNested(codec, EncodeNested(codec, data)) == Revive(codec, Object(decoded));
    assert forall key :: key in fields && !fields[key].Undefined? <==> key in decoded;
    assert forall key :: key in decoded ==> decoded[key] == DecodeNested(codec, EncodeNested(codec, fields[key]));
    hide EncodeNested, DecodeNested;
    MapsAgree(fields, decoded);
  }

  lemma MapsAgree(fields: map<Text, Data>, decoded: map<Text, Data>)
    requires forall key :: key in decoded ==> key in fields
    ensures decoded == fields <==> forall key :: key in fields ==> key in decoded && decoded[key] == fields[key]
  {
  }

  /**
   * What a value inside an object is at the other end: an array's undefined elements are null and an object's undefined
   * members gone, a buffer is an object of its octets and their number, a marked shape is octets, all else as it was.
   */
  function Arriving(codec: Codec, data: Data): Data
    decreases data
  {
    match data
    case Undefined => Null
    case Buffer(bytes) => Object(map[BUFFER := Binary(bytes), BYTE_LENGTH := Int(|bytes|)])
    case Array(items) => Array(seq(|items|, k requires 0 <= k < |items| => Arriving(codec, items[k])))
    case Object(fields) => ArrivingObject(codec, map key | key in fields && !fields[key].Undefined? :: Arriving(codec, fields[key]))
    case _ => data
  }

  function ArrivingObject(codec: Codec, fields: map<Text, Data>): Data {
    if fields.Keys == {MARKER, BASE64} && fields[MARKER] == Bool(true) && fields[BASE64].String?
    then Binary(codec.fromBase64(fields[BASE64].text)) else Object(fields)
  }

  /** Over every value, restorable or not: encoding and reviving gives what should arrive. */
  lemma {:induction false} NestedArrives(codec: Codec, data: Data)
    requires Faithful(codec)
    ensures DecodeNested(codec, EncodeNested(codec, data)) == Arriving(codec, data)
    decreases data
  {
    match data
    case Binary(bytes) => MarkedIsRevived(codec, bytes);
    case Buffer(bytes) => NestedBufferArrives(codec, bytes);
    case Array(items) => NestedArrayArrives(codec, data);
    case Object(fields) => NestedObjectArrives(codec, data);
    case _ =>
  }

  lemma NestedBufferArrives(codec: Codec, bytes: Bytes)
    requires Faithful(codec)
    ensures DecodeNested(codec, EncodeNested(codec, Buffer(bytes))) == Arriving(codec, Buffer(bytes))
  {
    MarkedIsRevived(codec, bytes);
    BufferIsNoMarker();
    BufferRevived(codec, Marked(codec, bytes), bytes);
    hide DecodeNested, Faithful, Marked;
  }

  lemma BufferIsNoMarker()
    ensures BUFFER != MARKER && BUFFER != BASE64 && BUFFER != BYTE_LENGTH
  {
    assert |BUFFER| == 6 && |BYTE_LENGTH| == 10 && |MARKER| == 32 && BUFFER[1] == 117 && BASE64[1] == 97;
  }

  lemma BufferRevived(codec: Codec, marked: Data, bytes: Bytes)
    requires DecodeNested(codec, marked) == Binary(bytes) && BUFFER != MARKER && BUFFER != BASE64 && BUFFER != BYTE_LENGTH
    ensures DecodeNested(codec, Object(map[BUFFER := marked, BYTE_LENGTH := Int(|bytes|)]))
         == Object(map[BUFFER := Binary(bytes), BYTE_LENGTH := Int(|bytes|)])
  {
    var fields := map[BUFFER := marked, BYTE_LENGTH := Int(|bytes|)];
    hide IsMarked;
    var decoded := map key | key in fields :: DecodeNested(codec, fields[key]);
    assert DecodeNested(codec, fields[BYTE_LENGTH]) == Int(|bytes|);
    assert DecodeNested(codec, Object(fields)) == Revive(codec, Object(decoded));
    hide DecodeNested;
    RevivedObject(codec, decoded);
    assert decoded == map[BUFFER := Binary(bytes), BYTE_LENGTH := Int(|bytes|)];
    assert BUFFER in decoded.Keys;
  }

  lemma {:induction false} NestedArrayArrives(codec: Codec, data: Data)
    requires Faithful(codec) && data.Array?
    ensures DecodeNested(codec, EncodeNested(codec, data)) == Arriving(codec, data)
    decreases data, 0
  {
    var items := data.items;
    var result := DecodeNested(codec, EncodeNested(codec, data)).items;
    forall k | 0 <= k < |items|
      ensures result[k] == Arriving(codec, items[k])
    {
      NestedArrives(codec, items[k]);
      assert EncodeNested(codec, data).items[k] == EncodeNested(codec, items[k]);
    }
  }

  lemma {:induction false} NestedObjectArrives(codec: Codec, data: Data)
    requires Faithful(codec) && data.Object?
    ensures DecodeNested(codec, EncodeNested(codec, data)) == Arriving(codec, data)
    decreases data, 0
  {
    hide Faithful, DecodeNested, EncodeNested, Arriving;
    var fields := data.fields;
    forall key | key in fields
      ensures DecodeNested(codec, EncodeNested(codec, fields[key])) == Arriving(codec, fields[key])
    {
      NestedArrives(codec, fields[key]);
    }
    var decoded := DecodedFields(codec, fields);
    var arriving := ArrivingFields(codec, fields);
    hide *;
    SameFields(fields, decoded, arriving);
    RevivedObject(codec, arriving);
  }

  lemma DecodedFields(codec: Codec, fields: map<Text, Data>) returns (decoded: map<Text, Data>)
    ensures DecodeNested(codec, EncodeNested(codec, Object(fields))) == Revive(codec, Object(decoded))
    ensures forall key :: key in decoded <==> key in fields && !fields[key].Undefined?
    ensures forall key :: key in decoded ==> decoded[key] == DecodeNested(codec, EncodeNested(codec, fields[key]))
  {
    hide IsMarked;
    var encoded := EncodeNested(codec, Object(fields)).fields;
    decoded := map key | key in encoded :: DecodeNested(codec, encoded[key]);
    assert DecodeNested(codec, EncodeNested(codec, Object(fields))) == Revive(codec, Object(decoded));
  }

  lemma ArrivingFields(codec: Codec, fields: map<Text, Data>) returns (arriving: map<Text, Data>)
    ensures Arriving(codec, Object(fields)) == ArrivingObject(codec, arriving)
    ensures forall key :: key in arriving <==> key in fields && !fields[key].Undefined?
    ensures forall key :: key in arriving ==> arriving[key] == Arriving(codec, fields[key])
  {
    hide ArrivingObject;
    arriving := map key | key in fields && !fields[key].Undefined? :: Arriving(codec, fields[key]);
  }

  lemma SameFields(fields: map<Text, Data>, a: map<Text, Data>, b: map<Text, Data>)
    requires forall key :: key in a <==> key in fields && !fields[key].Undefined?
    requires forall key :: key in b <==> key in fields && !fields[key].Undefined?
    requires forall key :: key in a && key in b ==> a[key] == b[key]
    ensures a == b
  {
  }

  lemma RevivedObject(codec: Codec, fields: map<Text, Data>)
    ensures Revive(codec, Object(fields)) == ArrivingObject(codec, fields)
  {
  }

  // ---------------------------------------------------------------------------------------------
  // Tagged values
  // ---------------------------------------------------------------------------------------------

  /** A tag, a length and that many octets. */
  function Block(tag: Byte, bytes: Bytes): (out: Bytes)
    ensures out != []
  {
    [tag] + Quantity(|bytes|) + bytes
  }

  function Serialize(codec: Codec, data: Data): (out: Bytes)
    ensures out != []
    decreases data
  {
    match data
    case Undefined => [0]
    case String(text) => Block(1, codec.toUtf8(text))
    case Binary(bytes) => Block(2, bytes)
    case Buffer(bytes) => Block(3, bytes)
    case Array(items) => [4] + Quantity(|items|) + SerializeMany(codec, items)
    case Int(value) => if IsInt32(value) then [6] + Quantity(value) else Block(5, JsonBytes(codec, data))
    case _ => Block(5, JsonBytes(codec, data))
  }

  function JsonBytes(codec: Codec, data: Data): Bytes {
    codec.toUtf8(codec.stringify(EncodeNested(codec, data)))
  }

  function SerializeMany(codec: Codec, items: seq<Data>): Bytes
    decreases items
  {
    if items == [] then [] else Serialize(codec, items[0]) + SerializeMany(codec, items[1..])
  }

  datatype Malformed = Malformed(text: Text)

  /** A quantity and that many octets, as far as there are any. */
  function ReadBlock(bytes: Bytes, pos: nat): (r: (Bytes, nat))
    requires pos <= |bytes|
    ensures pos <= r.1 <= |bytes|
  {
    var (length, start) := ReadQuantity(bytes, pos);
    var end := SliceEnd(|bytes|, start, length);
    (bytes[start..end], end)
  }

  /** Past the end there is no tag, which no case of the source's switch matches: it yields undefined. */
  function Deserialize(codec: Codec, bytes: Bytes, pos: nat): (r: Result<(Data, nat), Malformed>)
    requires pos <= |bytes|
    ensures r.Ok? ==> pos <= r.value.1 <= |bytes|
    decreases |bytes| - pos, 0, 0
  {
    if pos == |bytes| then Ok((Undefined, pos))
    else
      match bytes[pos]
      case 1 => var (block, end) := ReadBlock(bytes, pos + 1); Ok((String(codec.fromUtf8(block)), end))
      case 2 => var (block, end) := ReadBlock(bytes, pos + 1); Ok((Binary(block), end))
      case 3 => var (block, end) := ReadBlock(bytes, pos + 1); Ok((Buffer(block), end))
      case 4 =>
        var (length, start) := ReadQuantity(bytes, pos + 1);
        (match DeserializeMany(codec, bytes, start, if length < 0 then 0 else length)
         case Err(e) => Err(e)
         case Ok((items, end)) => Ok((Array(items), end)))
      case 5 =>
        var (block, end) := ReadBlock(bytes, pos + 1);
        (match codec.parse(codec.fromUtf8(block))
         case None => Err(Malformed(codec.fromUtf8(block)))
         case Some(json) => Ok((DecodeNested(codec, json), end)))
      case 6 => var (value, end) := ReadQuantity(bytes, pos + 1); Ok((Int(value), end))
      case _ => Ok((Undefined, pos + 1))
  }

  function DeserializeMany(codec: Codec, bytes: Bytes, pos: nat, count: nat): (r: Result<(seq<Data>, nat), Malformed>)
    requires pos <= |bytes|
    ensures r.Ok? ==> pos <= r.value.1 <= |bytes|
    decreases |bytes| - pos, 1, count
  {
    if count == 0 then Ok(([], pos))
    else
      match Deserialize(codec, bytes, pos)
      case Err(e) => Err(e)
      case Ok((item, next)) => Prepend([item], DeserializeMany(codec, bytes, next, count - 1))
  }

  function Prepend(items: seq<Data>, r: Result<(seq<Data>, nat), Malformed>): Result<(seq<Data>, nat), Malformed> {
    match r
    case Err(e) => Err(e)
    case Ok((rest, end)) => Ok((items + rest, end))
  }

  // ---------------------------------------------------------------------------------------------
  // What arrives
  // ---------------------------------------------------------------------------------------------

  /** Every length the format writes is below 2^31. */
  ghost predicate Short(codec: Codec, data: Data)
    decreases data
  {
    match data
    case Undefined => true
    case String(text) => |codec.toUtf8(text)| < 0x8000_0000
    case Binary(bytes) => |bytes| < 0x8000_0000
    case Buffer(bytes) => |bytes| < 0x8000_0000
    case Array(items) => |items| < 0x8000_0000 && forall k :: 0 <= k < |items| ==> Short(codec, items[k])
    case Int(value) => IsInt32(value) || |JsonBytes(codec, data)| < 0x8000_0000
    case _ => |JsonBytes(codec, data)| < 0x8000_0000
  }

  /** The value at the other end: texts as UTF-8 leaves them, objects as JSON does. */
  function Received(codec: Codec, data: Data): Data
    decreases data
  {
    match data
    case String(text) => String(codec.fromUtf8(codec.toUtf8(text)))
    case Array(items) => Array(ReceivedMany(codec, items))
    case Object(_) => DecodeNested(codec, EncodeNested(codec, data))
    case _ => data
  }

  function ReceivedMany(codec: Codec, items: seq<Data>): (received: seq<Data>)
    ensures |received| == |items|
    ensures forall k :: 0 <= k < |items| ==> received[k] == Received(codec, items[k])
    decreases items
  {
    if items == [] then [] else [Received(codec, items[0])] + ReceivedMany(codec, items[1..])
  }

  lemma BlockReads(bytes: Bytes, pos: nat, tag: Byte, block: Bytes)
    requires Stands(bytes, pos, Block(tag, block)) && |block| < 0x8000_0000
    ensures pos < |bytes| && bytes[pos] == tag
    ensures ReadBlock(bytes, pos + 1) == (block, pos + |Block(tag, block)|)
  {
    StandsSplit(bytes, pos, [tag] + Quantity(|block|), block);
    TagReads(bytes, pos, tag, |block|);
  }

  lemma TagReads(bytes: Bytes, pos: nat, tag: Byte, value: int)
    requires Stands(bytes, pos, [tag] + Quantity(value)) && IsInt32(value)
    ensures pos < |bytes| && bytes[pos] == tag
    ensures ReadQuantity(bytes, pos + 1) == (value, pos + 1 + |Quantity(value)|)
  {
    StandsFirst(bytes, pos, [tag] + Quantity(value));
    assert ([tag] + Quantity(value))[1..] == Quantity(value);
    QuantityRoundTrip(bytes, pos + 1, value);
  }

  /** Deserializing at `pos` yields the value and stops at `end`. */
  ghost predicate Arrives(codec: Codec, bytes: Bytes, pos: nat, data: Data, end: nat) {
    pos <= |bytes| && Deserialize(codec, bytes, pos) == Ok((data, end))
  }

  ghost predicate AllArrive(codec: Codec, bytes: Bytes, pos: nat, items: seq<Data>, end: nat) {
    pos <= |bytes| && DeserializeMany(codec, bytes, pos, |items|) == Ok((items, end))
  }

  /**
   * Deserializing a serialized value followed by any octets returns what should arrive and leaves exactly
   * those octets, so values serialized back to back are read back to back.
   */
  lemma {:induction false} SerializedArrives(codec: Codec, data: Data, bytes: Bytes, pos: nat)
    requires Faithful(codec) && Short(codec, data) && Stands(bytes, pos, Serialize(codec, data))
    ensures Arrives(codec, bytes, pos, Received(codec, data), pos + |Serialize(codec, data)|)
    decreases data, 1
  {
    hide Faithful, Stands, ReadQuantity, ReadBlock, Quantity, Block;
    match data
    case Array(items) => ArrayArrives(codec, items, bytes, pos);
    case Int(value) =>
      if IsInt32(value) {
        TagReads(bytes, pos, 6, value);
      } else {
        JsonArrives(codec, data, bytes, pos);
      }
    case String(text) => BlockReads(bytes, pos, 1, codec.toUtf8(text));
    case Binary(block) => BlockReads(bytes, pos, 2, block);
    case Buffer(block) => BlockReads(bytes, pos, 3, block);
    case Undefined => StandsFirst(bytes, pos, [0]);
    case _ => JsonArrives(codec, data, bytes, pos);
  }

  lemma JsonArrives(codec: Codec, data: Data, bytes: Bytes, pos: nat)
    requires Faithful(codec) && Stands(bytes, pos, Block(5, JsonBytes(codec, data))) && |JsonBytes(codec, data)| < 0x8000_0000
    ensures Arrives(codec, bytes, pos, DecodeNested(codec, EncodeNested(codec, data)), pos + |Block(5, JsonBytes(codec, data))|)
  {
    hide Block, ReadBlock, Stands, EncodeNested, DecodeNested, JsonBytes, Faithful;
    BlockReads(bytes, pos, 5, JsonBytes(codec, data));
    JsonReads(codec, data);
  }

  lemma JsonReads(codec: Codec, data: Data)
    requires Faithful(codec)
    ensures codec.parse(codec.fromUtf8(JsonBytes(codec, data))) == Some(EncodeNested(codec, data))
  {
    hide EncodeNested, Jsonable, WellFormed;
    EncodedIsJsonable(codec, data);
    var json := EncodeNested(codec, data);
    assert WellFormed(codec.stringify(json)) && codec.parse(codec.stringify(json)) == Some(json);
    assert codec.fromUtf8(codec.toUtf8(codec.stringify(json))) == codec.stringify(json);
  }

  lemma {:induction false} ArrayArrives(codec: Codec, items: seq<Data>, bytes: Bytes, pos: nat)
    requires Faithful(codec) && |items| < 0x8000_0000 && forall k :: 0 <= k < |items| ==> Short(codec, items[k])
    requires Stands(bytes, pos, [4] + Quantity(|items|) + SerializeMany(codec, items))
    ensures Arrives(codec, bytes, pos, Array(ReceivedMany(codec, items)),
                    pos + |[4] + Quantity(|items|) + SerializeMany(codec, items)|)
    decreases items, 1
  {
    hide Quantity, ReadQuantity, Stands, SerializeMany, ReceivedMany, Short, Faithful;
    StandsSplit(bytes, pos, [4] + Quantity(|items|), SerializeMany(codec, items));
    TagReads(bytes, pos, 4, |items|);
    ManyArrive(codec, items, bytes, pos + 1 + |Quantity(|items|)|);
  }

  lemma {:induction false} ManyArrive(codec: Codec, items: seq<Data>, bytes: Bytes, pos: nat)
    requires Faithful(codec) && forall k :: 0 <= k < |items| ==> Short(codec, items[k])
    requires Stands(bytes, pos, SerializeMany(codec, items))
    ensures AllArrive(codec, bytes, pos, ReceivedMany(codec, items), pos + |SerializeMany(codec, items)|)
    decreases items, 0
  {
    hide Short, Faithful, Serialize, Received;
    if items != [] {
      var next := pos + |Serialize(codec, items[0])|;
      StandsSplit(bytes, pos, Serialize(codec, items[0]), SerializeMany(codec, items[1..]));
      hide Stands;
      SerializedArrives(codec, items[0], bytes, pos);
      ManyArrive(codec, items[1..], bytes, next);
      OneMoreArrives(codec, Received(codec, items[0]), ReceivedMany(codec, items[1..]), bytes, pos, next,
                     pos + |SerializeMany(codec, items)|);
    }
  }

  lemma OneMoreArrives(codec: Codec, item: Data, items: seq<Data>, bytes: Bytes, pos: nat, next: nat, end: nat)
    requires Arrives(codec, bytes, pos, item, next) && AllArrive(codec, bytes, next, items, end)
    ensures AllArrive(codec, bytes, pos, [item] + items, end)
  {
    hide Deserialize;
  }

  /** Data the format carries unchanged. */
  ghost predicate Sendable(data: Data)
    decreases data
  {
    match data
    case String(text) => WellFormed(text)
    case Array(items) => forall k :: 0 <= k < |items| ==> Sendable(items[k])
    case Object(_) => Restorable(data)
    case _ => true
  }

  /** What arrives is what was sent exactly when it is sendable. */
  lemma {:induction false} ReceivedExactlyWhen(codec: Codec, data: Data)
    requires Faithful(codec)
    ensures Received(codec, data) == data <==> Sendable(data)
    decreases data
  {
    match data
    case Object(_) => RestoredExactlyWhen(codec, data);
    case Array(items) =>
      forall k | 0 <= k < |items|
        ensures Received(codec, items[k]) == items[k] <==> Sendable(items[k])
      {
        ReceivedExactlyWhen(codec, items[k]);
      }
      var received := ReceivedMany(codec, items);
      assert received == items <==> forall k :: 0 <= k < |items| ==> received[k] == items[k];
    case _ =>
  }

  /** A message is a serialized header and a serialized body; both are read back, with nothing left over. */
  lemma MessageRoundTrip(codec: Codec, header: Data, body: Data)
    requires Faithful(codec) && Short(codec, header) && Short(codec, body)
    ensures var first, second := Serialize(codec, header), Serialize(codec, body);
            && Deserialize(codec, first + second, 0) == Ok((Received(codec, header), |first|))
            && Deserialize(codec, first + second, |first|) == Ok((Received(codec, body), |first + second|))
  {
    hide Serialize, Deserialize, Received, Short, Faithful;
    var first, second := Serialize(codec, header), Serialize(codec, body);
    assert Stands(first + second, 0, first + second);
    StandsSplit(first + second, 0, first, second);
    SerializedArrives(codec, header, first + second, 0);
    SerializedArrives(codec, body, first + second, |first|);
  }

  // What the first octet says, and the end of the input

  /** The tag a value is written under. */
  function TagOf(data: Data): Byte {
    match data
    case Undefined => 0
    case String(_) => 1
    case Binary(_) => 2
    case Buffer(_) => 3
    case Array(_) => 4
    case Int(value) => if -0x8000_0000 <= value < 0x8000_0000 then 6 else 5
    case _ => 5
  }

  lemma TagsAre(codec: Codec, data: Data)
    ensures Serialize(codec, data)[0] == TagOf(data)
  {
    hide Quantity;
  }

  /** Where the input ends, and behind a tag there is no value for, stands undefined; nothing more is consumed. */
  lemma OtherwiseUndefined(codec: Codec, bytes: Bytes, pos: nat)
    requires pos <= |bytes| && (pos < |bytes| ==> bytes[pos] > 6)
    ensures Arrives(codec, bytes, pos, Undefined, if pos < |bytes| then pos + 1 else pos)
  {
  }

  // Long blocks

  /** However long a block is: its length arrives as a signed 32-bit number, and as much is cut out of the input. */
  lemma BlockOfAnyLengthReads(bytes: Bytes, pos: nat, tag: Byte, block: Bytes)
    requires Stands(bytes, pos, Block(tag, block))
    ensures var start := pos + 1 + |Quantity(|block|)|;
            var end := SliceEnd(|bytes|, start, ToInt32(|block| % TWO_32));
            && start + |block| <= |bytes| && bytes[pos] == tag && bytes[start..start + |block|] == block
            && ReadBlock(bytes, pos + 1) == (bytes[start..end], end)
  {
    hide Quantity, ReadQuantity;
    var length := Quantity(|block|);
    StandsSplit(bytes, pos, [tag] + length, block);
    StandsSplit(bytes, pos, [tag], length);
    StandsFirst(bytes, pos, [tag]);
    WideQuantityWraps(bytes, pos + 1, |block|);
  }

  /** The octets a text or an octet array is written as. */
  function OctetsOf(codec: Codec, data: Data): Bytes
    requires data.String? || data.Binary? || data.Buffer?
  {
    match data
    case String(text) => codec.toUtf8(text)
    case Binary(bytes) => bytes
    case Buffer(bytes) => bytes
  }

  /** The value such octets are read as. */
  function FromOctets(codec: Codec, data: Data, block: Bytes): Data
    requires data.String? || data.Binary? || data.Buffer?
  {
    match data
    case String(_) => String(codec.fromUtf8(block))
    case Binary(_) => Binary(block)
    case Buffer(_) => Buffer(block)
  }

  lemma OctetsAreABlock(codec: Codec, data: Data)
    requires data.String? || data.Binary? || data.Buffer?
    ensures Received(codec, data) == FromOctets(codec, data, OctetsOf(codec, data))
    ensures var bytes := Serialize(codec, data);
            var (block, end) := ReadBlock(bytes, 1);
            && bytes == Block(bytes[0], OctetsOf(codec, data))
            && Deserialize(codec, bytes, 0) == Ok((FromOctets(codec, data, block), end))
  {
    hide ReadBlock, Quantity;
  }

  /** At the end of a message a text or an octet array is read whole exactly when it has fewer than 2^31 octets. */
  lemma OctetsArriveExactlyWhenShort(codec: Codec, data: Data)
    requires data.String? || data.Binary? || data.Buffer?
    ensures Arrives(codec, Serialize(codec, data), 0, Received(codec, data), |Serialize(codec, data)|)
       <==> |OctetsOf(codec, data)| < 0x8000_0000
  {
    OctetsAreABlock(codec, data);
    hide Serialize, Deserialize, Received, OctetsOf;
    LastBlockReads(Serialize(codec, data), Serialize(codec, data)[0], OctetsOf(codec, data));
    hide ReadBlock, Block;
  }

  /** A block that ends the input is read whole exactly when it is short. */
  lemma LastBlockReads(bytes: Bytes, tag: Byte, block: Bytes)
    requires bytes == Block(tag, block)
    ensures if |block| < 0x8000_0000 then ReadBlock(bytes, 1) == (block, |bytes|) else ReadBlock(bytes, 1).1 != |bytes|
  {
    var start := 1 + |Quantity(|block|)|;
    assert Stands(bytes, 0, Block(tag, block)) && |bytes| == start + |block|;
    hide Block, ReadBlock, Quantity, Stands;
    BlockOfAnyLengthReads(bytes, 0, tag, block);
    LongSlice(start, |block|);
  }

  lemma LongSlice(start: nat, length: nat)
    ensures SliceEnd(start + length, start, ToInt32(length % TWO_32)) == start + length <==> length < 0x8000_0000
  {
  }

  // ---------------------------------------------------------------------------------------------
  // The recursive methods
  // ---------------------------------------------------------------------------------------------

  method WriteBlock(writer: BufferWriter, tag: Byte, bytes: Bytes)
    modifies writer
    ensures writer.Contents() == old(writer.Contents()) + Block(tag, bytes)
  {
    writer.Write([tag]);
    WriteInt32VQL(writer, |bytes|);
    writer.Write(bytes);
    assert old(writer.Contents()) + [tag] + Quantity(|bytes|) + bytes == old(writer.Contents()) + Block(tag, bytes);
  }

  method SerializeTo(writer: BufferWriter, codec: Codec, data: Data)
    modifies writer
    ensures writer.Contents() == old(writer.Contents()) + Serialize(codec, data)
    decreases data
  {
    hide Quantity, SerializeMany;
    ghost var before := writer.Contents();
    match data {
      case Undefined => writer.Write([0]);
      case String(text) => WriteBlock(writer, 1, codec.toUtf8(text));
      case Buffer(bytes) => WriteBlock(writer, 3, bytes);
      case Binary(bytes) => WriteBlock(writer, 2, bytes);
      case Array(items) =>
        writer.Write([4]);
        WriteInt32VQL(writer, |items|);
        SerializeItems(writer, codec, items);
        assert before + [4] + Quantity(|items|) + SerializeMany(codec, items)
            == before + ([4] + Quantity(|items|) + SerializeMany(codec, items));
      case Int(value) =>
        if IsInt32(value) {
          writer.Write([6]);
          WriteInt32VQL(writer, value);
          assert before + [6] + Quantity(value) == before + ([6] + Quantity(value));
        } else {
          WriteBlock(writer, 5, JsonBytes(codec, data));
        }
      case _ => WriteBlock(writer, 5, JsonBytes(codec, data));
    }
  }

  method SerializeItems(writer: BufferWriter, codec: Codec, items: seq<Data>)
    modifies writer
    ensures writer.Contents() == old(writer.Contents()) + SerializeMany(codec, items)
    decreases items
  {
    ghost var start := writer.Contents();
    for i := 0 to |items|
      invariant writer.Contents() == start + SerializeMany(codec, items[..i])
    {
      SerializeTo(writer, codec, items[i]);
      SerializeOneMore(codec, items, i);
    }
    assert items[..|items|] == items;
  }

  lemma SerializeOneMore(codec: Codec, items: seq<Data>, i: nat)
    requires i < |items|
    ensures SerializeMany(codec, items[..i + 1]) == SerializeMany(codec, items[..i]) + Serialize(codec, items[i])
  {
    SerializeManySplit(codec, items[..i], [items[i]]);
    assert items[..i + 1] == items[..i] + [items[i]];
    assert SerializeMany(codec, [items[i]]) == Serialize(codec, items[i]) + SerializeMany(codec, []);
  }

  lemma {:induction false} SerializeManySplit(codec: Codec, a: seq<Data>, b: seq<Data>)
    ensures SerializeMany(codec, a + b) == SerializeMany(codec, a) + SerializeMany(codec, b)
  {
    if a == [] {
      assert a + b == b;
    } else {
      assert (a + b)[1..] == a[1..] + b;
      SerializeManySplit(codec, a[1..], b);
    }
  }

  method ReadBlockFrom(reader: BufferReader) returns (block: Bytes)
    requires reader.Valid()
    modifies reader
    ensures reader.Valid() && (block, reader.pos) == ReadBlock(reader.buffer, old(reader.pos))
  {
    var length := ReadIntVQL(reader);
    block := reader.Read(length);
  }

  /** The cursor stands behind the value; where it stands after an exception no caller can use. */
  method DeserializeFrom(reader: BufferReader, codec: Codec) returns (r: Result<Data, Malformed>)
    requires reader.Valid()
    modifies reader
    ensures reader.Valid()
    ensures match Deserialize(codec, reader.buffer, old(reader.pos))
            case Err(e) => r == Err(e)
            case Ok((data, end)) => r == Ok(data) && reader.pos == end
    decreases |reader.buffer| - reader.pos, 0
  {
    var tag := reader.Read(1);
    if tag == [] {
      return Ok(Undefined);
    }
    match tag[0] {
      case 1 =>
        var block := ReadBlockFrom(reader);
        return Ok(String(codec.fromUtf8(block)));
      case 2 =>
        var block := ReadBlockFrom(reader);
        return Ok(Binary(block));
      case 3 =>
        var block := ReadBlockFrom(reader);
        return Ok(Buffer(block));
      case 4 =>
        var length := ReadIntVQL(reader);
        r := DeserializeItems(reader, codec, length);
      case 5 =>
        var block := ReadBlockFrom(reader);
        var text := codec.fromUtf8(block);
        var json := codec.parse(text);
        if json.None? {
          return Err(Malformed(text));
        }
        return Ok(DecodeNested(codec, json.value));
      case 6 =>
        var value := ReadIntVQL(reader);
        return Ok(Int(value));
      case _ =>
        return Ok(Undefined);
    }
  }

  method DeserializeItems(reader: BufferReader, codec: Codec, length: int) returns (r: Result<Data, Malformed>)
    requires reader.Valid()
    modifies reader
    ensures reader.Valid()
    ensures match DeserializeMany(codec, reader.buffer, old(reader.pos), if length < 0 then 0 else length)
            case Err(e) => r == Err(e)
            case Ok((items, end)) => r == Ok(Array(items)) && reader.pos == end
    decreases |reader.buffer| - reader.pos, 1
  {
    var result: seq<Data> := [];
    ghost var all := DeserializeMany(codec, reader.buffer, reader.pos, if length < 0 then 0 else length);
    var i := 0;
    PrependNone(all);
    while i < length
      invariant reader.Valid() && old(reader.pos) <= reader.pos && 0 <= i && (i <= length || i == 0)
      invariant all == Prepend(result, DeserializeMany(codec, reader.buffer, reader.pos, if length < i then 0 else length - i))
    {
      ghost var pos := reader.pos;
      var item := DeserializeFrom(reader, codec);
      if item.Err? {
        return Err(item.error);
      }
      PrependTwice(result, [item.value], DeserializeMany(codec, reader.buffer, reader.pos, length - i - 1));
      result := result + [item.value];
      i := i + 1;
    }
    assert result + [] == result;
    r := Ok(Array(result));
  }

  lemma PrependNone(r: Result<(seq<Data>, nat), Malformed>)
    ensures Prepend([], r) == r
  {
    if r.Ok? {
      assert [] + r.value.0 == r.value.0;
    }
  }

  lemma PrependTwice(a: seq<Data>, b: seq<Data>, r: Result<(seq<Data>, nat), Malformed>)
    ensures Prepend(a, Prepend(b, r)) == Prepend(a + b, r)
  {
    if r.Ok? {
      assert a + (b + r.value.0) == a + b + r.value.0;
    }
  }
}
