/** The bytes on the wire, spelled out. */
module AmfWire {
  import opened Bytes
  import opened AmfValues
  import opened AmfReader
  import opened AmfWriter

  function U16(n: nat): seq<byte> {
    [n / 0x100 % 0x100, n % 0x100]
  }

  function U32(n: nat): seq<byte> {
    U16(n / 0x1_0000) + U16(n)
  }

  function U64(n: nat): seq<byte> {
    U32(n / 0x1_0000_0000) + U32(n)
  }

  /** Type markers and lengths as numbers; the most significant byte comes first. */
  function Wire(v: Value): seq<byte> {
    match v
    case Number(bits) => [0x00] + U64(bits)
    case Boolean(b) => [0x01, if b then 1 else 0]
    case Str(s) => if |s| < 65536 then [0x02] + U16(|s|) + s else [0x0C] + U32(|s|) + s
    case Object(fields) => [0x03] + WireFields(fields) + [0x00, 0x00, 0x09]
    case Array(items) => [0x0A] + U32(|items|) + WireItems(items)
    case Null => [0x05]
    case Undefined => [0x06]
    case Unsupported => [0x0D]
  }

  function WireFields(fields: seq<Entry>): seq<byte> {
    if fields == [] then []
    else U16(|fields[0].name|) + fields[0].name + Wire(fields[0].value) + WireFields(fields[1..])
  }

  function WireItems(items: seq<Value>): seq<byte> {
    if items == [] then [] else Wire(items[0]) + WireItems(items[1..])
  }

  lemma PutTwo(n: nat, w: nat)
    ensures PutBe(n, w + 2) == PutBe(n / 0x1_0000, w) + U16(n)
  {
    assert PutBe(n / 256, w + 1) == PutBe(n / 256 / 256, w) + [n / 256 % 256];
    assert n / 256 / 256 == n / 0x1_0000;
  }

  lemma PutFour(n: nat)
    ensures PutBe(n, 2) == U16(n) && PutBe(n, 4) == U32(n)
  {
    hide PutBe, U16;
    PutTwo(n, 0);
    PutTwo(n, 2);
    PutTwo(n / 0x1_0000, 0);
    PutNone(n);
  }

  lemma PutNone(n: nat)
    ensures PutBe(n / 0x1_0000, 0) == [] == PutBe(n / 0x1_0000 / 0x1_0000, 0)
  {
  }

  lemma PutEight(n: nat)
    ensures PutBe(n, 8) == U64(n)
  {
    hide PutBe, U16;
    PutTwo(n, 6);
    PutTwo(n / 0x1_0000, 4);
    assert n / 0x1_0000 / 0x1_0000 == n / 0x1_0000_0000;
    PutFour(n / 0x1_0000_0000);
  }

  lemma PutBeIs(n: nat)
    ensures PutBe(n, 2) == U16(n) && PutBe(n, 4) == U32(n) && PutBe(n, 8) == U64(n)
  {
    hide PutBe, U16, U32, U64;
    PutFour(n);
    PutEight(n);
  }

  /** What the writer puts for a value it completes, byte by byte. */
  lemma {:induction false} EmitIsWire(v: Value)
    requires Emit(v).ok
    ensures Emit(v).bytes == Wire(v)
    decreases v, 1
  {
    hide PutBe, U16, U32, U64, EmitFields, EmitItems, WireFields, WireItems;
    match v {
      case Number(bits) => PutBeIs(bits);
      case Str(s) => PutBeIs(|s|);
      case Object(fields) =>
        FieldsAreWire(fields);
        assert [0x03] + (WireFields(fields) + OBJECT_END) == [0x03] + WireFields(fields) + OBJECT_END;
      case Array(items) =>
        PutBeIs(|items|);
        ItemsAreWire(items);
      case _ =>
    }
  }

  lemma {:induction false} FieldsAreWire(fields: seq<Entry>)
    requires EmitFields(fields).ok
    ensures EmitFields(fields).bytes == WireFields(fields)
    decreases fields, 2
  {
    hide PutBe, U16, Emit, Wire;
    if fields != [] {
      var e := fields[0];
      PutBeIs(|e.name|);
      EmitIsWire(e.value);
      FieldsAreWire(fields[1..]);
      assert U16(|e.name|) + e.name + Wire(e.value) + WireFields(fields[1..])
          == (U16(|e.name|) + e.name + Wire(e.value)) + WireFields(fields[1..]);
    }
  }

  lemma {:induction false} ItemsAreWire(items: seq<Value>)
    requires EmitItems(items).ok
    ensures EmitItems(items).bytes == WireItems(items)
    decreases items, 2
  {
    hide Emit, Wire;
    if items != [] {
      EmitIsWire(items[0]);
      ItemsAreWire(items[1..]);
    }
  }

  /** The markers that stand for no value of the model: six are refused; a stray
      object-end and anything unknown is passed over without a value. */
  lemma OtherMarkers(marker: byte, body: seq<byte>, prior: Option<Value>)
    requires marker in {0x04, 0x07, 0x09, 0x0B, 0x0E, 0x0F} || marker >= 0x11
    ensures ReadValue([marker] + body, prior)
         == Parse(marker == 0x09 || marker > 0x11, None, body)
  {
    hide ReadContainer;
    assert ([marker] + body)[1..] == body;
  }

  /** At the top an object starts with 03 or 08 and an array with 0A; 05 stands
      for an empty one, and anything else, or nothing, is refused. */
  lemma OtherTops(marker: byte, body: seq<byte>, obj: seq<Entry>, arr: seq<Value>)
    ensures marker != 0x03 && marker != 0x08 ==> ReadObject([marker] + body, obj) == Parse(marker == 0x05, obj, body)
    ensures marker != 0x0A ==> ReadArray([marker] + body, arr) == Parse(marker == 0x05, arr, body)
    ensures !ReadObject([], obj).ok && !ReadArray([], arr).ok
  {
    hide ReadBody, ReadEcma, ReadItemsBody;
    assert ([marker] + body)[1..] == body;
  }
}
