/** The writers and the readers are inverse to each other, except that an
    object with an empty name cannot be read back. */
module AmfRoundTrip {
  import opened Bytes
  import opened AmfValues
  import opened AmfStreams
  import opened AmfReader
  import opened AmfWriter

  /** No field at any depth has the empty name, which in the encoding is the
      terminator of an object. */
  ghost predicate Named(v: Value) {
    match v
    case Object(fields) => forall e <- fields :: e.name != [] && Named(e.value)
    case Array(items) => forall i <- items :: Named(i)
    case _ => true
  }

  lemma Pow256Values()
    ensures Pow256(2) == 0x1_0000 && Pow256(4) == 0x1_0000_0000
  {
    assert Pow256(1) == 256;
    assert Pow256(3) == 0x100_0000;
  }

  lemma ReadStringBack(s: seq<byte>, w: nat, rest: seq<byte>)
    requires w > 0 && |s| < Pow256(w)
    ensures ReadString(PutBe(|s|, w) + s + rest, w) == Parse(true, s, rest)
  {
    hide PutBe, GetBe, Pow256;
    var all := PutBe(|s|, w) + s + rest;
    GetPutBe(|s|, w);
    assert all[..w] == PutBe(|s|, w);
    assert all[w..w + |s|] == s && all[w + |s|..] == rest;
  }

  lemma ReadScalarBack(v: Value, rest: seq<byte>, prior: Option<Value>)
    requires Storable(v) && !v.Object? && !v.Array?
    ensures ReadValue(Emit(v).bytes + rest, prior) == Parse(true, Some(v), rest)
  {
    hide ReadString, PutBe, GetBe, ReadContainer;
    var s := Emit(v).bytes + rest;
    match v {
      case Number(bits) =>
        GetPutBe(bits, 8);
        assert s[1..][..8] == PutBe(bits, 8) && s[1..][8..] == rest;
      case Boolean(b) =>
        assert s[1..][1..] == rest;
      case Str(str) =>
        Pow256Values();
        var w := if |str| < SHORT_LIMIT then 2 else 4;
        assert s[1..] == PutBe(|str|, w) + str + rest;
        ReadStringBack(str, w, rest);
      case Null | Undefined | Unsupported =>
        assert s[1..] == rest;
    }
  }

  lemma ObjectReads(fields: seq<Entry>, rest: seq<byte>)
    requires EmitFields(fields).ok
    ensures var r := ReadBody(EmitFields(fields).bytes + OBJECT_END + rest, []);
            ReadValue(Emit(Object(fields)).bytes + rest, None) == Parse(r.ok, Some(Object(r.value)), r.rest)
  {
    hide ReadScalar, ReadBody, EmitFields;
    var s := Emit(Object(fields)).bytes + rest;
    assert s[1..] == EmitFields(fields).bytes + OBJECT_END + rest;
  }

  lemma ArrayReads(items: seq<Value>, rest: seq<byte>)
    requires EmitItems(items).ok && |items| < 0x1_0000_0000
    ensures var r := ReadItems(|items|, EmitItems(items).bytes + rest, []);
            ReadValue(Emit(Array(items)).bytes + rest, None) == Parse(r.ok, Some(Array(r.value)), r.rest)
  {
    hide ReadScalar, ReadItems, PutBe, GetBe, EmitItems;
    var s := Emit(Array(items)).bytes + rest;
    var body := s[1..];
    Pow256Values();
    GetPutBe(|items|, 4);
    assert body[..4] == PutBe(|items|, 4);
    assert body[4..] == EmitItems(items).bytes + rest;
    assert ReadItemsBody(body, []) == ReadItems(|items|, body[4..], []);
    assert ReadValue(s, None) == ReadContainer(MARKER_STRICT_ARRAY, body, None);
  }

  /** Reading what was written of a value gives the value and leaves exactly
      what followed it. */
  lemma {:induction false} ReadBack(v: Value, rest: seq<byte>)
    requires Storable(v) && Emit(v).ok && Named(v)
    ensures ReadValue(Emit(v).bytes + rest, None) == Parse(true, Some(v), rest)
    decreases v, 1
  {
    hide ReadValue, ReadItems, ReadBody, EmitFields, EmitItems, PutBe;
    match v {
      case Object(fields) =>
        ObjectReads(fields, rest);
        assert [] + fields == fields;
        ReadFieldsBack(fields, [], rest);
      case Array(items) =>
        ArrayReads(items, rest);
        assert [] + items == items;
        ReadItemsBack(items, [], rest);
      case Number(_) | Boolean(_) | Str(_) | Null | Undefined | Unsupported =>
        ReadScalarBack(v, rest, None);
    }
  }

  lemma {:induction false} ReadFieldsBack(fields: seq<Entry>, acc: seq<Entry>, rest: seq<byte>)
    requires Sorted(acc + fields) && EmitFields(fields).ok
    requires forall e <- fields :: Storable(e.value) && e.name != [] && Named(e.value)
    ensures ReadBody(EmitFields(fields).bytes + OBJECT_END + rest, acc) == Parse(true, acc + fields, rest)
    decreases fields, 3
  {
    hide ReadString, Emit, ReadBody, ReadField, Storable, Named, PutBe;
    var s := EmitFields(fields).bytes + OBJECT_END + rest;
    if fields == [] {
      EndReads(acc, rest);
      assert s == OBJECT_END + rest;
      assert acc + fields == acc;
    } else {
      var e := fields[0];
      var tail := EmitFields(fields[1..]).bytes + OBJECT_END + rest;
      assert e in fields;
      assert s == EmitEntry(e).bytes + tail;
      assert acc + fields == (acc + [e]) + fields[1..];
      SortedPrefix(acc, e, fields[1..]);
      ReadEntryBack(e, acc, tail);
      ReadFieldsBack(fields[1..], acc + [e], rest);
    }
  }

  lemma SortedPrefix(acc: seq<Entry>, e: Entry, rest: seq<Entry>)
    requires Sorted(acc + [e] + rest)
    ensures Sorted(acc + [e])
  {
    var all := acc + [e] + rest;
    forall i, j | 0 <= i < j < |acc + [e]| ensures Less((acc + [e])[i].name, (acc + [e])[j].name) {
      assert all[i] == (acc + [e])[i] && all[j] == (acc + [e])[j];
    }
  }

  lemma EndReads(acc: seq<Entry>, rest: seq<byte>)
    ensures ReadBody(OBJECT_END + rest, acc) == Parse(true, acc, rest)
  {
    hide ReadField;
    var s := OBJECT_END + rest;
    assert s == PutBe(0, 2) + [] + ([MARKER_OBJECT_END] + rest);
    Pow256Values();
    ReadStringBack([], 2, [MARKER_OBJECT_END] + rest);
    assert ([MARKER_OBJECT_END] + rest)[1..] == rest;
  }

  /** A well-named entry is read and appended, and the body goes on. */
  lemma {:induction false} ReadEntryBack(e: Entry, acc: seq<Entry>, tail: seq<byte>)
    requires Sorted(acc + [e]) && EmitEntry(e).ok
    requires Storable(e.value) && e.name != [] && Named(e.value)
    ensures ReadBody(EmitEntry(e).bytes + tail, acc) == ReadBody(tail, acc + [e])
    decreases e, 2
  {
    hide ReadString, Emit, ReadValue, Storable, Named;
    var s := EmitEntry(e).bytes + tail;
    EntryNameReads(e, tail);
    SetAppends(acc, e);
    ReadBack(e.value, tail);
  }

  lemma EntryNameReads(e: Entry, tail: seq<byte>)
    requires |e.name| < SHORT_LIMIT
    ensures ReadString(EmitEntry(e).bytes + tail, 2) == Parse(true, e.name, Emit(e.value).bytes + tail)
  {
    hide ReadString, PutBe, Emit;
    Pow256Values();
    ReadStringBack(e.name, 2, Emit(e.value).bytes + tail);
    assert EmitEntry(e).bytes + tail == PutBe(|e.name|, 2) + e.name + (Emit(e.value).bytes + tail);
  }

  lemma {:induction false} ReadItemsBack(items: seq<Value>, acc: seq<Value>, rest: seq<byte>)
    requires EmitItems(items).ok
    requires forall i <- items :: Storable(i) && Named(i)
    ensures ReadItems(|items|, EmitItems(items).bytes + rest, acc) == Parse(true, acc + items, rest)
    decreases items, 3
  {
    hide ReadValue, Emit, Storable, Named;
    var s := EmitItems(items).bytes + rest;
    if items == [] {
      assert s == rest && acc + items == acc;
    } else {
      var v := items[0];
      assert v in items;
      var tail := EmitItems(items[1..]).bytes + rest;
      assert s == Emit(v).bytes + tail;
      ReadBack(v, tail);
      ReadItemsBack(items[1..], acc + [v], rest);
      assert acc + items == (acc + [v]) + items[1..];
    }
  }

  // ---- An empty name makes the reader fail ----

  lemma FirstByte(v: Value)
    ensures Emit(v).bytes != [] && Emit(v).bytes[0] != MARKER_OBJECT_END
  {
    hide PutBe, EmitFields, EmitItems;
  }

  lemma {:induction false} EmptyNameRejected(v: Value, rest: seq<byte>)
    requires Storable(v) && Emit(v).ok && !Named(v)
    ensures !ReadValue(Emit(v).bytes + rest, None).ok
    decreases v, 1
  {
    hide ReadValue, ReadItems, ReadBody, EmitFields, EmitItems, PutBe;
    if v.Object? {
      ObjectReads(v.fields, rest);
      assert [] + v.fields == v.fields;
      EmptyNameInFields(v.fields, [], rest);
    } else {
      ArrayReads(v.items, rest);
      EmptyNameInItems(v.items, [], rest);
    }
  }

  lemma {:induction false} EmptyNameInFields(fields: seq<Entry>, acc: seq<Entry>, rest: seq<byte>)
    requires Sorted(acc + fields) && EmitFields(fields).ok
    requires forall e <- fields :: Storable(e.value)
    requires exists e <- fields :: e.name == [] || !Named(e.value)
    ensures !ReadBody(EmitFields(fields).bytes + OBJECT_END + rest, acc).ok
    decreases fields, 3
  {
    hide ReadString, Emit, ReadBody, ReadField, Storable, Named;
    var e := fields[0];
    var tail := EmitFields(fields[1..]).bytes + OBJECT_END + rest;
    assert EmitFields(fields).bytes + OBJECT_END + rest == EmitEntry(e).bytes + tail;
    assert acc + fields == (acc + [e]) + fields[1..];
    SortedPrefix(acc, e, fields[1..]);
    if e.name == [] || !Named(e.value) {
      SetAppends(acc, e);
      BadEntryRejected(e, acc, tail);
    } else {
      ReadEntryBack(e, acc, tail);
      EmptyNameInFields(fields[1..], acc + [e], rest);
    }
  }

  lemma {:induction false} BadEntryRejected(e: Entry, acc: seq<Entry>, tail: seq<byte>)
    requires EmitEntry(e).ok && Storable(e.value)
    requires e.name == [] || (Get(acc, e.name) == None && !Named(e.value))
    ensures !ReadBody(EmitEntry(e).bytes + tail, acc).ok
    decreases e, 2
  {
    hide ReadString, Emit, ReadValue, Storable, Named;
    EntryNameReads(e, tail);
    FirstByte(e.value);
    if e.name != [] {
      EmptyNameRejected(e.value, tail);
    }
  }

  lemma {:induction false} EmptyNameInItems(items: seq<Value>, acc: seq<Value>, rest: seq<byte>)
    requires EmitItems(items).ok
    requires forall i <- items :: Storable(i)
    requires exists i <- items :: !Named(i)
    ensures !ReadItems(|items|, EmitItems(items).bytes + rest, acc).ok
    decreases items, 3
  {
    hide ReadValue, Emit, Storable, Named;
    var v := items[0];
    var tail := EmitItems(items[1..]).bytes + rest;
    assert EmitItems(items).bytes + rest == Emit(v).bytes + tail;
    if !Named(v) {
      EmptyNameRejected(v, tail);
    } else {
      ReadBack(v, tail);
      EmptyNameInItems(items[1..], acc + [v], rest);
    }
  }

  // ---- The theorems ----

  /** For every object that the writer completes: reading its bytes, whatever
      follows them, rebuilds the object and leaves exactly what followed if and
      only if no name in it is empty; otherwise the reader returns false. */
  lemma ObjectRoundTrip(fields: seq<Entry>, rest: seq<byte>)
    requires Storable(Object(fields)) && Emit(Object(fields)).ok
    ensures var r := ReadObject(Emit(Object(fields)).bytes + rest, []);
            && (r == Parse(true, fields, rest) <==> Named(Object(fields)))
            && (!r.ok <==> !Named(Object(fields)))
  {
    hide ReadBody, EmitFields, Named, Storable;
    var v := Object(fields);
    var s := Emit(v).bytes + rest;
    assert ReadValue(s, None).ok == ReadBody(s[1..], []).ok;
    if Named(v) {
      ReadBack(v, rest);
    } else {
      EmptyNameRejected(v, rest);
    }
  }

  lemma ArrayRoundTrip(items: seq<Value>, rest: seq<byte>)
    requires Storable(Array(items)) && Emit(Array(items)).ok
    ensures var r := ReadArray(Emit(Array(items)).bytes + rest, []);
            && (r == Parse(true, items, rest) <==> Named(Array(items)))
            && (!r.ok <==> !Named(Array(items)))
  {
    hide ReadItemsBody, EmitItems, Named, Storable, PutBe;
    var v := Array(items);
    var s := Emit(v).bytes + rest;
    assert ReadValue(s, None).ok == ReadItemsBody(s[1..], []).ok;
    if Named(v) {
      ReadBack(v, rest);
    } else {
      EmptyNameRejected(v, rest);
    }
  }

  /** No encoding is a proper prefix of another, and different values have
      different encodings. */
  lemma PrefixFree(a: Value, b: Value)
    requires Storable(a) && Emit(a).ok && Named(a)
    requires Storable(b) && Emit(b).ok && Named(b)
    requires Emit(a).bytes <= Emit(b).bytes
    ensures a == b
  {
    hide Emit, ReadValue, Storable, Named;
    var rest := Emit(b).bytes[|Emit(a).bytes|..];
    assert Emit(a).bytes + rest == Emit(b).bytes == Emit(b).bytes + [];
    ReadBack(a, rest);
    ReadBack(b, []);
  }

  // The same through the stream objects.

  /** `bytes` in chunks of the given sizes, the rest in a last one. */
  function Chunked(bytes: seq<byte>, sizes: seq<nat>): (chunks: seq<seq<byte>>)
    ensures Flatten(chunks) == bytes
    decreases |sizes|
  {
    if sizes == [] then
      assert [bytes][1..] == [];
      [bytes]
    else
      var n := Min(sizes[0], |bytes|);
      var rest := Chunked(bytes[n..], sizes[1..]);
      assert ([bytes[..n]] + rest)[1..] == rest;
      [bytes[..n]] + rest
  }

  /** Writes an object into whatever buffers are offered and reads the stored
      bytes back in whatever chunks. The stream stays good exactly when no name
      is too long and all bytes fit; the object then comes back, with nothing
      left, exactly when no name is empty. */
  method WriteAndReadBack(fields: seq<Entry>, offers: seq<nat>, sizes: seq<nat>)
    returns (good: bool, ok: bool, back: seq<Entry>, left: int)
    requires Storable(Object(fields))
    ensures good <==> ShortNames(Object(fields)) && |Emit(Object(fields)).bytes| <= Sum(offers)
    ensures good ==> (ok <==> Named(Object(fields)))
    ensures good ==> (ok && back == fields && left == 0 <==> Named(Object(fields)))
  {
    hide Emit, ReadObject, Storable, Named, Flatten, Sum, ShortNames;
    var out := new OutputStream(offers);
    ghost var st := out.State();
    WriteObject(fields, out);
    assert out.State() == Apply(st, Emit(Object(fields)));
    CompleteIffShortNames(Object(fields));
    out.Done();
    good := out.good;
    var bytes := out.stored;
    var stream := new InputStream(Chunked(bytes, sizes));
    ok, back := ReadAmfObject(stream, []);
    left := |bytes| - stream.popped;
    if good {
      ghost var e := Emit(Object(fields));
      assert [] + Take(e.bytes, Sum(offers)) == e.bytes == e.bytes + [];
      ObjectRoundTrip(fields, []);
    }
  }

  /** An object written into one buffer that is large enough leaves bytes in it
      that were never written but are taken as written, if and only if one of
      its names is too long. */
  method WriteToBuffer(fields: seq<Entry>, n: nat) returns (out: OutputStream)
    requires Storable(Object(fields)) && n > |Emit(Object(fields)).bytes|
    ensures fresh(out) && out.stored == Emit(Object(fields)).bytes
    ensures out.byteCount == |out.stored| <==> ShortNames(Object(fields))
  {
    hide Emit, Storable, ShortNames;
    out := new OutputStream([n]);
    ghost var st := out.State();
    WriteObject(fields, out);
    assert out.State() == Apply(st, Emit(Object(fields)));
    assert [] + Emit(Object(fields)).bytes == Emit(Object(fields)).bytes;
    CompleteIffShortNames(Object(fields));
    FirstByte(Object(fields));
    assert out.offers == [];
    out.Done();
  }
}
