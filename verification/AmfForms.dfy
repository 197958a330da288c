/** Everything the readers understand, not only what the writers write: objects
    as plain objects, typed objects or ECMA arrays, in any mix and at any depth,
    with fields in any order and repeated. */
module AmfForms {
  import opened Bytes
  import opened AmfValues
  import opened AmfStreams
  import opened AmfReader
  import opened AmfWriter
  import opened AmfRoundTrip

  /** A value as it may be spelled. */
  datatype Form =
    | Scalar(v: Value)
    | Plain(pairs: seq<Pair>)
    | Typed(className: Name, pairs: seq<Pair>)
    | Ecma(pairs: seq<Pair>)
    | Strict(items: seq<Form>)

  datatype Pair = Pair(name: Name, form: Form)

  function Spelled(f: Form): seq<byte> {
    match f
    case Scalar(v) => Emit(v).bytes
    case Plain(pairs) => [0x03] + SpelledPairs(pairs) + OBJECT_END
    case Typed(name, pairs) => [0x10] + PutBe(|name|, 2) + name + SpelledPairs(pairs) + OBJECT_END
    case Ecma(pairs) => [0x08] + PutBe(|pairs|, 4) + SpelledPairs(pairs)
    case Strict(items) => [0x0A] + PutBe(|items|, 4) + SpelledItems(items)
  }

  function SpelledPairs(pairs: seq<Pair>): seq<byte> {
    if pairs == [] then []
    else PutBe(|pairs[0].name|, 2) + pairs[0].name + Spelled(pairs[0].form) + SpelledPairs(pairs[1..])
  }

  function SpelledItems(items: seq<Form>): seq<byte> {
    if items == [] then [] else Spelled(items[0]) + SpelledItems(items[1..])
  }

  /** Lengths and counts fit their fields, and where an empty name would end the
      object there is none. */
  ghost predicate WellFormed(f: Form) {
    match f
    case Scalar(v) => Storable(v) && !v.Object? && !v.Array?
    case Plain(pairs) => forall p <- pairs :: 0 < |p.name| < 65536 && WellFormed(p.form)
    case Typed(name, pairs) => |name| < 65536 && forall p <- pairs :: 0 < |p.name| < 65536 && WellFormed(p.form)
    case Ecma(pairs) => |pairs| < 0x1_0000_0000 && forall p <- pairs :: |p.name| < 65536 && WellFormed(p.form)
    case Strict(items) => |items| < 0x1_0000_0000 && forall i <- items :: WellFormed(i)
  }

  /** What the form stands for in a field that holds `prior`: fields are added to
      an object that is there already, and items to an array. */
  function Meaning(f: Form, prior: Option<Value>): Value
    decreases f
  {
    match f
    case Scalar(v) => v
    case Plain(pairs) => Object(Merged(FieldsOf(prior), pairs))
    case Typed(_, pairs) => Object(Merged(FieldsOf(prior), pairs))
    case Ecma(pairs) => Object(Merged(FieldsOf(prior), pairs))
    case Strict(items) => Array(ItemsOf(prior) + Meanings(items))
  }

  function Merged(fields: seq<Entry>, pairs: seq<Pair>): seq<Entry>
    decreases pairs
  {
    if pairs == [] then fields
    else
      var p := pairs[0];
      Merged(Set(fields, p.name, Meaning(p.form, Get(fields, p.name))), pairs[1..])
  }

  function Meanings(items: seq<Form>): (r: seq<Value>)
    ensures |r| == |items|
  {
    if items == [] then [] else [Meaning(items[0], None)] + Meanings(items[1..])
  }

  // ---- Reading a form ----

  /** Reading any spelling gives what it stands for and leaves what followed. */
  lemma {:induction false} Understood(f: Form, prior: Option<Value>, rest: seq<byte>)
    requires WellFormed(f)
    ensures ReadValue(Spelled(f) + rest, prior) == Parse(true, Some(Meaning(f, prior)), rest)
    decreases f, 1
  {
    hide ReadBody, ReadEcma, ReadItemsBody, SpelledPairs, SpelledItems, Merged, Meanings, PutBe, GetBe, ReadString, ReadScalar;
    hide Emit;
    var s := Spelled(f) + rest;
    match f {
      case Scalar(v) => ReadScalarBack(v, rest, prior);
      case Plain(pairs) =>
        PlainBody(pairs, FieldsOf(prior), rest);
        assert s[1..] == SpelledPairs(pairs) + OBJECT_END + rest;
      case Typed(name, pairs) =>
        var body := SpelledPairs(pairs) + OBJECT_END + rest;
        Pow256Values();
        ReadStringBack(name, 2, body);
        assert s[1..] == PutBe(|name|, 2) + name + body;
        PlainBody(pairs, FieldsOf(prior), rest);
      case Ecma(pairs) =>
        EcmaReads(|pairs|, SpelledPairs(pairs) + rest, FieldsOf(prior));
        assert s[1..] == PutBe(|pairs|, 4) + (SpelledPairs(pairs) + rest);
        EcmaBody(pairs, FieldsOf(prior), rest);
      case Strict(items) =>
        ItemsRead(|items|, SpelledItems(items) + rest, ItemsOf(prior));
        assert s[1..] == PutBe(|items|, 4) + (SpelledItems(items) + rest);
        StrictBody(items, ItemsOf(prior), rest);
    }
  }

  lemma CountReads(n: nat, tail: seq<byte>)
    requires n < 0x1_0000_0000
    ensures var s := PutBe(n, 4) + tail; |s| >= 4 && GetBe(s[..4]) == n && s[4..] == tail
  {
    hide PutBe, GetBe, Pow256;
    Pow256Values();
    GetPutBe(n, 4);
    assert (PutBe(n, 4) + tail)[..4] == PutBe(n, 4);
  }

  lemma EcmaReads(n: nat, tail: seq<byte>, fields: seq<Entry>)
    requires n < 0x1_0000_0000
    ensures ReadEcma(PutBe(n, 4) + tail, fields) == ReadPairs(n, tail, fields)
  {
    hide PutBe, GetBe, ReadPairs;
    CountReads(n, tail);
  }

  lemma ItemsRead(n: nat, tail: seq<byte>, items: seq<Value>)
    requires n < 0x1_0000_0000
    ensures ReadItemsBody(PutBe(n, 4) + tail, items) == ReadItems(n, tail, items)
  {
    hide PutBe, GetBe, ReadItems;
    CountReads(n, tail);
  }

  /** A pair is read and stored under its name, and what follows comes next. */
  lemma {:induction false} PairReads(p: Pair, fields: seq<Entry>, tail: seq<byte>)
    requires |p.name| < 65536 && WellFormed(p.form)
    ensures var s := PutBe(|p.name|, 2) + p.name + Spelled(p.form) + tail;
            && ReadString(s, 2) == Parse(true, p.name, Spelled(p.form) + tail)
            && ReadField(Spelled(p.form) + tail, fields, p.name)
               == Parse(true, Set(fields, p.name, Meaning(p.form, Get(fields, p.name))), tail)
    decreases p, 2
  {
    hide PutBe, ReadString, Spelled, ReadValue, Meaning, Set, Get, WellFormed;
    Pow256Values();
    ReadStringBack(p.name, 2, Spelled(p.form) + tail);
    assert PutBe(|p.name|, 2) + p.name + Spelled(p.form) + tail
        == PutBe(|p.name|, 2) + p.name + (Spelled(p.form) + tail);
    Understood(p.form, Get(fields, p.name), tail);
  }

  lemma {:induction false} PlainBody(pairs: seq<Pair>, fields: seq<Entry>, rest: seq<byte>)
    requires forall p <- pairs :: 0 < |p.name| < 65536 && WellFormed(p.form)
    ensures ReadBody(SpelledPairs(pairs) + OBJECT_END + rest, fields) == Parse(true, Merged(fields, pairs), rest)
    decreases pairs, 3
  {
    hide ReadField, ReadString, PutBe, Spelled, Meaning, Set, Get, WellFormed;
    var s := SpelledPairs(pairs) + OBJECT_END + rest;
    if pairs == [] {
      EndReads(fields, rest);
      assert s == OBJECT_END + rest;
    } else {
      var p := pairs[0];
      var tail := SpelledPairs(pairs[1..]) + OBJECT_END + rest;
      assert s == PutBe(|p.name|, 2) + p.name + Spelled(p.form) + tail;
      PairReads(p, fields, tail);
      PlainBody(pairs[1..], Set(fields, p.name, Meaning(p.form, Get(fields, p.name))), rest);
    }
  }

  lemma {:induction false} EcmaBody(pairs: seq<Pair>, fields: seq<Entry>, rest: seq<byte>)
    requires forall p <- pairs :: |p.name| < 65536 && WellFormed(p.form)
    ensures ReadPairs(|pairs|, SpelledPairs(pairs) + rest, fields) == Parse(true, Merged(fields, pairs), rest)
    decreases pairs, 3
  {
    hide ReadField, ReadString, PutBe, Spelled, Meaning, Set, Get, WellFormed;
    var s := SpelledPairs(pairs) + rest;
    if pairs == [] {
      assert s == rest;
    } else {
      var p := pairs[0];
      var tail := SpelledPairs(pairs[1..]) + rest;
      assert s == PutBe(|p.name|, 2) + p.name + Spelled(p.form) + tail;
      PairReads(p, fields, tail);
      EcmaBody(pairs[1..], Set(fields, p.name, Meaning(p.form, Get(fields, p.name))), rest);
    }
  }

  lemma {:induction false} StrictBody(items: seq<Form>, acc: seq<Value>, rest: seq<byte>)
    requires forall i <- items :: WellFormed(i)
    ensures ReadItems(|items|, SpelledItems(items) + rest, acc) == Parse(true, acc + Meanings(items), rest)
    decreases items, 3
  {
    hide ReadValue, Spelled, Meaning, WellFormed;
    var s := SpelledItems(items) + rest;
    if items == [] {
      assert s == rest && acc + Meanings(items) == acc;
    } else {
      var tail := SpelledItems(items[1..]) + rest;
      assert s == Spelled(items[0]) + tail;
      assert items[0] in items;
      Understood(items[0], None, tail);
      StrictBody(items[1..], acc + [Meaning(items[0], None)], rest);
      assert acc + Meanings(items) == (acc + [Meaning(items[0], None)]) + Meanings(items[1..]);
    }
  }

  // ---- What a list of pairs stands for ----

  ghost predicate Once(pairs: seq<Pair>) {
    forall i, j :: 0 <= i < j < |pairs| ==> pairs[i].name != pairs[j].name
  }

  ghost predicate NamesNot(pairs: seq<Pair>, name: Name) {
    forall k :: 0 <= k < |pairs| ==> pairs[k].name != name
  }

  lemma {:induction false} MergedKeeps(fields: seq<Entry>, pairs: seq<Pair>, name: Name)
    requires Sorted(fields) && NamesNot(pairs, name)
    ensures Sorted(Merged(fields, pairs)) && Get(Merged(fields, pairs), name) == Get(fields, name)
    decreases |pairs|
  {
    hide Set, Get, Meaning, Sorted;
    if pairs != [] {
      var p := pairs[0];
      var v := Meaning(p.form, Get(fields, p.name));
      SetIsMapUpdate(fields, p.name, v);
      MergedKeeps(Set(fields, p.name, v), pairs[1..], name);
    }
  }

  /** Pairs with different names, in any order: each name has what its pair
      stands for. (Any other name keeps what it had, `MergedKeeps`.) */
  lemma {:induction false} MergedHas(fields: seq<Entry>, pairs: seq<Pair>, k: nat)
    requires Sorted(fields) && Once(pairs) && k < |pairs|
    ensures var p := pairs[k];
            Get(Merged(fields, pairs), p.name) == Some(Meaning(p.form, Get(fields, p.name)))
    decreases |pairs|
  {
    hide Set, Get, Meaning, Sorted;
    var p := pairs[0];
    var v := Meaning(p.form, Get(fields, p.name));
    SetIsMapUpdate(fields, p.name, v);
    if k == 0 {
      MergedKeeps(Set(fields, p.name, v), pairs[1..], p.name);
    } else {
      assert pairs[k] == pairs[1..][k - 1];
      MergedHas(Set(fields, p.name, v), pairs[1..], k - 1);
    }
  }

  // ---- Fields spelled in another way come back as well ----

  /** No name inside the values is empty. */
  ghost predicate NamedInside(fields: seq<Entry>) {
    forall e <- fields :: Named(e.value)
  }

  lemma {:induction false} PairsBack(fields: seq<Entry>, acc: seq<Entry>, rest: seq<byte>)
    requires Sorted(acc + fields) && EmitFields(fields).ok && forall e <- fields :: Storable(e.value)
    ensures var r := ReadPairs(|fields|, EmitFields(fields).bytes + rest, acc);
            if NamedInside(fields) then r == Parse(true, acc + fields, rest) else !r.ok
    decreases |fields|
  {
    hide ReadValue, Emit, Storable, Named, ReadString, Get, Set, PutBe;
    var s := EmitFields(fields).bytes + rest;
    if fields == [] {
      assert s == rest && acc + fields == acc;
    } else {
      var e := fields[0];
      var tail := EmitFields(fields[1..]).bytes + rest;
      assert fields == [e] + fields[1..];
      assert s == EmitEntry(e).bytes + tail;
      assert acc + fields == (acc + [e]) + fields[1..];
      SortedPrefix(acc, e, fields[1..]);
      SetAppends(acc, e);
      EntryNameReads(e, tail);
      if Named(e.value) {
        ReadBack(e.value, tail);
        PairsBack(fields[1..], acc + [e], rest);
      } else {
        EmptyNameRejected(e.value, tail);
      }
    }
  }

  lemma EcmaObjectReads(n: nat, body: seq<byte>, rest: seq<byte>)
    requires n < 0x1_0000_0000
    ensures ReadObject([0x08] + PutBe(n, 4) + body + rest, []) == ReadPairs(n, body + rest, [])
  {
    hide PutBe, ReadPairs, ReadBody, ReadEcma;
    var s := [0x08] + PutBe(n, 4) + body + rest;
    assert s[1..] == PutBe(n, 4) + (body + rest);
    EcmaReads(n, body + rest, []);
  }

  /** An object spelled as an ECMA array, whatever follows: it is rebuilt if and
      only if no name inside its values is empty. Its own names may be. */
  lemma EcmaRoundTrip(fields: seq<Entry>, rest: seq<byte>)
    requires Storable(Object(fields)) && EmitFields(fields).ok && |fields| < 0x1_0000_0000
    ensures var r := ReadObject([0x08] + PutBe(|fields|, 4) + EmitFields(fields).bytes + rest, []);
            && (r == Parse(true, fields, rest) <==> NamedInside(fields))
            && (r.ok <==> NamedInside(fields))
  {
    hide ReadPairs, PutBe, EmitFields, NamedInside, ReadObject, Sorted;
    EcmaObjectReads(|fields|, EmitFields(fields).bytes, rest);
    assert [] + fields == fields;
    PairsBack(fields, [], rest);
  }

  lemma TypedReads(className: Name, fields: seq<Entry>, rest: seq<byte>)
    requires |className| < 65536 && EmitFields(fields).ok
    ensures ReadValue([0x10] + PutBe(|className|, 2) + className + EmitFields(fields).bytes + OBJECT_END + rest, None)
         == ReadValue(Emit(Object(fields)).bytes + rest, None)
  {
    hide PutBe, EmitFields, ReadBody, ReadString, ReadScalar;
    var body := EmitFields(fields).bytes + OBJECT_END + rest;
    var s := [0x10] + PutBe(|className|, 2) + className + EmitFields(fields).bytes + OBJECT_END + rest;
    Pow256Values();
    ReadStringBack(className, 2, body);
    assert s[1..] == PutBe(|className|, 2) + className + body;
    ObjectReads(fields, rest);
  }

  /** An object spelled with a class name reads as the object without it. */
  lemma TypedRoundTrip(className: Name, fields: seq<Entry>, rest: seq<byte>)
    requires |className| < 65536 && Storable(Object(fields)) && EmitFields(fields).ok
    ensures var s := [0x10] + PutBe(|className|, 2) + className + EmitFields(fields).bytes + OBJECT_END + rest;
            && (ReadValue(s, None) == Parse(true, Some(Object(fields)), rest) <==> Named(Object(fields)))
            && (ReadValue(s, None).ok <==> Named(Object(fields)))
  {
    hide PutBe, EmitFields, ReadValue, Named, Storable;
    TypedReads(className, fields, rest);
    if Named(Object(fields)) {
      ReadBack(Object(fields), rest);
    } else {
      EmptyNameRejected(Object(fields), rest);
    }
  }
}
