/** Input that breaks off: exactly where the readers do not notice. An object body
    that ends while a name is due counts as complete. */
module AmfTruncation {
  import opened Bytes
  import opened AmfValues
  import opened AmfReader
  import opened AmfWriter
  import opened AmfRoundTrip
  import opened AmfForms

  /** The first `k` bytes of the form, fewer than it has, read as a value. */
  function Unnoticed(f: Form, k: nat): bool {
    match f
    case Scalar(_) => false
    case Plain(pairs) => k >= 1 && BodyUnnoticed(pairs, k - 1)
    case Typed(name, pairs) => k >= 1 && (k < 3 + |name| || BodyUnnoticed(pairs, k - 3 - |name|))
    case Ecma(pairs) => k >= 5 && PairsUnnoticed(pairs, k - 5)
    case Strict(items) => k >= 5 && ItemsUnnoticed(items, k - 5)
  }

  function Size(p: Pair): nat {
    2 + |p.name| + |Spelled(p.form)|
  }

  /** A body may break off within a name or its length, also within the length of
      the empty name that ends it, but not before the end marker. */
  function BodyUnnoticed(pairs: seq<Pair>, k: nat): bool {
    if pairs == [] then k < 2
    else if k < 2 + |pairs[0].name| then true
    else if k < Size(pairs[0]) then Unnoticed(pairs[0].form, k - 2 - |pairs[0].name|)
    else BodyUnnoticed(pairs[1..], k - Size(pairs[0]))
  }

  /** Where the number of entries is known, only within the last one. */
  function PairsUnnoticed(pairs: seq<Pair>, k: nat): bool {
    if pairs == [] || k < 2 + |pairs[0].name| then false
    else if k < Size(pairs[0]) then |pairs| == 1 && Unnoticed(pairs[0].form, k - 2 - |pairs[0].name|)
    else PairsUnnoticed(pairs[1..], k - Size(pairs[0]))
  }

  function ItemsUnnoticed(items: seq<Form>, k: nat): bool {
    if items == [] then false
    else if k < |Spelled(items[0])| then |items| == 1 && Unnoticed(items[0], k)
    else ItemsUnnoticed(items[1..], k - |Spelled(items[0])|)
  }

  lemma NameBreaksOff(name: Name, w: nat, k: nat)
    requires w > 0 && |name| < Pow256(w) && k < w + |name|
    ensures ReadString((PutBe(|name|, w) + name)[..k], w) == Parse(false, [], [])
  {
    hide PutBe, GetBe, Pow256;
    GetPutBe(|name|, w);
    var s := (PutBe(|name|, w) + name)[..k];
    if k >= w {
      assert s[..w] == PutBe(|name|, w);
    }
  }

  lemma ScalarBreaksOff(v: Value, k: nat, prior: Option<Value>)
    requires Storable(v) && !v.Object? && !v.Array? && k < |Emit(v).bytes|
    ensures var r := ReadValue(Emit(v).bytes[..k], prior); !r.ok && r.rest == []
  {
    hide ReadString, PutBe, GetBe, ReadContainer;
    var s := Emit(v).bytes[..k];
    if v.Str? && k > 0 {
      Pow256Values();
      var w := if |v.s| < SHORT_LIMIT then 2 else 4;
      NameBreaksOff(v.s, w, k - 1);
      assert s[1..] == (PutBe(|v.s|, w) + v.s)[..k - 1];
    }
  }

  lemma AfterMarker(marker: byte, body: seq<byte>, all: seq<byte>, k: nat)
    requires all == [marker] + body && 0 < k <= |all|
    ensures all[..k][0] == marker && all[..k][1..] == body[..k - 1]
  {
  }

  /** Reading the first `k` bytes of any spelling drains them, and it succeeds if
      and only if the form breaks off unnoticed there. */
  lemma {:induction false} BreaksOff(f: Form, k: nat, prior: Option<Value>)
    requires WellFormed(f) && k < |Spelled(f)|
    ensures var r := ReadValue(Spelled(f)[..k], prior); r.rest == [] && (r.ok <==> Unnoticed(f, k))
    decreases f, 1
  {
    hide ReadBody, ReadEcma, ReadItemsBody, SpelledPairs, SpelledItems, PutBe, GetBe, ReadString, ReadScalar, Emit;
    hide BodyUnnoticed, PairsUnnoticed, ItemsUnnoticed;
    var s := Spelled(f)[..k];
    match f {
      case Scalar(v) => ScalarBreaksOff(v, k, prior);
      case Plain(pairs) =>
        if k > 0 {
          AfterMarker(0x03, SpelledPairs(pairs) + OBJECT_END, Spelled(f), k);
          BodyBreaksOff(pairs, k - 1, FieldsOf(prior));
        }
      case Typed(name, pairs) =>
        if k > 0 {
          TypedBreaksOff(name, pairs, k, FieldsOf(prior));
          AfterMarker(0x10, PutBe(|name|, 2) + name + SpelledPairs(pairs) + OBJECT_END, Spelled(f), k);
        }
      case Ecma(pairs) =>
        if k > 0 {
          AfterMarker(0x08, PutBe(|pairs|, 4) + SpelledPairs(pairs), Spelled(f), k);
          EcmaBreaksOff(pairs, k - 1, FieldsOf(prior));
        }
      case Strict(items) =>
        if k > 0 {
          AfterMarker(0x0A, PutBe(|items|, 4) + SpelledItems(items), Spelled(f), k);
          StrictBreaksOff(items, k - 1, ItemsOf(prior));
        }
    }
  }

  lemma NothingToRead(fields: seq<Entry>)
    ensures ReadBody([], fields) == Parse(true, fields, [])
  {
  }

  lemma {:induction false} TypedBreaksOff(name: Name, pairs: seq<Pair>, k: nat, fields: seq<Entry>)
    requires |name| < 65536 && forall p <- pairs :: 0 < |p.name| < 65536 && WellFormed(p.form)
    requires 0 < k < 3 + |name| + |SpelledPairs(pairs)| + 3
    ensures var s := (PutBe(|name|, 2) + name + SpelledPairs(pairs) + OBJECT_END)[..k - 1];
            var r := ReadBody(ReadString(s, 2).rest, fields);
            r.rest == [] && (r.ok <==> Unnoticed(Typed(name, pairs), k))
    decreases pairs, 4
  {
    hide ReadBody, SpelledPairs, PutBe, ReadString, BodyUnnoticed;
    var s := (PutBe(|name|, 2) + name + SpelledPairs(pairs) + OBJECT_END)[..k - 1];
    Pow256Values();
    if k < 3 + |name| {
      NameBreaksOff(name, 2, k - 1);
      assert s == (PutBe(|name|, 2) + name)[..k - 1];
      NothingToRead(fields);
    } else {
      var rest := (SpelledPairs(pairs) + OBJECT_END)[..k - 3 - |name|];
      ReadStringBack(name, 2, rest);
      assert s == PutBe(|name|, 2) + name + rest;
      BodyBreaksOff(pairs, k - 3 - |name|, fields);
    }
  }

  /** A pair that breaks off: within its name, or within its value. */
  lemma {:induction false} PairBreaksOff(p: Pair, tail: seq<byte>, k: nat, fields: seq<Entry>)
    requires |p.name| < 65536 && WellFormed(p.form) && k < Size(p)
    ensures var s := (PutBe(|p.name|, 2) + p.name + Spelled(p.form) + tail)[..k];
            var n := ReadString(s, 2);
            && (k < 2 + |p.name| ==> n == Parse(false, [], []))
            && (k >= 2 + |p.name| ==>
                  && n.ok && n.value == p.name
                  && ReadField(n.rest, fields, p.name).rest == []
                  && (ReadField(n.rest, fields, p.name).ok <==> Unnoticed(p.form, k - 2 - |p.name|)))
    decreases p, 2
  {
    hide PutBe, ReadString, Spelled, ReadValue, Set, Get, WellFormed, Unnoticed;
    var s := (PutBe(|p.name|, 2) + p.name + Spelled(p.form) + tail)[..k];
    Pow256Values();
    if k < 2 + |p.name| {
      NameBreaksOff(p.name, 2, k);
      assert s == (PutBe(|p.name|, 2) + p.name)[..k];
    } else {
      var d := k - 2 - |p.name|;
      ReadStringBack(p.name, 2, Spelled(p.form)[..d]);
      assert s == PutBe(|p.name|, 2) + p.name + Spelled(p.form)[..d];
      BreaksOff(p.form, d, Get(fields, p.name));
    }
  }

  lemma EndBreaksOff(k: nat, fields: seq<Entry>)
    requires k < 3
    ensures var r := ReadBody(OBJECT_END[..k], fields); r.rest == [] && (r.ok <==> k < 2)
  {
    hide ReadField, PutBe, GetBe;
    if k == 2 {
      assert OBJECT_END[..k] == [0, 0];
      assert PutBe(0, 2) == [0, 0] by { ZeroName(); }
      assert [0, 0] == PutBe(0, 2) + [] + [];
      Pow256Values();
      ReadStringBack([], 2, []);
    }
  }

  lemma ZeroName()
    ensures PutBe(0, 2) == [0, 0]
  {
  }

  lemma {:induction false} BodyBreaksOff(pairs: seq<Pair>, k: nat, fields: seq<Entry>)
    requires forall p <- pairs :: 0 < |p.name| < 65536 && WellFormed(p.form)
    requires k < |SpelledPairs(pairs)| + 3
    ensures var r := ReadBody((SpelledPairs(pairs) + OBJECT_END)[..k], fields);
            r.rest == [] && (r.ok <==> BodyUnnoticed(pairs, k))
    decreases pairs, 3
  {
    hide ReadField, ReadString, PutBe, Spelled, Meaning, Set, Get, WellFormed, Unnoticed;
    var s := (SpelledPairs(pairs) + OBJECT_END)[..k];
    if pairs == [] {
      assert s == OBJECT_END[..k];
      EndBreaksOff(k, fields);
    } else {
      var p := pairs[0];
      var tail := SpelledPairs(pairs[1..]) + OBJECT_END;
      assert SpelledPairs(pairs) + OBJECT_END == PutBe(|p.name|, 2) + p.name + Spelled(p.form) + tail;
      if k < Size(p) {
        PairBreaksOff(p, tail, k, fields);
        if k >= 2 + |p.name| {
          NothingToRead(ReadField(ReadString(s, 2).rest, fields, p.name).value);
        }
      } else {
        var d := k - Size(p);
        assert s == PutBe(|p.name|, 2) + p.name + Spelled(p.form) + tail[..d];
        PairReads(p, fields, tail[..d]);
        BodyBreaksOff(pairs[1..], d, Set(fields, p.name, Meaning(p.form, Get(fields, p.name))));
      }
    }
  }

  lemma {:induction false} EcmaBreaksOff(pairs: seq<Pair>, k: nat, fields: seq<Entry>)
    requires |pairs| < 0x1_0000_0000 && forall p <- pairs :: |p.name| < 65536 && WellFormed(p.form)
    requires k < 4 + |SpelledPairs(pairs)|
    ensures var r := ReadEcma((PutBe(|pairs|, 4) + SpelledPairs(pairs))[..k], fields);
            r.rest == [] && (r.ok <==> k >= 4 && PairsUnnoticed(pairs, k - 4))
    decreases pairs, 4
  {
    hide ReadPairs, PutBe, SpelledPairs, PairsUnnoticed;
    if k >= 4 {
      var rest := SpelledPairs(pairs)[..k - 4];
      assert (PutBe(|pairs|, 4) + SpelledPairs(pairs))[..k] == PutBe(|pairs|, 4) + rest;
      EcmaReads(|pairs|, rest, fields);
      PairsBreakOff(pairs, k - 4, fields);
    }
  }

  lemma {:induction false} PairsBreakOff(pairs: seq<Pair>, k: nat, fields: seq<Entry>)
    requires forall p <- pairs :: |p.name| < 65536 && WellFormed(p.form)
    requires k < |SpelledPairs(pairs)|
    ensures var r := ReadPairs(|pairs|, SpelledPairs(pairs)[..k], fields);
            r.rest == [] && (r.ok <==> PairsUnnoticed(pairs, k))
    decreases pairs, 3
  {
    hide ReadField, ReadString, PutBe, Spelled, Meaning, Set, Get, WellFormed, Unnoticed;
    var s := SpelledPairs(pairs)[..k];
    var p := pairs[0];
    var tail := SpelledPairs(pairs[1..]);
    assert SpelledPairs(pairs) == PutBe(|p.name|, 2) + p.name + Spelled(p.form) + tail;
    if k < Size(p) {
      PairBreaksOff(p, tail, k, fields);
      NoName();
    } else {
      var d := k - Size(p);
      assert s == PutBe(|p.name|, 2) + p.name + Spelled(p.form) + tail[..d];
      PairReads(p, fields, tail[..d]);
      PairsBreakOff(pairs[1..], d, Set(fields, p.name, Meaning(p.form, Get(fields, p.name))));
    }
  }

  lemma NoName()
    ensures ReadString([], 2) == Parse(false, [], [])
  {
  }

  lemma {:induction false} StrictBreaksOff(items: seq<Form>, k: nat, acc: seq<Value>)
    requires |items| < 0x1_0000_0000 && forall i <- items :: WellFormed(i)
    requires k < 4 + |SpelledItems(items)|
    ensures var r := ReadItemsBody((PutBe(|items|, 4) + SpelledItems(items))[..k], acc);
            r.rest == [] && (r.ok <==> k >= 4 && ItemsUnnoticed(items, k - 4))
    decreases items, 4
  {
    hide ReadItems, PutBe, SpelledItems, ItemsUnnoticed;
    if k >= 4 {
      var rest := SpelledItems(items)[..k - 4];
      assert (PutBe(|items|, 4) + SpelledItems(items))[..k] == PutBe(|items|, 4) + rest;
      ItemsRead(|items|, rest, acc);
      ItemsBreakOff(items, k - 4, acc);
    }
  }

  lemma {:induction false} ItemsBreakOff(items: seq<Form>, k: nat, acc: seq<Value>)
    requires forall i <- items :: WellFormed(i)
    requires k < |SpelledItems(items)|
    ensures var r := ReadItems(|items|, SpelledItems(items)[..k], acc);
            r.rest == [] && (r.ok <==> ItemsUnnoticed(items, k))
    decreases items, 3
  {
    hide ReadValue, Spelled, Meaning, WellFormed, Unnoticed;
    var s := SpelledItems(items)[..k];
    var i := items[0];
    var tail := SpelledItems(items[1..]);
    assert SpelledItems(items) == Spelled(i) + tail;
    assert i in items;
    if k < |Spelled(i)| {
      assert s == Spelled(i)[..k];
      BreaksOff(i, k, None);
      NoItem(ReadItem(s, acc).value);
    } else {
      var d := k - |Spelled(i)|;
      assert s == Spelled(i) + tail[..d];
      Understood(i, None, tail[..d]);
      ItemsBreakOff(items[1..], d, acc + [Meaning(i, None)]);
    }
  }

  lemma NoItem(acc: seq<Value>)
    ensures !ReadItem([], acc).ok && ReadItem([], acc).rest == []
  {
  }

  /** A form without object bodies at any depth. */
  ghost predicate Counted(f: Form) {
    match f
    case Scalar(_) => true
    case Plain(_) => false
    case Typed(_, _) => false
    case Ecma(pairs) => forall p <- pairs :: Counted(p.form)
    case Strict(items) => forall i <- items :: Counted(i)
  }

  /** Such a form never breaks off unnoticed. */
  lemma {:induction false} CountedIsNoticed(f: Form, k: nat)
    requires Counted(f)
    ensures !Unnoticed(f, k)
    decreases f, 1
  {
    hide PairsUnnoticed, ItemsUnnoticed;
    match f {
      case Ecma(pairs) =>
        if k >= 5 {
          CountedPairs(pairs, k - 5);
        }
      case Strict(items) =>
        if k >= 5 {
          CountedItems(items, k - 5);
        }
      case _ =>
    }
  }

  lemma {:induction false} CountedPairs(pairs: seq<Pair>, k: nat)
    requires forall p <- pairs :: Counted(p.form)
    ensures !PairsUnnoticed(pairs, k)
    decreases pairs, 2
  {
    hide Unnoticed, Counted, Spelled;
    if pairs != [] && k >= 2 + |pairs[0].name| {
      if k < Size(pairs[0]) {
        CountedIsNoticed(pairs[0].form, k - 2 - |pairs[0].name|);
      } else {
        CountedPairs(pairs[1..], k - Size(pairs[0]));
      }
    }
  }

  lemma {:induction false} CountedItems(items: seq<Form>, k: nat)
    requires forall i <- items :: Counted(i)
    ensures !ItemsUnnoticed(items, k)
    decreases items, 2
  {
    hide Unnoticed, Counted, Spelled;
    if items != [] {
      if k < |Spelled(items[0])| {
        CountedIsNoticed(items[0], k);
      } else {
        CountedItems(items[1..], k - |Spelled(items[0])|);
      }
    }
  }
}
