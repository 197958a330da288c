/** The AMFObject/AMFArray writers of amf.cpp: what they emit, and the methods
    that put it into a chunked stream. */
module AmfWriter {
  import opened Bytes
  import opened AmfValues
  import opened AmfStreams

  /** The bytes a writer puts while there is room, and whether it gets to its
      end without calling set_bad. */
  datatype Emission = Emission(bytes: seq<byte>, ok: bool)

  function Then(first: Emission, second: Emission): Emission {
    if first.ok then Emission(first.bytes + second.bytes, second.ok) else first
  }

  const OBJECT_END: seq<byte> := [0, 0, MARKER_OBJECT_END]

  /** SetString chose the tag by the length of the string. */
  function EmitString(s: seq<byte>): seq<byte> {
    if |s| < SHORT_LIMIT then [MARKER_STRING] + PutBe(|s|, 2) + s
    else [MARKER_LONG_STRING] + PutBe(|s|, 4) + s
  }

  /** WriteAMFField */
  function Emit(v: Value): Emission {
    match v
    case Number(bits) => Emission([MARKER_NUMBER] + PutBe(bits, 8), true)
    case Boolean(b) => Emission([MARKER_BOOLEAN, if b then 1 else 0], true)
    case Str(s) => Emission(EmitString(s), true)
    case Object(fields) =>
      Then(Emission([MARKER_OBJECT], true), Then(EmitFields(fields), Emission(OBJECT_END, true)))
    case Array(items) =>
      Then(Emission([MARKER_STRICT_ARRAY] + PutBe(|items|, 4), true), EmitItems(items))
    case Null => Emission([MARKER_NULL], true)
    case Undefined => Emission([MARKER_UNDEFINED], true)
    case Unsupported => Emission([MARKER_UNSUPPORTED], true)
  }

  function EmitEntry(e: Entry): Emission {
    if |e.name| >= SHORT_LIMIT then Emission([], false)
    else Then(Emission(PutBe(|e.name|, 2) + e.name, true), Emit(e.value))
  }

  function EmitFields(fields: seq<Entry>): Emission {
    if fields == [] then Emission([], true)
    else Then(EmitEntry(fields[0]), EmitFields(fields[1..]))
  }

  function EmitItems(items: seq<Value>): Emission {
    if items == [] then Emission([], true)
    else Then(Emit(items[0]), EmitItems(items[1..]))
  }

  ghost predicate ShortNames(v: Value) {
    match v
    case Object(fields) => forall e <- fields :: |e.name| < SHORT_LIMIT && ShortNames(e.value)
    case Array(items) => forall i <- items :: ShortNames(i)
    case _ => true
  }

  /** With room enough, a writer gets to its end exactly when no name at any
      depth has 65536 bytes or more. */
  lemma {:induction false} CompleteIffShortNames(v: Value)
    ensures Emit(v).ok <==> ShortNames(v)
    decreases v, 1
  {
    hide PutBe, EmitFields, EmitItems;
    match v
    case Object(fields) => FieldsCompleteIff(fields);
    case Array(items) => ItemsCompleteIff(items);
    case _ =>
  }

  lemma {:induction false} FieldsCompleteIff(fields: seq<Entry>)
    ensures EmitFields(fields).ok <==> forall e <- fields :: |e.name| < SHORT_LIMIT && ShortNames(e.value)
    decreases fields, 2
  {
    hide Emit, PutBe, ShortNames;
    if fields != [] {
      CompleteIffShortNames(fields[0].value);
      FieldsCompleteIff(fields[1..]);
      assert fields == [fields[0]] + fields[1..];
    }
  }

  lemma {:induction false} ItemsCompleteIff(items: seq<Value>)
    ensures EmitItems(items).ok <==> forall i <- items :: ShortNames(i)
    decreases items, 2
  {
    hide Emit, ShortNames;
    if items != [] {
      CompleteIffShortNames(items[0]);
      ItemsCompleteIff(items[1..]);
      assert items == [items[0]] + items[1..];
    }
  }

  // ---- The writers over a chunked stream ----

  /** Writing `e`: the stream stays good exactly when `e` is complete and all
      of it fits. */
  function Apply(st: OutState, e: Emission): OutState {
    var after := Put(st, e.bytes);
    after.(good := after.good && e.ok)
  }

  lemma Complete(st: OutState, bytes: seq<byte>)
    ensures Apply(st, Emission(bytes, true)) == Put(st, bytes)
    ensures Keeps(st, Put(st, bytes))
  {
  }

  /** A writer that stops at the first failure and one whose next puts find no
      room leave the same stream. */
  lemma ApplyThen(st: OutState, a: Emission, b: Emission)
    ensures a.ok ==> Apply(st, Then(a, b)) == Apply(Apply(st, a), b)
    ensures st.good && !Apply(st, a).good ==> Apply(st, Then(a, b)) == Apply(st, a)
    ensures Apply(st, a).good ==> a.ok
  {
    if a.ok {
      PutConcat(st, a.bytes, b.bytes);
      if |a.bytes| > st.room {
        assert Take(b.bytes, 0) == [];
        assert Apply(st, a).stored + [] == Apply(st, a).stored;
      }
    }
  }

  lemma ThenAssociative(a: Emission, b: Emission, c: Emission)
    ensures Then(Then(a, b), c) == Then(a, Then(b, c))
  {
    assert (a.bytes + b.bytes) + c.bytes == a.bytes + (b.bytes + c.bytes);
  }

  /** What the C++ types and `putn(const void*, int)` demand: 64-bit words,
      strings below 2^31, arrays below 2^32, and objects that are maps. */
  ghost predicate Storable(v: Value) {
    match v
    case Number(bits) => bits < Pow256(8)
    case Str(s) => |s| < 0x8000_0000
    case Object(fields) => Sorted(fields) && forall e <- fields :: Storable(e.value)
    case Array(items) => |items| < 0x1_0000_0000 && forall i <- items :: Storable(i)
    case _ => true
  }

  /** The outcome of every writer. Bytes and room are conserved; a stream that
      was bad before stays bad and keeps what it had. */
  twostate predicate Wrote(stream: OutputStream, e: Emission)
    reads stream
  {
    && stream.Valid()
    && stream.buffers == old(stream.buffers) && stream.base == old(stream.base)
    && old(stream.stored) <= stream.stored
    && |stream.stored| + stream.State().room == |old(stream.stored)| + old(stream.State()).room
    && (!old(stream.good) ==> !stream.good)
    && (old(stream.good) ==> stream.State() == Apply(old(stream.State()), e))
  }

  /** No put changes a bad stream without room. */
  lemma Stuck(st: OutState, e: Emission)
    requires st.room == 0 && !st.good
    ensures Apply(st, e) == st
  {
    assert Take(e.bytes, 0) == [];
    assert st.stored + [] == st.stored;
  }

  method WriteString(s: seq<byte>, stream: OutputStream)
    requires stream.Valid() && |s| < 0x8000_0000
    modifies stream
    ensures Wrote(stream, Emission(EmitString(s), true))
  {
    hide PutBe, Sum, Put, Apply;
    ghost var st := stream.State();
    if |s| < SHORT_LIMIT {
      stream.PutU8(MARKER_STRING);
      stream.PutInt(|s|, 2);
      PutConcat(st, [MARKER_STRING], PutBe(|s|, 2));
      PutConcat(st, [MARKER_STRING] + PutBe(|s|, 2), s);
    } else {
      stream.PutU8(MARKER_LONG_STRING);
      stream.PutInt(|s|, 4);
      PutConcat(st, [MARKER_LONG_STRING], PutBe(|s|, 4));
      PutConcat(st, [MARKER_LONG_STRING] + PutBe(|s|, 4), s);
    }
    stream.PutN(s);
    Complete(st, EmitString(s));
  }

  method WriteField(v: Value, stream: OutputStream)
    requires stream.Valid() && Storable(v)
    modifies stream
    ensures Wrote(stream, Emit(v))
    decreases v, 1
  {
    hide PutBe, Sum, EmitFields, EmitItems, EmitString, Put, Apply, Storable;
    ghost var st := stream.State();
    match v {
      case Number(bits) =>
        stream.PutU8(MARKER_NUMBER);
        stream.PutInt(bits, 8);
        PutConcat(st, [MARKER_NUMBER], PutBe(bits, 8));
      case Boolean(b) =>
        ghost var bit: byte := if b then 1 else 0;
        stream.PutU8(MARKER_BOOLEAN);
        stream.PutU8(if b then 1 else 0);
        PutConcat(st, [MARKER_BOOLEAN], [bit]);
        assert [MARKER_BOOLEAN] + [bit] == [MARKER_BOOLEAN, bit];
      case Str(s) =>
        StorableString(s);
        WriteString(s, stream);
        return;
      case Object(fields) =>
        WriteObject(fields, stream);
        return;
      case Array(items) =>
        WriteArray(items, stream);
        return;
      case Null => stream.PutU8(MARKER_NULL);
      case Undefined => stream.PutU8(MARKER_UNDEFINED);
      case Unsupported => stream.PutU8(MARKER_UNSUPPORTED);
    }
    Complete(st, Emit(v).bytes);
  }

  lemma StorableString(s: seq<byte>)
    requires Storable(Str(s))
    ensures |s| < 0x8000_0000
  {
  }

  method WriteEntry(e: Entry, stream: OutputStream)
    requires stream.Valid() && Storable(e.value)
    modifies stream
    ensures Wrote(stream, EmitEntry(e))
    decreases e, 2
  {
    hide PutBe, Sum, Emit, Apply, Put, Then;
    ghost var st := stream.State();
    if |e.name| >= SHORT_LIMIT {
      stream.SetBad();
      Refused(st);
      return;
    }
    stream.PutInt(|e.name|, 2);
    stream.PutN(e.name);
    ghost var name := PutBe(|e.name|, 2) + e.name;
    PutConcat(st, PutBe(|e.name|, 2), e.name);
    Complete(st, name);
    WriteField(e.value, stream);
    ApplyThen(st, Emission(name, true), Emit(e.value));
  }

  lemma Refused(st: OutState)
    ensures Apply(st, Emission([], false)) == st.(good := false)
  {
    assert st.stored + Take([], st.room) == st.stored;
  }

  /** What is still to be written of an object. */
  ghost function FieldsFrom(fields: seq<Entry>): Emission {
    Then(EmitFields(fields), Emission(OBJECT_END, true))
  }

  lemma FieldsFromStep(fields: seq<Entry>, i: nat)
    requires i < |fields|
    ensures FieldsFrom(fields[i..]) == Then(EmitEntry(fields[i]), FieldsFrom(fields[i + 1..]))
  {
    hide EmitEntry;
    assert fields[i..][1..] == fields[i + 1..];
    ThenAssociative(EmitEntry(fields[i]), EmitFields(fields[i + 1..]), Emission(OBJECT_END, true));
  }

  lemma ItemsFromStep(items: seq<Value>, i: nat)
    requires i < |items|
    ensures EmitItems(items[i..]) == Then(Emit(items[i]), EmitItems(items[i + 1..]))
  {
    hide Emit, Then;
    assert items[i..][1..] == items[i + 1..];
  }

  lemma ObjectStart(st: OutState, fields: seq<Entry>)
    ensures Apply(Put(st, [MARKER_OBJECT]), FieldsFrom(fields)) == Apply(st, Emit(Object(fields)))
  {
    hide EmitFields;
    ApplyThen(st, Emission([MARKER_OBJECT], true), FieldsFrom(fields));
  }

  lemma ObjectTail(st: OutState)
    ensures Put(Put(st, PutBe(0, 2)), [MARKER_OBJECT_END]) == Apply(st, FieldsFrom([]))
    ensures Keeps(st, Apply(st, FieldsFrom([])))
  {
    assert PutBe(0, 2) + [MARKER_OBJECT_END] == OBJECT_END == [] + OBJECT_END;
    PutConcat(st, PutBe(0, 2), [MARKER_OBJECT_END]);
  }

  method WriteObject(fields: seq<Entry>, stream: OutputStream)
    requires stream.Valid() && Storable(Object(fields))
    modifies stream
    ensures Wrote(stream, Emit(Object(fields)))
    decreases fields, 3
  {
    hide Sum, Emit, EmitEntry, Apply, Then, Put, PutBe, FieldsFrom;
    ghost var st := stream.State();
    stream.PutU8(MARKER_OBJECT);
    PutKeeps(st, [MARKER_OBJECT]);
    ObjectStart(st, fields);
    assert fields[0..] == fields;
    for i := 0 to |fields|
      invariant stream.Valid() && Keeps(st, stream.State())
      invariant stream.buffers == old(stream.buffers) && stream.base == old(stream.base)
      invariant st.good ==> Apply(stream.State(), FieldsFrom(fields[i..])) == Apply(st, Emit(Object(fields)))
    {
      ghost var before := stream.State();
      assert fields[i] in fields;
      WriteEntry(fields[i], stream);
      FieldsFromStep(fields, i);
      ApplyThen(before, EmitEntry(fields[i]), FieldsFrom(fields[i + 1..]));
      if !stream.good {
        if st.good && !before.good {
          Stuck(before, FieldsFrom(fields[i..]));
        }
        return;
      }
    }
    assert fields[|fields|..] == [];
    ObjectTail(stream.State());
    stream.PutInt(0, 2);
    stream.PutU8(MARKER_OBJECT_END);
  }

  lemma ArrayStart(st: OutState, items: seq<Value>)
    ensures var start := Put(Put(st, [MARKER_STRICT_ARRAY]), PutBe(|items|, 4));
            Keeps(st, start) && Apply(start, EmitItems(items)) == Apply(st, Emit(Array(items)))
  {
    hide EmitItems, PutBe, Put, Apply;
    var header := [MARKER_STRICT_ARRAY] + PutBe(|items|, 4);
    PutConcat(st, [MARKER_STRICT_ARRAY], PutBe(|items|, 4));
    Complete(st, header);
    ApplyThen(st, Emission(header, true), EmitItems(items));
  }

  method WriteArray(items: seq<Value>, stream: OutputStream)
    requires stream.Valid() && Storable(Array(items))
    modifies stream
    ensures Wrote(stream, Emit(Array(items)))
    decreases items, 3
  {
    hide Sum, Emit, Apply, Then, Put, PutBe;
    ghost var st := stream.State();
    stream.PutU8(MARKER_STRICT_ARRAY);
    stream.PutInt(|items|, 4);
    ArrayStart(st, items);
    assert items[0..] == items;
    for i := 0 to |items|
      invariant stream.Valid() && Keeps(st, stream.State())
      invariant stream.buffers == old(stream.buffers) && stream.base == old(stream.base)
      invariant st.good ==> Apply(stream.State(), EmitItems(items[i..])) == Apply(st, Emit(Array(items)))
    {
      ghost var before := stream.State();
      assert items[i] in items;
      WriteField(items[i], stream);
      ItemsFromStep(items, i);
      ApplyThen(before, Emit(items[i]), EmitItems(items[i + 1..]));
      if !stream.good {
        if st.good && !before.good {
          Stuck(before, EmitItems(items[i..]));
        }
        return;
      }
    }
    assert items[|items|..] == [];
    NothingMore(stream.State());
  }

  lemma NothingMore(st: OutState)
    ensures Apply(st, Emission([], true)) == st
  {
    assert st.stored + Take([], st.room) == st.stored;
  }
}
