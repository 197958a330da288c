/** The AMFObject readers of amf.cpp: first as functions of a flat byte
    sequence, then as methods that cut a chunked stream and are proved to
    compute those functions. */
module AmfReader {
  import opened Bytes
  import opened AmfValues
  import opened AmfStreams

  /** Outcome of a reader: whether it returned true, what it left in its output
      (filled in part when it returned false) and the bytes not yet cut. */
  datatype Parse<T> = Parse(ok: bool, value: T, rest: seq<byte>)

  /** ReadAMFShortStringBody (w == 2) and ReadAMFLongStringBody (w == 4): a
      failed read has drained the stream. */
  function ReadString(s: seq<byte>, w: nat): (r: Parse<seq<byte>>)
    requires w > 0
    ensures r.ok ==> |r.rest| + w <= |s|
    ensures !r.ok ==> r.rest == []
  {
    if |s| < w then Parse(false, [], [])
    else
      var n := GetBe(s[..w]);
      if |s| - w < n then Parse(false, [], [])
      else Parse(true, s[w..w + n], s[w + n..])
  }

  predicate NotSupported(marker: byte) {
    marker in {MARKER_MOVIECLIP, MARKER_REFERENCE, MARKER_DATE, MARKER_RECORDSET, MARKER_XML_DOCUMENT, MARKER_AVMPLUS_OBJECT}
  }

  /** MutableObject / MutableArray keep what the field already holds. */
  function FieldsOf(prior: Option<Value>): seq<Entry> {
    if prior.Some? && prior.value.Object? then prior.value.fields else []
  }

  function ItemsOf(prior: Option<Value>): seq<Value> {
    if prior.Some? && prior.value.Array? then prior.value.items else []
  }

  /** The part of the switch that needs no recursion. A stray object-end and
      unknown markers assign nothing and return true. */
  function ReadScalar(marker: byte, body: seq<byte>): (r: Parse<Option<Value>>)
    ensures |r.rest| <= |body|
  {
    if marker == MARKER_NUMBER then
      if |body| < 8 then Parse(false, None, [])
      else Parse(true, Some(Number(GetBe(body[..8]))), body[8..])
    else if marker == MARKER_BOOLEAN then
      if |body| < 1 then Parse(false, None, [])
      else Parse(true, Some(Boolean(body[0] != 0)), body[1..])
    else if marker == MARKER_STRING || marker == MARKER_LONG_STRING then
      var str := ReadString(body, if marker == MARKER_STRING then 2 else 4);
      Parse(str.ok, if str.ok then Some(Str(str.value)) else None, str.rest)
    else if marker == MARKER_NULL then Parse(true, Some(Null), body)
    else if marker == MARKER_UNDEFINED then Parse(true, Some(Undefined), body)
    else if marker == MARKER_UNSUPPORTED then Parse(true, Some(Unsupported), body)
    else Parse(!NotSupported(marker), None, body)
  }

  predicate IsContainer(marker: byte) {
    marker in {MARKER_OBJECT, MARKER_TYPED_OBJECT, MARKER_ECMA_ARRAY, MARKER_STRICT_ARRAY}
  }

  /** Objects and arrays; a class name that cannot be read is reported and then
      ignored. */
  function ReadContainer(marker: byte, body: seq<byte>, prior: Option<Value>): (r: Parse<Option<Value>>)
    ensures |r.rest| <= |body|
    decreases |body|, 5
  {
    if marker == MARKER_STRICT_ARRAY then
      var a := ReadItemsBody(body, ItemsOf(prior));
      Parse(a.ok, Some(Array(a.value)), a.rest)
    else
      var o :=
        if marker == MARKER_ECMA_ARRAY then ReadEcma(body, FieldsOf(prior))
        else if marker == MARKER_OBJECT then ReadBody(body, FieldsOf(prior))
        else ReadBody(ReadString(body, 2).rest, FieldsOf(prior));
      Parse(o.ok, Some(Object(o.value)), o.rest)
  }

  /** The switch shared by ReadAMFObjectField and ReadAMFArrayItem. `prior` is
      what the target field holds; the result is the value assigned to it, or
      None when the switch assigns nothing. */
  function ReadValue(s: seq<byte>, prior: Option<Value>): (r: Parse<Option<Value>>)
    ensures s == [] ==> !r.ok && r.value == None && r.rest == []
    ensures s != [] ==> |r.rest| < |s|
    decreases |s|, 0
  {
    if s == [] then Parse(false, None, [])
    else if IsContainer(s[0]) then ReadContainer(s[0], s[1..], prior)
    else ReadScalar(s[0], s[1..])
  }

  /** ReadAMFObjectField */
  function ReadField(s: seq<byte>, obj: seq<Entry>, name: Name): (r: Parse<seq<Entry>>)
    ensures |r.rest| <= |s|
    ensures r.ok ==> |r.rest| < |s|
    decreases |s|, 1
  {
    var v := ReadValue(s, Get(obj, name));
    Parse(v.ok, if v.value.None? then obj else Set(obj, name, v.value.value), v.rest)
  }

  /** The bytes cut from `s` end with an empty name and object-end. */
  ghost predicate EndsWithObjectEnd(s: seq<byte>, rest: seq<byte>) {
    var cut := |s| - |rest|;
    3 <= cut && s[cut - 3..cut] == PutBe(0, 2) + [MARKER_OBJECT_END]
  }

  /** ReadAMFObjectBody: true means that an object-end was matched or that the
      stream ran out. */
  function ReadBody(s: seq<byte>, obj: seq<Entry>): (r: Parse<seq<Entry>>)
    ensures |r.rest| <= |s|
    decreases |s|, 2
  {
    var n := ReadString(s, 2);
    if !n.ok then Parse(true, obj, n.rest)
    else if n.value == [] then
      if n.rest == [] then Parse(false, obj, [])
      else Parse(n.rest[0] == MARKER_OBJECT_END, obj, n.rest[1..])
    else
      var f := ReadField(n.rest, obj, n.value);
      if f.ok then ReadBody(f.rest, f.value) else f
  }

  /** ReadAMFEcmaArrayBody */
  function ReadEcma(s: seq<byte>, obj: seq<Entry>): (r: Parse<seq<Entry>>)
    ensures |r.rest| <= |s|
    decreases |s|, 4
  {
    if |s| < 4 then Parse(false, obj, []) else ReadPairs(GetBe(s[..4]), s[4..], obj)
  }

  function ReadPairs(count: nat, s: seq<byte>, obj: seq<Entry>): (r: Parse<seq<Entry>>)
    ensures |r.rest| <= |s|
    decreases |s|, 3
  {
    if count == 0 then Parse(true, obj, s)
    else
      var n := ReadString(s, 2);
      if !n.ok then Parse(false, obj, n.rest)
      else
        var f := ReadField(n.rest, obj, n.value);
        if f.ok then ReadPairs(count - 1, f.rest, f.value) else f
  }

  /** ReadAMFArrayItem */
  function ReadItem(s: seq<byte>, arr: seq<Value>): (r: Parse<seq<Value>>)
    ensures |r.rest| <= |s|
    ensures r.ok ==> |r.rest| < |s|
    ensures |arr| <= |r.value| <= |arr| + 1
    ensures s == [] ==> r.value == arr
    decreases |s|, 1
  {
    var v := ReadValue(s, None);
    Parse(v.ok, if v.value.None? then arr else arr + [v.value.value], v.rest)
  }

  /** ReadAMFArrayBody */
  function ReadItemsBody(s: seq<byte>, arr: seq<Value>): (r: Parse<seq<Value>>)
    ensures |r.rest| <= |s|
    decreases |s|, 4
  {
    if |s| < 4 then Parse(false, arr, []) else ReadItems(GetBe(s[..4]), s[4..], arr)
  }

  function ReadItems(count: nat, s: seq<byte>, arr: seq<Value>): (r: Parse<seq<Value>>)
    ensures |r.rest| <= |s|
    decreases |s|, 3
  {
    if count == 0 then Parse(true, arr, s)
    else
      var i := ReadItem(s, arr);
      if i.ok then ReadItems(count - 1, i.rest, i.value) else i
  }

  /** ReadAMFObject: null reads as an object without fields. */
  function ReadObject(s: seq<byte>, obj: seq<Entry>): (r: Parse<seq<Entry>>)
    ensures |r.rest| <= |s|
  {
    if s == [] then Parse(false, obj, [])
    else if s[0] == MARKER_OBJECT then ReadBody(s[1..], obj)
    else if s[0] == MARKER_ECMA_ARRAY then ReadEcma(s[1..], obj)
    else Parse(s[0] == MARKER_NULL, obj, s[1..])
  }

  /** ReadAMFArray: null reads as an array without items. */
  function ReadArray(s: seq<byte>, arr: seq<Value>): (r: Parse<seq<Value>>)
    ensures |r.rest| <= |s|
  {
    if s == [] then Parse(false, arr, [])
    else if s[0] == MARKER_STRICT_ARRAY then ReadItemsBody(s[1..], arr)
    else Parse(s[0] == MARKER_NULL, arr, s[1..])
  }

  // ---- What the readers consume ----

  ghost predicate IsSuffix(rest: seq<byte>, s: seq<byte>) {
    |rest| <= |s| && s[|s| - |rest|..] == rest
  }

  lemma SuffixTransitive(a: seq<byte>, b: seq<byte>, c: seq<byte>)
    requires IsSuffix(a, b) && IsSuffix(b, c)
    ensures IsSuffix(a, c)
  {
    assert a == b[|b| - |a|..] == c[|c| - |b|..][|b| - |a|..];
  }

  lemma DropIsSuffix(s: seq<byte>, k: nat)
    requires k <= |s|
    ensures IsSuffix(s[k..], s)
  {
  }

  lemma StringSuffix(s: seq<byte>, w: nat)
    requires w > 0
    ensures IsSuffix(ReadString(s, w).rest, s)
  {
    var r := ReadString(s, w);
    if r.ok {
      DropIsSuffix(s, w + GetBe(s[..w]));
    }
  }

  lemma ScalarSuffix(marker: byte, body: seq<byte>)
    ensures IsSuffix(ReadScalar(marker, body).rest, body)
  {
    hide ReadString;
    if marker == MARKER_STRING || marker == MARKER_LONG_STRING {
      StringSuffix(body, if marker == MARKER_STRING then 2 else 4);
    }
  }

  lemma {:induction false} ValueSuffix(s: seq<byte>, prior: Option<Value>)
    ensures IsSuffix(ReadValue(s, prior).rest, s)
    decreases |s|, 0
  {
    hide ReadContainer, ReadScalar;
    if s != [] {
      DropIsSuffix(s, 1);
      if IsContainer(s[0]) {
        ContainerSuffix(s[0], s[1..], prior);
      } else {
        ScalarSuffix(s[0], s[1..]);
      }
      SuffixTransitive(ReadValue(s, prior).rest, s[1..], s);
    }
  }

  lemma {:induction false} ContainerSuffix(marker: byte, body: seq<byte>, prior: Option<Value>)
    ensures IsSuffix(ReadContainer(marker, body, prior).rest, body)
    decreases |body|, 4
  {
    hide ReadBody, ReadEcma, ReadItemsBody, ReadString;
    if marker == MARKER_STRICT_ARRAY {
      ItemsBodySuffix(body, ItemsOf(prior));
    } else if marker == MARKER_ECMA_ARRAY {
      EcmaSuffix(body, FieldsOf(prior));
    } else if marker == MARKER_OBJECT {
      BodyEnds(body, FieldsOf(prior));
    } else {
      var start := ReadString(body, 2).rest;
      StringSuffix(body, 2);
      BodyEnds(start, FieldsOf(prior));
      SuffixTransitive(ReadBody(start, FieldsOf(prior)).rest, start, body);
    }
  }

  lemma {:induction false} NamedFieldSuffix(s: seq<byte>, obj: seq<Entry>)
    requires ReadString(s, 2).ok
    ensures var n := ReadString(s, 2);
            var rest := ReadField(n.rest, obj, n.value).rest;
            IsSuffix(rest, s) && |rest| < |s|
    decreases |s|, 1
  {
    hide ReadValue, ReadString;
    var n := ReadString(s, 2);
    StringSuffix(s, 2);
    ValueSuffix(n.rest, Get(obj, n.value));
    SuffixTransitive(ReadField(n.rest, obj, n.value).rest, n.rest, s);
  }

  lemma EndCarriesOver(s: seq<byte>, mid: seq<byte>, rest: seq<byte>)
    requires IsSuffix(mid, s) && |rest| <= |mid| && EndsWithObjectEnd(mid, rest)
    ensures EndsWithObjectEnd(s, rest)
  {
    var d, cut := |s| - |mid|, |mid| - |rest|;
    assert mid[cut - 3..cut] == s[d..][cut - 3..cut] == s[d + cut - 3..d + cut];
  }

  lemma {:induction false} EcmaSuffix(s: seq<byte>, obj: seq<Entry>)
    ensures IsSuffix(ReadEcma(s, obj).rest, s)
    decreases |s|, 3
  {
    hide ReadPairs, GetBe;
    if |s| >= 4 {
      DropIsSuffix(s, 4);
      PairsSuffix(GetBe(s[..4]), s[4..], obj);
      SuffixTransitive(ReadEcma(s, obj).rest, s[4..], s);
    }
  }

  lemma {:induction false} ItemsBodySuffix(s: seq<byte>, arr: seq<Value>)
    ensures IsSuffix(ReadItemsBody(s, arr).rest, s)
    decreases |s|, 3
  {
    hide ReadItems, GetBe;
    if |s| >= 4 {
      DropIsSuffix(s, 4);
      ItemsBounded(GetBe(s[..4]), s[4..], arr);
      SuffixTransitive(ReadItemsBody(s, arr).rest, s[4..], s);
    }
  }

  /** An object body that was read with success either matched an object-end,
      the last thing it cut, or drained the stream; the bytes left are always
      the end of the bytes given. */
  lemma {:induction false} BodyEnds(s: seq<byte>, obj: seq<Entry>)
    ensures var r := ReadBody(s, obj);
            IsSuffix(r.rest, s) && (r.ok ==> r.rest == [] || EndsWithObjectEnd(s, r.rest))
    decreases |s|, 2
  {
    hide ReadField;
    var n := ReadString(s, 2);
    var r := ReadBody(s, obj);
    StringSuffix(s, 2);
    if n.ok && n.value == [] && r.ok {
      assert GetBe(s[..2]) == 256 * GetBe(s[..2][..1]) + s[1] == 0;
      assert s[..3] == PutBe(0, 2) + [MARKER_OBJECT_END];
    } else if n.ok && n.value != [] {
      var f := ReadField(n.rest, obj, n.value);
      NamedFieldSuffix(s, obj);
      if f.ok {
        assert r == ReadBody(f.rest, f.value);
        BodyEnds(f.rest, f.value);
        SuffixTransitive(r.rest, f.rest, s);
        if r.ok && r.rest != [] {
          EndCarriesOver(s, f.rest, r.rest);
        }
      }
    }
  }

  lemma {:induction false} PairsSuffix(count: nat, s: seq<byte>, obj: seq<Entry>)
    ensures IsSuffix(ReadPairs(count, s, obj).rest, s)
    decreases |s|, 2
  {
    hide ReadField, ReadString;
    var n := ReadString(s, 2);
    if count != 0 && n.ok {
      NamedFieldSuffix(s, obj);
      var f := ReadField(n.rest, obj, n.value);
      if f.ok {
        PairsSuffix(count - 1, f.rest, f.value);
        SuffixTransitive(ReadPairs(count - 1, f.rest, f.value).rest, f.rest, s);
      }
    }
  }

  lemma {:induction false} ItemSuffix(s: seq<byte>, arr: seq<Value>)
    ensures IsSuffix(ReadItem(s, arr).rest, s)
    ensures arr <= ReadItem(s, arr).value
    ensures ReadItem(s, arr).value != arr ==> |ReadItem(s, arr).rest| < |s|
    decreases |s|, 1
  {
    hide ReadValue;
    ValueSuffix(s, None);
  }

  /** Whatever count a strict array declares, it gains no more items than the
      bytes it cut, and it keeps the items it had. */
  lemma {:induction false} ItemsBounded(count: nat, s: seq<byte>, arr: seq<Value>)
    ensures var r := ReadItems(count, s, arr);
            && IsSuffix(r.rest, s)
            && arr <= r.value
            && |r.value| - |arr| <= |s| - |r.rest|
            && |r.value| - |arr| <= count
    decreases |s|, 2
  {
    hide ReadItem;
    if count != 0 {
      ItemSuffix(s, arr);
      var i := ReadItem(s, arr);
      if i.ok {
        ItemsBounded(count - 1, i.rest, i.value);
        SuffixTransitive(ReadItems(count - 1, i.rest, i.value).rest, i.rest, s);
      }
    }
  }

  // ---- The readers over a chunked stream ----

  /** How far a reader moved the stream, and what it found there. */
  twostate predicate Moved(stream: InputStream, new rest: seq<byte>)
    reads stream
  {
    && stream.Remaining() == rest
    && |rest| <= |old(stream.Remaining())|
    && stream.popped == old(stream.popped) + (|old(stream.Remaining())| - |rest|)
  }

  method ReadStringBody(stream: InputStream, w: nat) returns (ok: bool, str: seq<byte>)
    requires w > 0
    modifies stream
    ensures Parse(ok, str, stream.Remaining()) == ReadString(old(stream.Remaining()), w)
    ensures Moved(stream, stream.Remaining())
  {
    hide GetBe;
    ghost var s := stream.Remaining();
    var got, len := stream.CutBe(w);
    if got != w {
      return false, [];
    }
    str := [];
    ghost var t := stream.Remaining();
    assert t == s[w..] && |t| == |s| - w;
    assert |t| >= len ==> t[..len] == s[w..w + len] && t[len..] == s[w + len..];
    if len != 0 {
      str := stream.CutN(len);
      if |str| != len {
        return false, [];
      }
    }
    ok := true;
  }

  method ReadScalarBody(stream: InputStream, marker: byte) returns (ok: bool, v: Option<Value>)
    modifies stream
    ensures Parse(ok, v, stream.Remaining()) == ReadScalar(marker, old(stream.Remaining()))
    ensures Moved(stream, stream.Remaining())
  {
    hide ReadString;
    ghost var s := stream.Remaining();
    ok, v := true, None;
    if marker == MARKER_NUMBER {
      var got, bits := stream.CutBe(8);
      if got != 8 { return false, None; }
      v := Some(Number(bits));
    } else if marker == MARKER_BOOLEAN {
      var got, b := stream.CutBe(1);
      if got != 1 { return false, None; }
      assert s[..1] == [s[0]];
      v := Some(Boolean(b != 0));
    } else if marker == MARKER_STRING || marker == MARKER_LONG_STRING {
      var str;
      ok, str := ReadStringBody(stream, if marker == MARKER_STRING then 2 else 4);
      v := if ok then Some(Str(str)) else None;
    } else if marker == MARKER_NULL {
      v := Some(Null);
    } else if marker == MARKER_UNDEFINED {
      v := Some(Undefined);
    } else if marker == MARKER_UNSUPPORTED {
      v := Some(Unsupported);
    } else {
      ok := !NotSupported(marker);
    }
  }

  method ReadContainerBody(stream: InputStream, marker: byte, prior: Option<Value>) returns (ok: bool, v: Option<Value>)
    modifies stream
    ensures Parse(ok, v, stream.Remaining()) == ReadContainer(marker, old(stream.Remaining()), prior)
    ensures Moved(stream, stream.Remaining())
    decreases |stream.Remaining()|, 5
  {
    hide ReadBody, ReadEcma, ReadItemsBody, ReadString;
    if marker == MARKER_STRICT_ARRAY {
      var arr;
      ok, arr := ReadArrayBody(stream, ItemsOf(prior));
      return ok, Some(Array(arr));
    }
    var obj;
    if marker == MARKER_ECMA_ARRAY {
      ok, obj := ReadEcmaArrayBody(stream, FieldsOf(prior));
    } else {
      if marker != MARKER_OBJECT {
        var _, _ := ReadStringBody(stream, 2);
      }
      ok, obj := ReadObjectBody(stream, FieldsOf(prior));
    }
    v := Some(Object(obj));
  }

  method ReadMarkedValue(stream: InputStream, prior: Option<Value>) returns (ok: bool, v: Option<Value>)
    modifies stream
    ensures Parse(ok, v, stream.Remaining()) == ReadValue(old(stream.Remaining()), prior)
    ensures Moved(stream, stream.Remaining())
    decreases |stream.Remaining()|, 0
  {
    hide ReadScalar, ReadContainer;
    ghost var s := stream.Remaining();
    var got, marker := stream.CutBe(1);
    if got != 1 {
      return false, None;
    }
    assert s[..1] == [s[0]];
    if IsContainer(marker) {
      ok, v := ReadContainerBody(stream, marker, prior);
    } else {
      ok, v := ReadScalarBody(stream, marker);
    }
  }

  method ReadObjectField(stream: InputStream, obj: seq<Entry>, name: Name) returns (ok: bool, obj': seq<Entry>)
    modifies stream
    ensures Parse(ok, obj', stream.Remaining()) == ReadField(old(stream.Remaining()), obj, name)
    ensures Moved(stream, stream.Remaining())
    decreases |stream.Remaining()|, 1
  {
    hide ReadValue, Get, Set;
    var v;
    ok, v := ReadMarkedValue(stream, Get(obj, name));
    obj' := if v.None? then obj else Set(obj, name, v.value);
  }

  method ReadObjectBody(stream: InputStream, obj: seq<Entry>) returns (ok: bool, obj': seq<Entry>)
    modifies stream
    ensures Parse(ok, obj', stream.Remaining()) == ReadBody(old(stream.Remaining()), obj)
    ensures Moved(stream, stream.Remaining())
    decreases |stream.Remaining()|, 2
  {
    hide ReadField, ReadString;
    obj' := obj;
    var named, name := ReadStringBody(stream, 2);
    while named
      invariant Moved(stream, stream.Remaining())
      invariant named ==> |stream.Remaining()| < |old(stream.Remaining())|
      invariant !named ==> Parse(true, obj', stream.Remaining()) == ReadBody(old(stream.Remaining()), obj)
      invariant named ==>
        ReadBody(old(stream.Remaining()), obj) == AfterName(name, stream.Remaining(), obj')
      decreases named, |stream.Remaining()|
    {
      if name == [] {
        ghost var s := stream.Remaining();
        var got, marker := stream.CutBe(1);
        if got != 1 {
          return false, obj';
        }
        assert s[..1] == [s[0]];
        return marker == MARKER_OBJECT_END, obj';
      }
      var read;
      read, obj' := ReadObjectField(stream, obj', name);
      if !read {
        return false, obj';
      }
      named, name := ReadStringBody(stream, 2);
    }
    ok := true;
  }

  /** The rest of an object body once a name has been read. */
  ghost function AfterName(name: Name, s: seq<byte>, obj: seq<Entry>): Parse<seq<Entry>> {
    if name == [] then
      if s == [] then Parse(false, obj, [])
      else Parse(s[0] == MARKER_OBJECT_END, obj, s[1..])
    else
      var f := ReadField(s, obj, name);
      if f.ok then ReadBody(f.rest, f.value) else f
  }

  method ReadEcmaArrayBody(stream: InputStream, obj: seq<Entry>) returns (ok: bool, obj': seq<Entry>)
    modifies stream
    ensures Parse(ok, obj', stream.Remaining()) == ReadEcma(old(stream.Remaining()), obj)
    ensures Moved(stream, stream.Remaining())
    decreases |stream.Remaining()|, 4
  {
    hide ReadField, ReadString, GetBe;
    ghost var s := stream.Remaining();
    obj' := obj;
    var got, count := stream.CutBe(4);
    if got != 4 {
      return false, obj';
    }
    for i := 0 to count
      invariant Moved(stream, stream.Remaining())
      invariant |stream.Remaining()| < |s|
      invariant ReadPairs(count - i, stream.Remaining(), obj') == ReadEcma(s, obj)
    {
      var named, name := ReadStringBody(stream, 2);
      if !named {
        return false, obj';
      }
      var read;
      read, obj' := ReadObjectField(stream, obj', name);
      if !read {
        return false, obj';
      }
    }
    ok := true;
  }

  method ReadArrayItem(stream: InputStream, arr: seq<Value>) returns (ok: bool, arr': seq<Value>)
    modifies stream
    ensures Parse(ok, arr', stream.Remaining()) == ReadItem(old(stream.Remaining()), arr)
    ensures Moved(stream, stream.Remaining())
    decreases |stream.Remaining()|, 1
  {
    hide ReadValue;
    var v;
    ok, v := ReadMarkedValue(stream, None);
    arr' := if v.None? then arr else arr + [v.value];
  }

  method ReadArrayBody(stream: InputStream, arr: seq<Value>) returns (ok: bool, arr': seq<Value>)
    modifies stream
    ensures Parse(ok, arr', stream.Remaining()) == ReadItemsBody(old(stream.Remaining()), arr)
    ensures Moved(stream, stream.Remaining())
    decreases |stream.Remaining()|, 4
  {
    hide ReadItem, GetBe;
    ghost var s := stream.Remaining();
    arr' := arr;
    var got, count := stream.CutBe(4);
    if got != 4 {
      return false, arr';
    }
    for i := 0 to count
      invariant Moved(stream, stream.Remaining())
      invariant |stream.Remaining()| < |s|
      invariant ReadItems(count - i, stream.Remaining(), arr') == ReadItemsBody(s, arr)
    {
      var read;
      read, arr' := ReadArrayItem(stream, arr');
      if !read {
        return false, arr';
      }
    }
    ok := true;
  }

  /** ReadAMFObject on any chunking of the bytes gives what the flat reader
      gives, and popped_bytes counts exactly the bytes cut. */
  method ReadAmfObject(stream: InputStream, obj: seq<Entry>) returns (ok: bool, obj': seq<Entry>)
    modifies stream
    ensures Parse(ok, obj', stream.Remaining()) == ReadObject(old(stream.Remaining()), obj)
    ensures Moved(stream, stream.Remaining())
  {
    hide ReadBody, ReadEcma;
    ghost var s := stream.Remaining();
    ok, obj' := false, obj;
    var got, marker := stream.CutBe(1);
    if got != 1 {
      return;
    }
    assert s[..1] == [s[0]];
    if marker == MARKER_OBJECT {
      ok, obj' := ReadObjectBody(stream, obj);
    } else if marker == MARKER_ECMA_ARRAY {
      ok, obj' := ReadEcmaArrayBody(stream, obj);
    } else {
      ok := marker == MARKER_NULL;
    }
  }

  method ReadAmfArray(stream: InputStream, arr: seq<Value>) returns (ok: bool, arr': seq<Value>)
    modifies stream
    ensures Parse(ok, arr', stream.Remaining()) == ReadArray(old(stream.Remaining()), arr)
    ensures Moved(stream, stream.Remaining())
  {
    hide ReadItemsBody;
    ghost var s := stream.Remaining();
    ok, arr' := false, arr;
    var got, marker := stream.CutBe(1);
    if got != 1 {
      return;
    }
    assert s[..1] == [s[0]];
    if marker == MARKER_STRICT_ARRAY {
      ok, arr' := ReadArrayBody(stream, arr);
    } else {
      ok := marker == MARKER_NULL;
    }
  }
}
