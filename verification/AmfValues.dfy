/** AMF values. A field is a tagged union whose tag only its setters choose;
    an object is a std::map from names to fields, kept here as the list of its
    entries in the order in which the map is iterated. */
module AmfValues {
  import opened Bytes

  type Name = seq<byte>

  datatype Value =
    | Number(bits: nat)         // an opaque 64-bit word
    | Boolean(b: bool)
    | Str(s: seq<byte>)
    | Object(fields: seq<Entry>)
    | Array(items: seq<Value>)
    | Null
    | Undefined
    | Unsupported

  datatype Entry = Entry(name: Name, value: Value)

  const MARKER_NUMBER: byte := 0x00
  const MARKER_BOOLEAN: byte := 0x01
  const MARKER_STRING: byte := 0x02
  const MARKER_OBJECT: byte := 0x03
  const MARKER_MOVIECLIP: byte := 0x04
  const MARKER_NULL: byte := 0x05
  const MARKER_UNDEFINED: byte := 0x06
  const MARKER_REFERENCE: byte := 0x07
  const MARKER_ECMA_ARRAY: byte := 0x08
  const MARKER_OBJECT_END: byte := 0x09
  const MARKER_STRICT_ARRAY: byte := 0x0A
  const MARKER_DATE: byte := 0x0B
  const MARKER_LONG_STRING: byte := 0x0C
  const MARKER_UNSUPPORTED: byte := 0x0D
  const MARKER_RECORDSET: byte := 0x0E
  const MARKER_XML_DOCUMENT: byte := 0x0F
  const MARKER_TYPED_OBJECT: byte := 0x10
  const MARKER_AVMPLUS_OBJECT: byte := 0x11

  const SHORT_LIMIT: nat := 65536

  /** std::string's order: lexicographic on unsigned bytes. */
  predicate Less(a: Name, b: Name)
    decreases |a|
  {
    b != [] && (a == [] || a[0] < b[0] || (a[0] == b[0] && Less(a[1..], b[1..])))
  }

  lemma {:induction false} LessTransitive(a: Name, b: Name, c: Name)
    requires Less(a, b) && Less(b, c)
    ensures Less(a, c)
    decreases |a|
  {
    if a != [] && a[0] == b[0] == c[0] {
      LessTransitive(a[1..], b[1..], c[1..]);
    }
  }

  lemma {:induction false} LessTrichotomy(a: Name, b: Name)
    ensures Less(a, b) ==> !Less(b, a) && a != b
    ensures !Less(a, b) && !Less(b, a) ==> a == b
    decreases |a|
  {
    if a != [] && b != [] && a[0] == b[0] {
      LessTrichotomy(a[1..], b[1..]);
      assert a == [a[0]] + a[1..] && b == [b[0]] + b[1..];
    }
  }

  /** `a` and `b` agree on their first `k` bytes, and then `a` ends or has the
      smaller byte. */
  ghost predicate DiffersAt(a: Name, b: Name, k: nat) {
    && k <= |a| && k < |b| && a[..k] == b[..k]
    && (k < |a| ==> a[k] < b[k])
  }

  lemma {:induction false} LessIff(a: Name, b: Name)
    ensures Less(a, b) <==> exists k: nat :: DiffersAt(a, b, k)
    decreases |a|
  {
    if b != [] && a != [] && a[0] == b[0] {
      LessIff(a[1..], b[1..]);
      if k: nat :| DiffersAt(a, b, k) {
        assert a[1..][..k - 1] == a[..k][1..] && b[1..][..k - 1] == b[..k][1..];
        assert DiffersAt(a[1..], b[1..], k - 1);
      }
      if k: nat :| DiffersAt(a[1..], b[1..], k) {
        assert a[..k + 1] == [a[0]] + a[1..][..k] && b[..k + 1] == [b[0]] + b[1..][..k];
        assert DiffersAt(a, b, k + 1);
      }
    } else if Less(a, b) {
      assert DiffersAt(a, b, 0);
    }
  }

  ghost predicate Sorted(fields: seq<Entry>) {
    forall i, j :: 0 <= i < j < |fields| ==> Less(fields[i].name, fields[j].name)
  }

  /** find */
  function Get(fields: seq<Entry>, name: Name): Option<Value> {
    if fields == [] then None
    else if fields[0].name == name then Some(fields[0].value)
    else Get(fields[1..], name)
  }

  /** `_fields[name] = value` */
  function Set(fields: seq<Entry>, name: Name, value: Value): seq<Entry> {
    if fields == [] || Less(name, fields[0].name) then [Entry(name, value)] + fields
    else if fields[0].name == name then [Entry(name, value)] + fields[1..]
    else [fields[0]] + Set(fields[1..], name, value)
  }

  /** Every name of `Set`'s result was there before or is the new one. */
  lemma {:induction false} SetNames(fields: seq<Entry>, name: Name, value: Value, k: nat)
    requires k < |Set(fields, name, value)|
    ensures var e := Set(fields, name, value)[k]; e == Entry(name, value) || e in fields
  {
    if fields != [] && !Less(name, fields[0].name) && fields[0].name != name && k > 0 {
      SetNames(fields[1..], name, value, k - 1);
      assert Set(fields, name, value)[k] == Set(fields[1..], name, value)[k - 1];
    }
  }

  /** `Set` is the update of a map: the list stays in iteration order, the name
      has the new value and every other name keeps its own. */
  lemma {:induction false} SetIsMapUpdate(fields: seq<Entry>, name: Name, value: Value)
    requires Sorted(fields)
    ensures Sorted(Set(fields, name, value))
    ensures Get(Set(fields, name, value), name) == Some(value)
    ensures forall other :: other != name ==> Get(Set(fields, name, value), other) == Get(fields, other)
  {
    var r := Set(fields, name, value);
    if fields == [] || Less(name, fields[0].name) {
      assert r[1..] == fields;
      forall j | 0 < j < |r| ensures Less(r[0].name, r[j].name) {
        if j > 1 { LessTransitive(name, fields[0].name, fields[j - 1].name); }
      }
    } else if fields[0].name == name {
      assert r[1..] == fields[1..];
    } else {
      SetIsMapUpdate(fields[1..], name, value);
      assert r[1..] == Set(fields[1..], name, value);
      LessTrichotomy(name, fields[0].name);
      forall j | 0 < j < |r| ensures Less(r[0].name, r[j].name) {
        SetNames(fields[1..], name, value, j - 1);
      }
    }
  }

  /** Names arriving in iteration order are appended. */
  lemma {:induction false} SetAppends(fields: seq<Entry>, e: Entry)
    requires Sorted(fields + [e])
    ensures Get(fields, e.name) == None
    ensures Set(fields, e.name, e.value) == fields + [e]
  {
    if fields != [] {
      var all := fields + [e];
      assert Less(all[0].name, all[|fields|].name);
      LessTrichotomy(fields[0].name, e.name);
      assert fields[1..] + [e] == all[1..];
      SetAppends(fields[1..], e);
      assert [fields[0]] + (fields[1..] + [e]) == fields + [e];
    }
  }
}
