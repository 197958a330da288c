/** AMFArray: four fields inline, the rest in a deque. */
module AmfArrays {
  import opened AmfValues

  const INLINE: nat := 4

  function Inline(size: nat): nat {
    if size < INLINE then size else INLINE
  }

  function Copied(from: seq<Value>, itself: bool): (r: seq<Value>)
    ensures |r| == |from|
  {
    if itself then seq(|from|, _ => Undefined) else from
  }

  lemma CopiedAt(from: seq<Value>, itself: bool, i: nat)
    requires i < |from|
    ensures Copied(from, itself)[i] == if itself then Undefined else from[i]
  {
  }

  lemma OneMore(copied: seq<Value>, was: seq<Value>, i: nat)
    requires i < |copied| <= |was|
    ensures (copied[..i] + was[i..])[i := copied[i]] == copied[..i + 1] + was[i + 1..]
  {
  }

  lemma HalfStays(was: seq<Value>, from: seq<Value>, itself: bool)
    requires |from| <= |was|
    ensures (Copied(from, itself) + was[|from|..])[..|from| + (|was| - |from|) / 2] == Assigned(was, from, itself)
  {
    hide Copied;
    var k := (|was| - |from|) / 2;
    assert was[|from|..][..k] == was[|from|..|from| + k];
  }

  /** What assigning an array that stands for `from` leaves in one that stands
      for `was`. A field is cleared before it is copied, so assigning an array
      to itself loses every value. The loop that drops extra items tests a size
      that shrinks while its counter grows, so half of them stay. */
  function Assigned(was: seq<Value>, from: seq<Value>, itself: bool): seq<Value> {
    Copied(from, itself) + (if |was| <= |from| then [] else was[|from|..|from| + (|was| - |from|) / 2])
  }

  /** Assignment copies exactly when it has at most one item to drop and its
      source is another array, or itself without a value to lose. */
  lemma AssignedExactlyWhen(was: seq<Value>, from: seq<Value>, itself: bool)
    requires itself ==> was == from
    ensures Assigned(was, from, itself) == from <==>
            |was| <= |from| + 1 && (itself ==> forall v <- from :: v == Undefined)
  {
    var r := Assigned(was, from, itself);
    if |was| > |from| + 1 {
      assert |r| == |from| + (|was| - |from|) / 2 > |from|;
    } else if itself {
      var blank := seq(|from|, _ => Undefined);
      assert r == blank + [] == blank;
      if forall v <- from :: v == Undefined {
        forall i | 0 <= i < |from| ensures from[i] == blank[i] {
          assert from[i] in from;
        }
        assert from == blank;
      } else {
        var v :| v in from && v != Undefined;
        var i :| 0 <= i < |from| && from[i] == v;
        assert blank[i] != from[i];
      }
    } else {
      assert r == from;
    }
  }

  /** Assignment from another array always keeps the source as a prefix. */
  lemma AssignedKeepsSource(was: seq<Value>, from: seq<Value>)
    ensures from <= Assigned(was, from, false)
    ensures |was| >= |from| ==> |Assigned(was, from, false)| == |from| + (|was| - |from|) / 2
  {
  }

  class AmfArray {
    var size: nat              // _size
    const fields: array<Value> // _fields
    var more: seq<Value>       // _morefields

    /** The deque holds exactly the items past the fourth and unused inline
        fields are undefined. */
    ghost predicate Valid()
      reads this, fields
    {
      && fields.Length == INLINE
      && |more| == size - Inline(size)
      && forall i :: size <= i < INLINE ==> fields[i] == Undefined
    }

    /** The sequence the array stands for. */
    ghost function Contents(): (s: seq<Value>)
      requires Valid()
      reads this, fields
      ensures |s| == size
    {
      fields[..Inline(size)] + more
    }

    constructor ()
      ensures Valid() && fresh(fields) && Contents() == []
    {
      fields := new Value[INLINE](_ => Undefined);
      size, more := 0, [];
    }

    /** The copy constructor. */
    constructor Copy(rhs: AmfArray)
      requires rhs.Valid()
      ensures Valid() && fresh(fields) && Contents() == rhs.Contents()
    {
      fields := new Value[INLINE](_ => Undefined);
      size, more := rhs.size, [];
      new;
      CopyFields(rhs);
    }

    /** The copy constructor's body, on undefined inline fields. */
    method CopyFields(rhs: AmfArray)
      requires rhs.Valid() && rhs.fields != fields && rhs != this
      requires fields.Length == INLINE && size == rhs.size && more == []
      requires forall i :: 0 <= i < INLINE ==> fields[i] == Undefined
      modifies this`more, fields
      ensures Valid() && Contents() == old(rhs.Contents())
    {
      for i := 0 to Inline(size)
        modifies fields
        invariant forall k :: 0 <= k < i ==> fields[k] == rhs.fields[k]
        invariant forall k :: i <= k < INLINE ==> fields[k] == Undefined
      {
        fields[i] := rhs.fields[i];
      }
      if size > INLINE {
        more := rhs.more;
      }
      assert fields[..Inline(size)] == rhs.fields[..Inline(size)];
    }

    method Clear()
      requires Valid()
      modifies this, fields
      ensures Valid() && Contents() == []
    {
      for i := 0 to Inline(size)
        modifies fields
        invariant forall k :: 0 <= k < i || size <= k < INLINE ==> fields[k] == Undefined
      {
        fields[i] := Undefined;
      }
      size, more := 0, [];
    }

    /** operator[] */
    function At(i: nat): (v: Value)
      requires Valid() && i < size
      reads this, fields
      ensures v == Contents()[i]
    {
      if i < INLINE then fields[i] else more[i - INLINE]
    }

    method SetAt(i: nat, v: Value)
      requires Valid() && i < size
      modifies this`more, fields
      ensures Valid() && Contents() == old(Contents())[i := v]
    {
      if i < INLINE {
        fields[i] := v;
      } else {
        more := more[i - INLINE := v];
      }
    }

    /** AddField and the setter applied to the field it returns. */
    method Add(v: Value)
      requires Valid()
      modifies this, fields
      ensures Valid() && Contents() == old(Contents()) + [v]
    {
      if size < INLINE {
        fields[size] := v;
        size := size + 1;
        assert fields[..size] == old(fields[..size]) + [v];
        return;
      }
      assert !(size - INLINE < |more|);  // the deque never holds a spare field
      more := more + [v];
      size := size + 1;
    }

    method RemoveLast()
      requires Valid()
      modifies this, fields
      ensures Valid()
      ensures Contents() == if old(size) == 0 then [] else old(Contents())[..old(size) - 1]
    {
      if size == 0 {
        return;
      }
      if size <= INLINE {
        size := size - 1;
        fields[size] := Undefined;
        return;
      }
      more := more[..|more| - 1];
      size := size - 1;
    }

    /** operator= */
    method Assign(rhs: AmfArray)
      requires Valid() && rhs.Valid()
      requires rhs == this || rhs.fields != fields
      modifies this, fields
      ensures Valid()
      ensures Contents() == Assigned(old(Contents()), old(rhs.Contents()), rhs == this)
    {
      hide Contents, Copied;
      if size < rhs.size {
        AssignedExactlyWhen(Contents(), rhs.Contents(), false);
        Clear();
        size := rhs.size;
        CopyFields(rhs);
        return;
      }
      HalfStays(Contents(), rhs.Contents(), rhs == this);
      var m := rhs.size;
      CopyItems(rhs);
      DropExtra(m);
    }

    /** The loop of operator= that copies field by field; each field is cleared
        before its source is read. */
    method CopyItems(rhs: AmfArray)
      requires Valid() && rhs.Valid() && rhs.size <= size
      requires rhs == this || rhs.fields != fields
      modifies this`more, fields
      ensures Valid() && size == old(size)
      ensures Contents() == Copied(old(rhs.Contents()), rhs == this) + old(Contents())[rhs.size..]
    {
      hide Contents, Copied;
      ghost var was, from := Contents(), rhs.Contents();
      ghost var copied := Copied(from, rhs == this);
      for i := 0 to rhs.size
        invariant Valid() && rhs.Valid()
        invariant rhs != this ==> rhs.Contents() == from
        invariant Contents() == copied[..i] + was[i..]
      {
        AssignItem(rhs, i);
        CopiedAt(from, rhs == this, i);
        OneMore(copied, was, i);
      }
      assert copied[..rhs.size] == copied;
    }

    /** AMFField::operator=, which clears its target first. */
    method AssignItem(rhs: AmfArray, i: nat)
      requires Valid() && rhs.Valid() && i < rhs.size <= size
      requires rhs == this || rhs.fields != fields
      modifies this`more, fields
      ensures Valid()
      ensures Contents() == old(Contents())[i := if rhs == this then Undefined else old(rhs.Contents()[i])]
    {
      hide Contents;
      SetAt(i, Undefined);
      SetAt(i, rhs.At(i));
    }

    /** The loop of operator= that should drop all items from `m` on. */
    method DropExtra(m: nat)
      requires Valid() && m <= size
      modifies this, fields
      ensures Valid() && Contents() == old(Contents())[..m + (old(size) - m) / 2]
    {
      var n, i := size, m;
      while i < size
        invariant Valid() && m <= i <= n && size == n - (i - m) >= m + (n - m) / 2
        invariant Contents() == old(Contents())[..size]
        decreases size - i
      {
        RemoveLast();
        i := i + 1;
      }
    }
  }
}
