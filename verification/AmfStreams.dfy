/** The buffered streams of amf_inl.h: AMF bytes are cut from, and put into,
    chunks that a zero-copy stream hands out one at a time. */
module AmfStreams {
  import opened Bytes

  class InputStream {
    var data: seq<byte>         // unread part of the current chunk: _data, _size
    var chunks: seq<seq<byte>>  // what the zero-copy stream has still to offer
    var popped: nat             // _popped_bytes

    constructor (chunks: seq<seq<byte>>)
      ensures Remaining() == Flatten(chunks) && popped == 0
    {
      this.data, this.chunks, this.popped := [], chunks, 0;
    }

    /** The flat byte sequence that the chunks stand for. */
    ghost function Remaining(): seq<byte>
      reads this
    {
      data + Flatten(chunks)
    }

    /** ZeroCopyInputStream::Next */
    method Next() returns (ok: bool)
      modifies this
      ensures popped == old(popped)
      ensures ok == (old(chunks) != [])
      ensures ok ==> data == old(chunks)[0] && chunks == old(chunks)[1..]
      ensures !ok ==> data == old(data) && chunks == []
    {
      ok := chunks != [];
      if ok {
        data, chunks := chunks[0], chunks[1..];
      }
    }

    /** Cuts at most `n` bytes, gathering them from as many chunks as it takes. */
    method CutN(n: nat) returns (out: seq<byte>)
      modifies this
      ensures out == Take(old(Remaining()), n)
      ensures Remaining() == old(Remaining())[|out|..]
      ensures popped == old(popped) + |out|
    {
      out := [];
      var need: nat := n;
      var more := true;
      while more
        invariant need + |out| == n
        invariant more ==> out + Remaining() == old(Remaining())
        invariant !more ==> out == old(Remaining()) && chunks == [] && need > 0
        invariant popped == old(popped)
        decreases more, |chunks|
      {
        if |data| >= need {
          ghost var before := Remaining();
          out := out + data[..need];
          data := data[need..];
          popped := popped + n;
          assert Remaining() == before[need..];
          return;
        }
        out := out + data;
        need := need - |data|;
        assert out + Flatten(chunks) == old(Remaining());
        more := Next();
      }
      data := [];
      popped := popped + (n - need);
    }

    /** An integer of `w` bytes in network order. The fast path reads it from
        the current chunk, the slow path gathers it; a short read leaves the
        missing low bytes zero. `got` is the number of bytes cut. */
    method CutBe(w: nat) returns (got: nat, val: nat)
      modifies this
      ensures got == Min(w, |old(Remaining())|)
      ensures val == GetBe(old(Remaining())[..got] + Zeros(w - got))
      ensures got == w ==> val == GetBe(old(Remaining())[..w])
      ensures Remaining() == old(Remaining())[got..]
      ensures popped == old(popped) + got
    {
      if |data| >= w {
        ghost var before := Remaining();
        val := GetBe(data[..w]);
        assert before[..w] == data[..w] && before[..w] + Zeros(0) == data[..w];
        data := data[w..];
        popped := popped + w;
        assert Remaining() == before[w..];
        return w, val;
      }
      var cut := CutN(w);
      got, val := |cut|, GetBe(cut + Zeros(w - |cut|));
      assert cut + Zeros(0) == cut;
    }

    /** check_emptiness: may move to the next chunk, never loses a byte. It
        looks at one chunk only, so an empty chunk ahead reads as not empty. */
    method CheckEmptiness() returns (empty: bool)
      modifies this
      ensures Remaining() == old(Remaining()) && popped == old(popped)
      ensures empty == (old(data) == [] && old(chunks) == [])
    {
      empty := false;
      if data == [] {
        var more := Next();
        empty := !more;
      }
    }
  }

  /** What can be observed of an output stream: the bytes stored, the room the
      zero-copy stream still has, and good(). */
  datatype OutState = OutState(stored: seq<byte>, room: nat, good: bool)

  /** Putting `bytes` stores all of them, or what fits and then turns the
      stream bad. */
  function Put(st: OutState, bytes: seq<byte>): OutState {
    OutState(st.stored + Take(bytes, st.room), st.room - Min(|bytes|, st.room), st.good && |bytes| <= st.room)
  }

  /** A sequence of puts is one put of the concatenation. */
  lemma PutConcat(st: OutState, a: seq<byte>, b: seq<byte>)
    ensures Put(Put(st, a), b) == Put(st, a + b)
  {
    var r := st.room;
    if |a| <= r {
      assert Take(a + b, r) == a + Take(b, r - |a|);
      assert st.stored + a + Take(b, r - |a|) == st.stored + (a + Take(b, r - |a|));
    } else {
      assert Take(a + b, r) == Take(a, r);
      assert Take(b, 0) == [];
    }
  }

  /** Bytes and room are conserved, nothing stored is lost, bad stays bad, and
      only a lack of room makes a put fail. */
  ghost predicate Keeps(st: OutState, now: OutState) {
    && st.stored <= now.stored
    && |now.stored| + now.room == |st.stored| + st.room
    && (!st.good ==> !now.good)
    && (st.good && !now.good ==> now.room == 0)
  }

  lemma PutKeeps(st: OutState, bytes: seq<byte>)
    ensures Keeps(st, Put(st, bytes))
  {
  }

  lemma PutIs(st: OutState, bytes: seq<byte>)
    ensures |bytes| <= st.room ==> Put(st, bytes) == OutState(st.stored + bytes, st.room - |bytes|, st.good)
    ensures |bytes| > st.room ==> Put(st, bytes) == OutState(st.stored + bytes[..st.room], 0, false)
  {
  }

  /** Copying goes on where it stopped. */
  lemma Copied(before: seq<byte>, bytes: seq<byte>, n: nat, m: nat)
    requires n <= m <= |bytes|
    ensures before + bytes[..n] + bytes[n..m] == before + bytes[..m]
    ensures m == |bytes| ==> bytes[n..m] == bytes[n..] && bytes[..m] == bytes
  {
    assert bytes[..n] + bytes[n..m] == bytes[..m];
  }

  class OutputStream {
    var good: bool
    var free: nat           // _size: room left in the current buffer
    var offers: seq<nat>    // sizes of the buffers the zero-copy stream will still offer
    var stored: seq<byte>   // bytes written into buffers so far
    var pushed: nat         // _pushed_bytes
    var byteCount: nat      // what the zero-copy stream takes as written: handed out less given back
    ghost var buffers: nat  // how many buffers were to come when the stream was made, or last gave room back
    ghost var base: nat     // the byte count at that time

    constructor (offers: seq<nat>)
      ensures Valid() && State() == OutState([], Sum(offers), true) && buffers == |offers| && base == 0
    {
      good, free, this.offers, stored, pushed, byteCount := true, 0, offers, [], 0, 0;
      buffers, base := |offers|, 0;
    }

    /** Everything handed out was written or is still free. */
    ghost predicate Valid()
      reads this
    {
      && pushed == |stored|
      && byteCount == |stored| + free
      && Offered()
    }

    /** All buffers are still to come only if nothing was handed out. */
    ghost predicate Offered()
      reads this`offers, this`buffers, this`byteCount, this`base
    {
      |offers| <= buffers && (|offers| == buffers ==> byteCount == base)
    }

    ghost function State(): OutState
      reads this
    {
      OutState(stored, free + Sum(offers), good)
    }

    method SetBad()
      requires Valid()
      modifies this`good
      ensures Valid() && State() == old(State()).(good := false)
    {
      good := false;
    }

    /** ZeroCopyOutputStream::Next; the buffer it replaces is full. */
    method Next() returns (ok: bool)
      requires Offered()
      modifies this`free, this`offers, this`byteCount
      ensures Offered()
      ensures ok == (old(offers) != [])
      ensures ok ==> free == old(offers)[0] && offers == old(offers)[1..] && byteCount == old(byteCount) + free
      ensures !ok ==> free == old(free) && offers == [] && byteCount == old(byteCount)
      ensures Sum(old(offers)) == if ok then free + Sum(offers) else 0
    {
      ok := offers != [];
      if ok {
        free, offers := offers[0], offers[1..];
        byteCount := byteCount + free;
      }
    }

    /** ZeroCopyOutputStream::BackUp of all that is free. */
    method BackUp()
      requires Valid()
      modifies this
      ensures Valid() && State() == old(State()) && byteCount == old(byteCount) - old(free) && free == 0
    {
      offers := [free] + offers;
      byteCount, free := byteCount - free, 0;
      buffers, base := |offers|, byteCount;
    }

    method PutN(bytes: seq<byte>)
      requires Valid()
      modifies this`good, this`free, this`offers, this`stored, this`pushed, this`byteCount
      ensures Valid() && State() == Put(old(State()), bytes)
    {
      hide Offered, Sum, Put;
      PutIs(State(), bytes);
      var n := 0;  // bytes already copied
      var more := true;
      ghost var room := State().room;
      assert stored + bytes[..0] == stored;
      while more
        invariant 0 <= n <= |bytes|
        invariant stored == old(stored) + bytes[..n]
        invariant more ==> n + State().room == room
        invariant !more ==> n == room && Sum(offers) == 0 && n < |bytes|
        invariant good == old(good) && pushed == old(pushed)
        invariant Offered() && byteCount == |stored| + if more then free else 0
        decreases more, |offers|
      {
        if |bytes| - n <= free {
          Copied(old(stored), bytes, n, |bytes|);
          stored := stored + bytes[n..];
          free := free - (|bytes| - n);
          pushed := pushed + |bytes|;
          return;
        }
        Copied(old(stored), bytes, n, n + free);
        stored := stored + bytes[n..n + free];
        n := n + free;
        more := Next();
      }
      free := 0;
      pushed := pushed + n;
      SetBad();
    }

    /** put_u8 has a loop of its own: it skips empty buffers. */
    method PutU8(val: byte)
      requires Valid()
      modifies this`good, this`free, this`offers, this`stored, this`pushed, this`byteCount
      ensures Valid() && State() == Put(old(State()), [val])
    {
      var more := true;
      while more
        invariant good == old(good) && stored == old(stored) && pushed == old(pushed)
        invariant Offered() && byteCount == |stored| + if more then free else 0
        invariant more ==> State() == old(State())
        invariant !more ==> old(State()).room == 0 && offers == []
        decreases more, |offers|
      {
        if free > 0 {
          stored := stored + [val];
          free, pushed := free - 1, pushed + 1;
          return;
        }
        more := Next();
      }
      free := 0;
      SetBad();
    }

    /** put_u16, put_u32 and put_u64 */
    method PutInt(val: nat, w: nat)
      requires Valid()
      modifies this`good, this`free, this`offers, this`stored, this`pushed, this`byteCount
      ensures Valid() && State() == Put(old(State()), PutBe(val, w))
    {
      PutN(PutBe(val, w));
    }

    /** done: gives the unused end of the last buffer back, but only while the
        stream is good. What the zero-copy stream then takes as written is what
        was written exactly when the stream was good or its buffer was full. */
    method Done()
      requires Valid()
      modifies this
      ensures Valid() && State() == old(State())
      ensures byteCount == |stored| <==> old(good) || old(free) == 0
    {
      if good && free != 0 {
        BackUp();
      }
    }
  }
}
