/**
 The pooled ring wrapper and the hybrid buffer of pkg/buffer/elastic: a ring first, a list of
 chunks for what overflows. Both stand for one byte sequence.
 */
module Elastic {
  import opened Bytes
  import Ring
  import LinkedList

  const MAX_INT32 := LinkedList.MAX_INT32

  /** RingBuffer: a ring that is taken from a pool on the first write and given back when empty. */
  class RingBuffer {
    var rb: Ring.Buffer?
    ghost var Repr: set<object>

    ghost predicate Valid()
      reads this, Repr
      ensures Valid() ==> this in Repr
    {
      && this in Repr
      && (rb != null ==> rb in Repr && rb.buf in Repr && rb.Valid() && rb as object != this)
    }

    ghost function Contents(): (s: seq<byte>)
      requires Valid()
      reads this, Repr
    {
      if rb == null then [] else rb.Contents()
    }

    constructor ()
      ensures Valid() && fresh(Repr) && Contents() == [] && rb == null
    {
      rb := null;
      Repr := {this};
    }

    /** instance(): the pool hands out some empty ring, new or recycled, of whatever size. */
    method Instance() returns (ring: Ring.Buffer)
      requires Valid()
      modifies this
      ensures Valid() && rb == ring && fresh(Repr - old(Repr)) && Contents() == old(Contents())
      ensures old(rb) != null ==> ring == old(rb)
    {
      if rb == null {
        var n: nat := *;
        rb := new Ring.Buffer.OfSize(n);
        Repr := Repr + {rb, rb.buf};
      }
      ring := rb;
    }

    /** Done(): gives the ring back whatever it holds. */
    method Done()
      requires Valid()
      modifies this
      ensures Valid() && rb == null && Contents() == [] && Repr == old(Repr)
    {
      rb := null;
    }

    /** done(): gives the ring back if it is empty. */
    method Relinquish()
      requires Valid()
      modifies this
      ensures Valid() && Repr == old(Repr) && Contents() == old(Contents())
      ensures (rb == null <==> Contents() == []) && (rb == null || rb == old(rb))
    {
      if rb != null && rb.isEmpty {
        rb := null;
      }
    }

    function Buffered(): (n: nat)
      requires Valid()
      reads this, Repr
      ensures n == |Contents()|
    {
      if rb == null then 0 else rb.Buffered()
    }

    /** Len() */
    function Capacity(): (n: nat)
      requires Valid()
      reads this, Repr
      ensures n >= |Contents()|
    {
      if rb == null then 0 else rb.buf.Length
    }

    function Available(): (n: nat)
      requires Valid()
      reads this, Repr
      ensures n == Capacity() - |Contents()|
    {
      if rb == null then 0 else rb.Available()
    }

    predicate IsEmpty()
      requires Valid()
      reads this, Repr
      ensures IsEmpty() <==> Contents() == []
    {
      rb == null || rb.isEmpty
    }

    function Peek(n: int): (pieces: (seq<byte>, seq<byte>))
      requires Valid()
      reads this, Repr
      ensures pieces.0 + pieces.1 == if n <= 0 then Contents() else Contents()[..Min(n, |Contents()|)]
      ensures pieces.0 == [] ==> Contents() == []
    {
      if rb == null then ([], []) else rb.Peek(n)
    }

    method Discard(n: int) returns (discarded: nat, err: Ring.Error)
      requires Valid()
      modifies Repr
      ensures Valid() && Repr == old(Repr)
      ensures discarded == if n <= 0 then 0 else Min(n, |old(Contents())|)
      ensures Contents() == old(Contents())[discarded..]
      ensures err == if old(rb) == null then Ring.ErrIsEmpty else Ring.NoError
      ensures rb == null <==> Contents() == []
    {
      if rb == null {
        return 0, Ring.ErrIsEmpty;
      }
      discarded := rb.Discard(n);
      err := Ring.NoError;
      Relinquish();
    }

    /** Read(p[from:]) */
    method Read(p: array<byte>, from: nat) returns (n: nat, err: Ring.Error)
      requires Valid() && from <= p.Length && p !in Repr
      modifies Repr, p
      ensures Valid() && Repr == old(Repr)
      ensures n == Min(p.Length - from, |old(Contents())|)
      ensures Contents() == old(Contents())[n..]
      ensures p[..] == Splice(old(p[..]), from, old(Contents())[..n])
      ensures rb == null <==> Contents() == []
      ensures err == if old(rb) == null || (p.Length > from && old(Contents()) == []) then Ring.ErrIsEmpty else Ring.NoError
    {
      if rb == null {
        return 0, Ring.ErrIsEmpty;
      }
      n, err := rb.Read(p, from);
      Relinquish();
    }

    method Write(p: seq<byte>) returns (n: nat)
      requires Valid()
      modifies Repr
      ensures Valid() && fresh(Repr - old(Repr))
      ensures n == |p| && Contents() == old(Contents()) + p
      ensures (old(rb) != null ==> rb == old(rb)) && (p != [] ==> rb != null)
      ensures old(rb) != null && |old(Contents())| + |p| <= old(Capacity()) ==> Capacity() == old(Capacity())
    {
      if |p| == 0 {
        return 0;
      }
      var ring := Instance();
      n := ring.Write(p);
      Repr := Repr + {ring.buf};
    }

    method Reset()
      requires Valid()
      modifies Repr
      ensures Valid() && Contents() == [] && Repr == old(Repr)
    {
      if rb != null {
        rb.Reset();
      }
    }
  }

  /**
   How many of the n bytes of a Write go to the ring, the rest overflowing to the list: none once
   something has overflowed or the ring holds max bytes; what fits into a ring that has reached
   max; otherwise all.
   */
  function Fitting(listEmpty: bool, held: nat, cap: nat, max: int, n: nat): nat {
    if !listEmpty || held >= max then 0 else if cap >= max then Min(n, cap - held) else n
  }

  /** The same for Writev, which fills a smaller ring up to max bytes only. */
  function FittingSlices(listEmpty: bool, held: nat, cap: nat, max: int, n: nat): nat {
    if !listEmpty || held >= max then 0 else Min(n, (if cap >= max then cap else max) - held)
  }

  /** Buffer: ring contents followed by list contents. */
  class Buffer {
    var maxStaticBytes: int
    const ring: RingBuffer
    const list: LinkedList.Buffer
    ghost var Repr: set<object>

    ghost predicate Valid()
      reads this, Repr
      ensures Valid() ==> this in Repr
    {
      && this in Repr && ring in Repr && list in Repr
      && ring.Repr <= Repr && list.Repr <= Repr && this !in ring.Repr && this !in list.Repr && ring.Repr !! list.Repr
      && ring.Valid() && list.Valid() && maxStaticBytes > 0
    }

    ghost function Contents(): (s: seq<byte>)
      requires Valid()
      reads this, Repr
    {
      ring.Contents() + list.Contents()
    }

    constructor (max: int)
      requires max > 0
      ensures Valid() && fresh(Repr) && Contents() == [] && maxStaticBytes == max
    {
      maxStaticBytes := max;
      var r := new RingBuffer();
      var l := new LinkedList.Buffer();
      ring, list := r, l;
      new;
      Repr := {this} + ring.Repr + list.Repr;
    }

    predicate IsEmpty()
      requires Valid()
      reads this, Repr
      ensures IsEmpty() <==> Contents() == []
    {
      ring.IsEmpty() && list.IsEmpty()
    }

    function Buffered(): (n: nat)
      requires Valid()
      reads this, Repr
      ensures n == |Contents()|
    {
      ring.Buffered() + list.Buffered()
    }

    /** Read(p[from:]) */
    method Read(p: array<byte>, from: nat) returns (n: nat, err: Ring.Error)
      requires Valid() && from <= p.Length && p !in Repr
      modifies Repr, p
      ensures Valid() && Repr == old(Repr) && maxStaticBytes == old(maxStaticBytes)
      ensures n == Min(p.Length - from, |old(Contents())|)
      ensures Contents() == old(Contents())[n..] && ring.Buffered() == old(ring.Buffered()) - Min(n, old(ring.Buffered()))
      ensures p[..] == Splice(old(p[..]), from, old(Contents())[..n])
      ensures err == if p.Length == from && old(ring.rb) == null then Ring.ErrIsEmpty else Ring.NoError
    {
      ghost var fst, snd := ring.Contents(), list.Contents();
      ghost var given := p[..];
      n, err := ReadRing(p, from);
      if n == p.Length - from {
        CutFirst(fst, snd, n);
        return;
      }
      var m := ReadRest(p, from, n, given, fst, snd);
      err := Ring.NoError;
      n := n + m;
    }

    /** The second half of Read: the ring is used up, the list goes on. */
    method ReadRest(p: array<byte>, from: nat, n: nat, ghost given: seq<byte>, ghost fst: seq<byte>, ghost snd: seq<byte>)
      returns (m: nat)
      requires Valid() && p !in Repr && |given| == p.Length && n == |fst| && from + n <= p.Length
      requires ring.Contents() == fst[n..] && list.Contents() == snd && p[..] == Splice(given, from, fst[..n])
      modifies Repr, p
      ensures Valid() && Repr == old(Repr) && maxStaticBytes == old(maxStaticBytes)
      ensures m == Min(p.Length - from - n, |snd|) && Contents() == (fst + snd)[n + m..] && ring.Buffered() == 0
      ensures p[..] == Splice(given, from, (fst + snd)[..n + m])
    {
      m := ReadList(p, from + n);
      ReadBoth(given, from, fst, snd, n, m);
    }

    /** ringBuffer.Read(p[from:]) */
    method ReadRing(p: array<byte>, from: nat) returns (n: nat, err: Ring.Error)
      requires Valid() && from <= p.Length && p !in Repr
      modifies Repr, p
      ensures Valid() && Repr == old(Repr) && maxStaticBytes == old(maxStaticBytes)
      ensures n == Min(p.Length - from, |old(ring.Contents())|)
      ensures ring.Contents() == old(ring.Contents())[n..]
      ensures list.Contents() == old(list.Contents())
      ensures p[..] == Splice(old(p[..]), from, old(ring.Contents())[..n])
      ensures n == p.Length - from ==>
        err == if p.Length == from && old(ring.rb) == null then Ring.ErrIsEmpty else Ring.NoError
    {
      n, err := ring.Read(p, from);
    }

    /** listBuffer.Read(p[from:]) */
    method ReadList(p: array<byte>, from: nat) returns (n: nat)
      requires Valid() && from <= p.Length && p !in Repr
      modifies Repr, p
      ensures Valid() && Repr == old(Repr) && maxStaticBytes == old(maxStaticBytes)
      ensures n == Min(p.Length - from, |old(list.Contents())|)
      ensures ring.Contents() == old(ring.Contents())
      ensures list.Contents() == old(list.Contents())[n..]
      ensures p[..] == Splice(old(p[..]), from, old(list.Contents())[..n])
    {
      n := list.Read(p, from);
    }

    /**
     Peek(n): the first n bytes if the ring holds them; otherwise slices that make up a prefix of at
     least n bytes, or all bytes if there are fewer, with no slice more than needed.
     */
    method Peek(n: int) returns (bs: seq<seq<byte>>)
      requires Valid()
      ensures Flatten(bs) <= Contents()
      ensures |Flatten(bs)| >= Min(if n <= 0 then MAX_INT32 else n, |Contents()|)
      ensures var max := if n <= 0 then MAX_INT32 else n;
        if ring.Buffered() >= max then Flatten(bs) == Contents()[..max] else LinkedList.Peeked(bs, max, Contents())
      ensures Contents() != [] ==> bs != [] && bs[0] != []
    {
      var max := if n <= 0 then MAX_INT32 else n;
      var (head, tail) := ring.Peek(max);
      FlattenPair(head, tail);
      if ring.Buffered() >= max {
        CutFirst(ring.Contents(), list.Contents(), max);
        return [head, tail];
      }
      bs := list.PeekWithBytes(max, [head, tail]);
      assert head + tail == ring.Contents();
      assert bs != [] ==> bs[0] in bs;
    }

    method Discard(n: int) returns (discarded: nat, err: Ring.Error)
      requires Valid()
      modifies Repr
      ensures Valid() && Repr == old(Repr) && maxStaticBytes == old(maxStaticBytes)
      ensures discarded == if n <= 0 then 0 else Min(n, |old(Contents())|)
      ensures Contents() == old(Contents())[discarded..]
      ensures ring.Buffered() == old(ring.Buffered()) - Min(discarded, old(ring.Buffered()))
      ensures err == if n <= 0 && old(ring.rb) == null then Ring.ErrIsEmpty else Ring.NoError
    {
      ghost var fst, snd := ring.Contents(), list.Contents();
      discarded, err := DiscardRing(n);
      if n <= discarded {
        CutFirst(fst, snd, discarded);
        return;
      }
      var m := DiscardRest(n - discarded, fst, snd);
      err := Ring.NoError;
      discarded := discarded + m;
    }

    /** ringBuffer.Discard(n) */
    method DiscardRing(n: int) returns (discarded: nat, err: Ring.Error)
      requires Valid()
      modifies Repr
      ensures Valid() && Repr == old(Repr) && maxStaticBytes == old(maxStaticBytes)
      ensures discarded == if n <= 0 then 0 else Min(n, |old(ring.Contents())|)
      ensures ring.Contents() == old(ring.Contents())[discarded..]
      ensures list.Contents() == old(list.Contents())
      ensures n <= discarded ==> err == if n <= 0 && old(ring.rb) == null then Ring.ErrIsEmpty else Ring.NoError
    {
      discarded, err := ring.Discard(n);
    }

    /** The second half of Discard: the ring is used up, the list goes on. */
    method DiscardRest(n: nat, ghost fst: seq<byte>, ghost snd: seq<byte>) returns (m: nat)
      requires Valid() && n > 0 && ring.Contents() == fst[|fst|..] && list.Contents() == snd
      modifies Repr
      ensures Valid() && Repr == old(Repr) && maxStaticBytes == old(maxStaticBytes)
      ensures m == Min(n, |snd|) && Contents() == (fst + snd)[|fst| + m..] && ring.Buffered() == 0
    {
      m := list.Discard(n);
      CutSecond(fst, snd, m);
    }

    /** Write(p): appends p; a ring that has reached maxStaticBytes is not enlarged. */
    method Write(p: seq<byte>) returns (n: nat)
      requires Valid()
      modifies Repr
      ensures Valid() && fresh(Repr - old(Repr)) && maxStaticBytes == old(maxStaticBytes)
      ensures n == |p| && Contents() == old(Contents()) + p
      ensures ring.Buffered() == old(ring.Buffered()) +
        Fitting(old(list.IsEmpty()), old(ring.Buffered()), old(ring.Capacity()), maxStaticBytes, |p|)
      ensures old(ring.Capacity()) >= maxStaticBytes ==> ring.Capacity() == old(ring.Capacity())
    {
      if !list.IsEmpty() || ring.Buffered() >= maxStaticBytes {
        Spill(p);
        return |p|;
      }
      if ring.Capacity() >= maxStaticBytes {
        var writable := ring.Available();
        n := |p|;
        if n > writable {
          FillAndSpill(p, writable);
          return;
        }
      }
      Fill(p);
      n := |p|;
    }

    /** listBuffer.PushBack(p) */
    method Spill(p: seq<byte>)
      requires Valid()
      modifies Repr
      ensures Valid() && fresh(Repr - old(Repr)) && maxStaticBytes == old(maxStaticBytes)
      ensures ring.Capacity() == old(ring.Capacity()) && ring.Buffered() == old(ring.Buffered())
      ensures Contents() == old(Contents()) + p
    {
      Assoc(ring.Contents(), list.Contents(), p);
      list.PushBack(p);
      Repr := Repr + list.Repr;
    }

    /** ringBuffer.Write(p), while nothing has spilled */
    method Fill(p: seq<byte>)
      requires Valid() && list.IsEmpty()
      modifies Repr
      ensures Valid() && fresh(Repr - old(Repr)) && maxStaticBytes == old(maxStaticBytes)
      ensures list.IsEmpty() && Contents() == old(Contents()) + p && ring.Buffered() == old(ring.Buffered()) + |p|
      ensures old(ring.rb) != null && |p| <= old(ring.Available()) ==>
        ring.rb != null && ring.Capacity() == old(ring.Capacity()) && ring.Available() == old(ring.Available()) - |p|
    {
      NoSecond(ring.Contents(), p);
      var _ := ring.Write(p);
      Repr := Repr + ring.Repr;
    }

    /** Writev(bs): as one Write of the concatenation. */
    method Writev(bs: seq<seq<byte>>) returns (n: nat)
      requires Valid()
      modifies Repr
      ensures Valid() && fresh(Repr - old(Repr)) && maxStaticBytes == old(maxStaticBytes)
      ensures n == |Flatten(bs)| && Contents() == old(Contents()) + Flatten(bs)
      ensures ring.Buffered() == old(ring.Buffered()) +
        FittingSlices(old(list.IsEmpty()), old(ring.Buffered()), old(ring.Capacity()), maxStaticBytes, |Flatten(bs)|)
      ensures old(ring.Capacity()) >= maxStaticBytes ==> ring.Capacity() == old(ring.Capacity())
    {
      if !list.IsEmpty() || ring.Buffered() >= maxStaticBytes {
        n := SpillAll(bs);
        return;
      }
      var writable := if ring.Capacity() < maxStaticBytes then maxStaticBytes - ring.Buffered() else ring.Available();
      n := WriteSlices(bs, writable);
    }

    /** The slices to the ring while they fit into writable bytes, the rest to the list. */
    method WriteSlices(bs: seq<seq<byte>>, space: nat) returns (n: nat)
      requires Valid() && list.IsEmpty()
      modifies Repr
      ensures Valid() && fresh(Repr - old(Repr)) && maxStaticBytes == old(maxStaticBytes)
      ensures n == |Flatten(bs)| && Contents() == old(Contents()) + Flatten(bs)
      ensures ring.Buffered() == old(ring.Buffered()) + Min(space, |Flatten(bs)|)
      ensures old(ring.rb) != null && space == old(ring.Available()) ==> ring.Capacity() == old(ring.Capacity())
    {
      var writable := space;
      ghost var room := ring.rb != null && space == ring.Available();
      ghost var base, held, cap := Contents(), ring.Buffered(), ring.Capacity();
      AllSlices(base, bs);
      n := 0;
      for i := 0 to |bs|
        invariant Valid() && fresh(Repr - old(Repr)) && maxStaticBytes == old(maxStaticBytes)
        invariant list.IsEmpty() && n == |Flatten(bs[..i])| && writable >= 0
        invariant Contents() == base + Flatten(bs[..i])
        invariant ring.Buffered() == held + n && writable == space - n
        invariant room ==> ring.rb != null && ring.Capacity() == cap && writable == ring.Available()
      {
        NextSlice(base, bs, i);
        n := n + |bs[i]|;
        if |bs[i]| > writable {
          SliceRest(base, bs, i);
          var m := Overflow(bs, i, writable);
          n := n + m;
          return;
        }
        Fill(bs[i]);
        writable := writable - |bs[i]|;
      }
    }

    /** Slice i does not fit: cut it, and send everything after it to the list. */
    method Overflow(bs: seq<seq<byte>>, i: nat, writable: nat) returns (m: nat)
      requires Valid() && list.IsEmpty() && i < |bs| && writable <= |bs[i]|
      modifies Repr
      ensures Valid() && fresh(Repr - old(Repr)) && maxStaticBytes == old(maxStaticBytes)
      ensures m == |Flatten(bs[i + 1..])| && Contents() == old(Contents()) + bs[i] + Flatten(bs[i + 1..])
      ensures ring.Buffered() == old(ring.Buffered()) + writable
      ensures old(ring.rb) != null && writable <= old(ring.Available()) ==> ring.Capacity() == old(ring.Capacity())
    {
      FillAndSpill(bs[i], writable);
      m := SpillAll(bs[i + 1..]);
    }

    /** A slice that does not fit: its beginning to the ring, the rest to the list. */
    method FillAndSpill(b: seq<byte>, writable: nat)
      requires Valid() && list.IsEmpty() && writable <= |b|
      modifies Repr
      ensures Valid() && fresh(Repr - old(Repr)) && maxStaticBytes == old(maxStaticBytes)
      ensures Contents() == old(Contents()) + b && ring.Buffered() == old(ring.Buffered()) + writable
      ensures old(ring.rb) != null && writable <= old(ring.Available()) ==> ring.Capacity() == old(ring.Capacity())
    {
      CutAndJoin(Contents(), b, writable);
      Fill(b[..writable]);
      Spill(b[writable..]);
    }

    /** Every slice to the list. */
    method SpillAll(bs: seq<seq<byte>>) returns (n: nat)
      requires Valid()
      modifies Repr
      ensures Valid() && fresh(Repr - old(Repr)) && maxStaticBytes == old(maxStaticBytes)
      ensures ring.Capacity() == old(ring.Capacity()) && ring.Buffered() == old(ring.Buffered())
      ensures n == |Flatten(bs)| && Contents() == old(Contents()) + Flatten(bs)
    {
      n := 0;
      ghost var base := Contents();
      AllSlices(base, bs);
      for i := 0 to |bs|
        invariant Valid() && fresh(Repr - old(Repr)) && maxStaticBytes == old(maxStaticBytes)
        invariant ring.Capacity() == old(ring.Capacity()) && ring.Buffered() == old(ring.Buffered())
        invariant n == |Flatten(bs[..i])| && Contents() == base + Flatten(bs[..i])
      {
        NextSlice(base, bs, i);
        Spill(bs[i]);
        n := n + |bs[i]|;
      }
    }

    /** Reset(maxStaticBytes) */
    method Reset(max: int)
      requires Valid()
      modifies Repr
      ensures Valid() && Repr == old(Repr) && Contents() == []
      ensures maxStaticBytes == if max > 0 then max else old(maxStaticBytes)
    {
      ring.Reset();
      list.Reset();
      if max > 0 {
        maxStaticBytes := max;
      }
    }

    /** Release(): gives the ring back and drops the list. */
    method Release()
      requires Valid()
      modifies Repr
      ensures Valid() && Repr == old(Repr) && Contents() == [] && ring.rb == null
    {
      ring.Done();
      list.Reset();
    }
  }

  /** All of the ring was read, then m bytes of the list. */
  lemma ReadBoth(given: seq<byte>, at: nat, fst: seq<byte>, snd: seq<byte>, n: nat, m: nat)
    requires n == |fst| && m <= |snd| && at + n + m <= |given|
    ensures Splice(Splice(given, at, fst[..n]), at + n, snd[..m]) == Splice(given, at, (fst + snd)[..n + m])
    ensures fst[n..] + snd[m..] == (fst + snd)[n + m..]
  {
    assert fst[..n] == fst;
    SpliceBoth(given, at, fst, snd, m);
    CutSecond(fst, snd, m);
  }

  lemma NextSlice(base: seq<byte>, bs: seq<seq<byte>>, i: nat)
    requires i < |bs|
    ensures base + Flatten(bs[..i]) + bs[i] == base + Flatten(bs[..i + 1])
    ensures |Flatten(bs[..i + 1])| == |Flatten(bs[..i])| + |bs[i]|
  {
    assert bs[..i + 1] == bs[..i] + [bs[i]];
    FlattenSnoc(bs[..i], bs[i]);
  }

  lemma AllSlices(base: seq<byte>, bs: seq<seq<byte>>)
    ensures bs[..|bs|] == bs && bs[..0] == [] && base + Flatten(bs[..0]) == base
  {
  }

  lemma SliceRest(base: seq<byte>, bs: seq<seq<byte>>, i: nat)
    requires i < |bs|
    ensures base + Flatten(bs[..i]) + bs[i] + Flatten(bs[i + 1..]) == base + Flatten(bs)
    ensures |Flatten(bs)| == |Flatten(bs[..i + 1])| + |Flatten(bs[i + 1..])|
  {
    NextSlice(base, bs, i);
    FlattenSplit(bs, i + 1);
  }
}
