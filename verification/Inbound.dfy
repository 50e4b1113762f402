/**
 The inbound side of a connection (connection.go): leftovers of earlier reads in inboundBuffer,
 the latest bytes in buffer. Both together act as one byte sequence.
 */
module Inbound {
  import opened Bytes
  import Elastic
  import Ring

  datatype Error = NoError | ErrShortBuffer

  /** How many bytes Next(n) and Peek(n) mean, n <= 0 standing for all. */
  function Wanted(n: int, total: nat): nat {
    if n <= 0 then total else n
  }

  /** The inbound side at one moment: inboundBuffer and buffer. */
  datatype Inbox = Inbox(waiting: seq<byte>, latest: seq<byte>) {
    function All(): seq<byte> {
      waiting + latest
    }

    /** The first k bytes are gone, those of inboundBuffer first. */
    function Drop(k: nat): Inbox
      requires k <= |waiting| + |latest|
    {
      if k <= |waiting| then Inbox(waiting[k..], latest) else Inbox([], latest[k - |waiting|..])
    }
  }

  lemma DropAll(m: Inbox, k: nat)
    requires k <= |m.All()|
    ensures m.Drop(k).All() == m.All()[k..]
  {
    if k <= |m.waiting| {
      CutFirst(m.waiting, m.latest, k);
    } else {
      CutSecond(m.waiting, m.latest, k - |m.waiting|);
    }
  }

  lemma DropTwice(m: Inbox, j: nat, k: nat)
    requires j + k <= |m.All()|
    ensures k <= |m.Drop(j).All()| && m.Drop(j).Drop(k) == m.Drop(j + k)
  {
    DropAll(m, j);
  }

  class Stream {
    var buffer: seq<byte>             // the latest bytes read from the socket
    const ring: Elastic.RingBuffer    // inboundBuffer
    ghost var Repr: set<object>

    ghost predicate Valid()
      reads this, Repr
      ensures Valid() ==> this in Repr
    {
      this in Repr && ring in Repr && ring.Repr <= Repr && this !in ring.Repr && ring.Valid()
    }

    ghost function Contents(): (s: seq<byte>)
      requires Valid()
      reads this, Repr
    {
      ring.Contents() + buffer
    }

    ghost function Look(): Inbox
      requires Valid()
      reads this, Repr
    {
      Inbox(ring.Contents(), buffer)
    }

    constructor ()
      ensures Valid() && fresh(Repr) && ring.Contents() == [] && buffer == []
    {
      buffer := [];
      var r := new Elastic.RingBuffer();
      ring := r;
      new;
      Repr := {this} + ring.Repr;
    }

    function Buffered(): (n: nat)
      requires Valid()
      reads this, Repr
      ensures n == |Contents()|
    {
      ring.Buffered() + |buffer|
    }

    /** Read(p) */
    method Read(p: array<byte>) returns (n: nat)
      requires Valid() && p !in Repr
      modifies Repr, p
      ensures Valid() && Repr == old(Repr)
      ensures n == Min(p.Length, |old(Contents())|)
      ensures p[..] == Splice(old(p[..]), 0, old(Contents())[..n])
      ensures Contents() == old(Contents())[n..] && Look() == old(Look()).Drop(n)
    {
      ghost var fst, snd, given := ring.Contents(), buffer, p[..];
      if ring.IsEmpty() {
        n := TakeLatest(p, 0);
        NoFirst(fst, snd);
        NoFirst(fst, snd[n..]);
        return;
      }
      var err;
      n, err := ring.Read(p, 0);
      if n == p.Length {
        CutFirst(fst, snd, n);
        return;
      }
      assert fst[..n] == fst;
      var m := TakeLatest(p, n);
      SpliceBoth(given, 0, fst, snd, m);
      CutSecond(fst, snd, m);
      n := n + m;
    }

    /** m := copy(p[at:], c.buffer); c.buffer = c.buffer[m:] */
    method TakeLatest(p: array<byte>, at: nat) returns (m: nat)
      requires Valid() && at <= p.Length && p !in Repr
      modifies this, p
      ensures Valid() && Repr == old(Repr) && ring.Contents() == old(ring.Contents())
      ensures m == Min(p.Length - at, |old(buffer)|) && buffer == old(buffer)[m..]
      ensures p[..] == Splice(old(p[..]), at, old(buffer)[..m])
    {
      m := Min(p.Length - at, |buffer|);
      CopyIn(p, at, buffer[..m]);
      buffer := buffer[m..];
    }

    /** Peek(n) */
    method Peek(n: int) returns (buf: seq<byte>, err: Error)
      requires Valid()
      ensures n > |Contents()| ==> err == ErrShortBuffer && buf == []
      ensures n <= |Contents()| ==> err == NoError && buf == Contents()[..Wanted(n, |Contents()|)]
    {
      var total := ring.Buffered() + |buffer|;
      if n > total {
        return [], ErrShortBuffer;
      }
      err := NoError;
      var k := Wanted(n, total);
      ghost var fst := ring.Contents();
      if ring.IsEmpty() {
        NoFirst(fst, buffer);
        return buffer[..k], err;
      }
      var (head, tail) := ring.Peek(k);
      buf := Gather(fst, head, tail, k);
    }

    /** The scratch cache of the event loop: head, tail and, if that is not enough, bytes of buffer. */
    method Gather(ghost fst: seq<byte>, head: seq<byte>, tail: seq<byte>, k: nat) returns (buf: seq<byte>)
      requires fst != [] && 0 < k <= |fst| + |buffer| && head + tail == fst[..Min(k, |fst|)]
      ensures buf == (fst + buffer)[..k]
    {
      if |head| >= k {
        CutFirst(fst, buffer, k);
        assert tail == [];
        return head[..k];
      }
      var cache := head + tail;
      if |cache| >= k {
        CutFirst(fst, buffer, k);
        return cache;
      }
      CutSecond(fst, buffer, k - |fst|);
      assert fst[..|fst|] == fst;
      buf := cache + buffer[..k - |cache|];
    }

    /** Next(n) */
    method Next(n: int) returns (buf: seq<byte>, err: Error)
      requires Valid()
      modifies Repr
      ensures Valid() && Repr == old(Repr)
      ensures n > |old(Contents())| ==> err == ErrShortBuffer && buf == [] && Look() == old(Look())
      ensures n <= |old(Contents())| ==>
        var k := Wanted(n, |old(Contents())|);
        err == NoError && buf == old(Contents())[..k] && Contents() == old(Contents())[k..] && Look() == old(Look()).Drop(k)
    {
      var inLen := ring.Buffered();
      var total := inLen + |buffer|;
      if n > total {
        return [], ErrShortBuffer;
      }
      err := NoError;
      var k := Wanted(n, total);
      ghost var fst, snd := ring.Contents(), buffer;
      if ring.IsEmpty() {
        buf := buffer[..k];
        buffer := buffer[k..];
        NoFirst(fst, snd);
        NoFirst(fst, snd[k..]);
        return;
      }
      var (head, tail) := ring.Peek(k);
      buf := Gather(fst, head, tail, k);
      if inLen < k {
        CutSecond(fst, snd, k - inLen);
        buffer := buffer[k - inLen..];
      } else {
        CutFirst(fst, snd, k);
      }
      var _, _ := ring.Discard(k);
    }

    /** Discard(n); n <= 0 or more than there is discards everything. */
    method Discard(n: int) returns (discarded: nat)
      requires Valid()
      modifies Repr
      ensures Valid() && Repr == old(Repr)
      ensures discarded == if n <= 0 || n > |old(Contents())| then |old(Contents())| else n
      ensures Contents() == old(Contents())[discarded..] && Look() == old(Look()).Drop(discarded)
    {
      ghost var fst, snd := ring.Contents(), buffer;
      var inLen := ring.Buffered();
      var tmpLen := |buffer|;
      if inLen + tmpLen < n || n <= 0 {
        buffer := [];
        ring.Reset();
        return inLen + tmpLen;
      }
      if ring.IsEmpty() {
        NoFirst(fst, snd);
        NoFirst(fst, snd[n..]);
        buffer := buffer[n..];
        return n;
      }
      var err;
      discarded, err := ring.Discard(n);
      if discarded < inLen {
        CutFirst(fst, snd, n);
        return;
      }
      CutSecond(fst, snd, n - inLen);
      buffer := buffer[n - inLen..];
      discarded := n;
    }

    /** A read event begins: the kernel delivered bytes (eventloop.go, read). */
    method Arrive(bytes: seq<byte>)
      requires Valid()
      modifies this
      ensures Valid() && Repr == old(Repr) && buffer == bytes && ring.Contents() == old(ring.Contents())
    {
      buffer := bytes;
    }

    /** A read event ends: what the handler left goes to inboundBuffer; buffer is not cleared. */
    method Stow()
      requires Valid()
      modifies Repr
      ensures Valid() && fresh(Repr - old(Repr)) && buffer == old(buffer)
      ensures ring.Contents() == old(Contents())
    {
      var _ := ring.Write(buffer);
      Repr := Repr + ring.Repr;
    }

    /** inboundBuffer.Done() and buffer = nil, on close */
    method Release()
      requires Valid()
      modifies Repr
      ensures Valid() && Repr == old(Repr) && Look() == Inbox([], [])
    {
      buffer := [];
      ring.Done();
    }
  }

  lemma NoFirst(fst: seq<byte>, snd: seq<byte>)
    ensures fst == [] ==> fst + snd == snd
  {
  }
}
