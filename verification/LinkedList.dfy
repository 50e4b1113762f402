/**
 The linked list of byte chunks of pkg/buffer/linkedlist/linked_list_buffer.go. Contents() is the
 byte sequence it stands for: the chunks in list order.
 */
module LinkedList {
  import opened Bytes

  const MAX_INT32 := 0x7FFF_FFFF

  class Node {
    var buf: seq<byte>
    var next: Node?

    constructor (b: seq<byte>)
      ensures buf == b && next == null
    {
      buf, next := b, null;
    }
  }

  /**
   What a peek of max bytes from the byte sequence all may return: non-empty slices that make up
   a prefix, at least max bytes if there are as many, and no slice more than needed.
   */
  ghost predicate Peeked(bs: seq<seq<byte>>, max: int, all: seq<byte>) {
    && (forall b :: b in bs ==> b != [])
    && Flatten(bs) <= all
    && |Flatten(bs)| >= Min(max, |all|)
    && (bs != [] ==> |Flatten(bs[..|bs| - 1])| < max)
  }

  lemma PeekedPrefix(bs: seq<seq<byte>>, max: int, first: seq<byte>, rest: seq<byte>)
    requires bs != [] && forall b :: b in bs ==> b != []
    requires Flatten(bs) == first && |first| >= max && |Flatten(bs[..|bs| - 1])| < max
    ensures Peeked(bs, max, first + rest)
  {
  }

  lemma NextChunk(front: seq<seq<byte>>, chunks: seq<seq<byte>>, k: nat, bs: seq<seq<byte>>)
    requires k < |chunks| && Flatten(bs) == Flatten(front) + Flatten(chunks[..k])
    ensures Flatten(bs + [chunks[k]]) == Flatten(front) + Flatten(chunks[..k + 1])
    ensures |Flatten(bs + [chunks[k]])| == |Flatten(bs)| + |chunks[k]|
  {
    FlattenSnoc(bs, chunks[k]);
    FlattenSnoc(chunks[..k], chunks[k]);
    assert chunks[..k + 1] == chunks[..k] + [chunks[k]];
  }

  lemma PeekedPart(bs: seq<seq<byte>>, max: int, front: seq<seq<byte>>, chunks: seq<seq<byte>>, k: nat)
    requires bs != [] && k <= |chunks| && forall b :: b in bs ==> b != []
    requires Flatten(bs) == Flatten(front) + Flatten(chunks[..k])
    requires |Flatten(bs)| >= max && |Flatten(bs[..|bs| - 1])| < max
    ensures Peeked(bs, max, Flatten(front) + Flatten(chunks))
  {
    FlattenSplit(chunks, k);
    assert Flatten(front) + Flatten(chunks) == Flatten(bs) + Flatten(chunks[k..]);
  }

  lemma PeekedAll(bs: seq<seq<byte>>, max: int)
    requires forall b :: b in bs ==> b != []
    requires |Flatten(bs)| < max
    ensures Peeked(bs, max, Flatten(bs))
  {
    if bs != [] {
      FlattenSplit(bs, |bs| - 1);
    }
  }

  function Successor(nodes: seq<Node>, i: nat): Node? {
    if i + 1 < |nodes| then nodes[i + 1] else null
  }

  lemma Distinct(b: Node, nodes: seq<Node>)
    requires b !in nodes && forall i, j :: 0 <= i < j < |nodes| ==> nodes[i] != nodes[j]
    ensures forall i, j :: 0 <= i < j < |[b] + nodes| ==> ([b] + nodes)[i] != ([b] + nodes)[j]
  {
  }

  class Buffer {
    var head: Node?
    var tail: Node?
    var size: int
    var bytes: int
    ghost var nodes: seq<Node>
    ghost var chunks: seq<seq<byte>>
    ghost var Repr: set<object>

    /** An acyclic chain of non-empty chunks with the right tail and the right counters. */
    ghost predicate Valid()
      reads this, Repr
      ensures Valid() ==> this in Repr
    {
      && this in Repr && (forall i :: 0 <= i < |nodes| ==> nodes[i] in Repr)
      && |nodes| == |chunks|
      && (forall i :: 0 <= i < |nodes| ==> nodes[i].buf == chunks[i] && chunks[i] != [])
      && (forall i {:trigger nodes[i].next} :: 0 <= i < |nodes| ==> nodes[i].next == Successor(nodes, i))
      && (forall i, j :: 0 <= i < j < |nodes| ==> nodes[i] != nodes[j])
      && head == (if nodes == [] then null else nodes[0])
      && tail == (if nodes == [] then null else nodes[|nodes| - 1])
      && size == |nodes|
      && bytes == |Flatten(chunks)|
    }

    ghost function Contents(): (s: seq<byte>)
      reads this
    {
      Flatten(chunks)
    }

    constructor ()
      ensures Valid() && fresh(Repr) && Contents() == []
    {
      head, tail := null, null;
      size, bytes := 0, 0;
      nodes, chunks := [], [];
      Repr := {this};
    }

    predicate IsEmpty()
      requires Valid()
      reads this, Repr
      ensures IsEmpty() <==> Contents() == []
    {
      head == null
    }

    function Buffered(): (n: nat)
      requires Valid()
      reads this, Repr
      ensures n == |Contents()|
    {
      bytes
    }

    method Pop() returns (b: Node?)
      requires Valid()
      modifies this, head
      ensures Valid() && Repr == old(Repr)
      ensures old(nodes) == [] ==> b == null && nodes == [] && chunks == []
      ensures old(nodes) != [] ==>
        && b == old(nodes)[0] && b.next == null && b.buf == old(chunks)[0]
        && nodes == old(nodes)[1..] && chunks == old(chunks)[1..]
        && b !in nodes && b in Repr && b.buf != [] && old(Contents()) == b.buf + Contents()
    {
      if head == null {
        return null;
      }
      b := head;
      head := b.next;
      if head == null {
        tail := null;
      }
      b.next := null;
      size := size - 1;
      bytes := bytes - |b.buf|;
      nodes, chunks := nodes[1..], chunks[1..];
    }

    method PushFrontNode(b: Node)
      requires Valid() && b !in nodes && b.buf != []
      modifies this, b
      ensures Valid() && Repr == old(Repr) + {b} && nodes == [b] + old(nodes) && chunks == [b.buf] + old(chunks) && b.buf == old(b.buf)
    {
      FlattenFirst(b.buf, chunks);
      if head == null {
        b.next := null;
        tail := b;
      } else {
        b.next := head;
      }
      head := b;
      size := size + 1;
      bytes := bytes + |b.buf|;
      nodes, chunks := [b] + nodes, [b.buf] + chunks;
      Repr := Repr + {b};
      forall i | 0 <= i < |nodes| ensures nodes[i].next == Successor(nodes, i) && nodes[i].buf == chunks[i] {
        if i > 0 {
          assert nodes[i] == old(nodes)[i - 1] && Successor(nodes, i) == Successor(old(nodes), i - 1);
        }
      }
      Distinct(b, old(nodes));
    }

    method PushBackNode(b: Node)
      requires Valid() && b !in nodes && b.buf != []
      modifies this, tail, b
      ensures Valid() && Repr == old(Repr) + {b} && nodes == old(nodes) + [b] && chunks == old(chunks) + [b.buf] && b.buf == old(b.buf)
    {
      FlattenSnoc(chunks, b.buf);
      if tail == null {
        head := b;
      } else {
        tail.next := b;
      }
      b.next := null;
      tail := b;
      size := size + 1;
      bytes := bytes + |b.buf|;
      nodes, chunks := nodes + [b], chunks + [b.buf];
      Repr := Repr + {b};
    }

    method PushBack(p: seq<byte>)
      requires Valid()
      modifies Repr
      ensures Valid() && fresh(Repr - old(Repr)) && Contents() == old(Contents()) + p
    {
      if |p| == 0 {
        return;
      }
      var b := new Node(p);
      FlattenSnoc(chunks, p);
      PushBackNode(b);
    }

    method PushFront(p: seq<byte>)
      requires Valid()
      modifies Repr
      ensures Valid() && fresh(Repr - old(Repr)) && Contents() == p + old(Contents())
    {
      if |p| == 0 {
        return;
      }
      var b := new Node(p);
      FlattenFirst(p, chunks);
      PushFrontNode(b);
    }

    /** The rest of a popped chunk goes back to the front. */
    method PutBack(b: Node, m: nat)
      requires Valid() && b !in nodes && b in Repr && m < |b.buf|
      modifies this, b
      ensures Valid() && Repr == old(Repr) && nodes == [b] + old(nodes)
      ensures Contents() == old(b.buf)[m..] + old(Contents())
    {
      b.buf := b.buf[m..];
      FlattenFirst(b.buf, chunks);
      PushFrontNode(b);
    }

    /** Discard(n): whole chunks go, a chunk that is cut is pushed back in front. */
    method Discard(n: int) returns (discarded: nat)
      requires Valid()
      modifies Repr
      ensures Valid() && Repr == old(Repr)
      ensures discarded == if n <= 0 then 0 else Min(n, |old(Contents())|)
      ensures Contents() == old(Contents())[discarded..]
    {
      discarded := 0;
      if n <= 0 {
        return;
      }
      var left := n;
      ghost var all := Contents();
      while left != 0
        invariant Valid() && 0 <= left && left + discarded == n
        invariant discarded <= |all| && Contents() == all[discarded..]
        invariant Repr == old(Repr)
        decreases |nodes|
      {
        var b := Pop();
        if b == null {
          break;
        }
        if left < |b.buf| {
          discarded := discarded + left;
          PutBack(b, left);
          break;
        }
        left := left - |b.buf|;
        discarded := discarded + |b.buf|;
      }
    }

    /** One round of Read: pops a chunk and copies as much of it as fits into p[at:]. */
    method ReadChunk(p: array<byte>, at: nat) returns (m: nat)
      requires Valid() && at < p.Length && nodes != [] && p !in Repr
      modifies this, head, p
      ensures Valid() && Repr == old(Repr) && 0 < m <= p.Length - at && m <= |old(Contents())|
      ensures Contents() == old(Contents())[m..]
      ensures p[..] == Splice(old(p[..]), at, old(Contents())[..m])
      ensures at + m == p.Length || |nodes| < |old(nodes)|
    {
      ghost var all := Contents();
      var b := Pop();
      m := Min(p.Length - at, |b.buf|);
      CopyIn(p, at, b.buf[..m]);
      assert all[..m] == b.buf[..m];
      if m < |b.buf| {
        PutBack(b, m);
      }
    }

    /** Read(p[from:]) */
    method Read(p: array<byte>, from: nat) returns (n: nat)
      requires Valid() && from <= p.Length && p !in Repr
      modifies Repr, p
      ensures Valid() && Repr == old(Repr)
      ensures n == Min(p.Length - from, |old(Contents())|)
      ensures Contents() == old(Contents())[n..]
      ensures p[..] == Splice(old(p[..]), from, old(Contents())[..n])
    {
      n := 0;
      if p.Length == from {
        return;
      }
      ghost var all := Contents();
      ghost var given := p[..];
      while head != null
        invariant Valid() && from + n < p.Length && n <= |all|
        invariant Contents() == all[n..]
        invariant p[..] == Splice(given, from, all[..n])
        invariant Repr == old(Repr)
        decreases |nodes|
      {
        var m := ReadChunk(p, from + n);
        SpliceNext(given, from, all, n, m);
        assert all[n..][m..] == all[n + m..];
        n := n + m;
        if from + n == p.Length {
          return;
        }
      }
    }

    /** Peek(maxBytes): the fewest chunks from the front that reach maxBytes, or all of them. */
    method Peek(maxBytes: int) returns (bs: seq<seq<byte>>)
      requires Valid()
      ensures Peeked(bs, if maxBytes <= 0 then MAX_INT32 else maxBytes, Contents())
    {
      bs := PeekWithBytes(maxBytes, []);
      assert Flatten([]) + Contents() == Contents();
    }

    /** PeekWithBytes: like Peek, with the given slices in front; empty ones are left out. */
    method PeekWithBytes(maxBytes: int, front: seq<seq<byte>>) returns (bs: seq<seq<byte>>)
      requires Valid()
      ensures Peeked(bs, if maxBytes <= 0 then MAX_INT32 else maxBytes, Flatten(front) + Contents())
    {
      var max := if maxBytes <= 0 then MAX_INT32 else maxBytes;
      bs := [];
      var cum := 0;
      for i := 0 to |front|
        invariant Flatten(bs) == Flatten(front[..i]) && cum == |Flatten(bs)| < max
        invariant forall b :: b in bs ==> b != []
      {
        FlattenSnoc(front[..i], front[i]);
        assert front[..i + 1] == front[..i] + [front[i]];
        var n := |front[i]|;
        if n > 0 {
          FlattenSnoc(bs, front[i]);
          bs := bs + [front[i]];
          cum := cum + n;
          if cum >= max {
            FlattenSplit(front, i + 1);
            PeekedPrefix(bs, max, Flatten(front[..i + 1]), Flatten(front[i + 1..]) + Contents());
            assert Flatten(front) + Contents() == Flatten(front[..i + 1]) + (Flatten(front[i + 1..]) + Contents());
            return;
          }
        }
      }
      assert front[..|front|] == front;
      bs := PeekChunks(max, bs, cum);
    }

    method PeekChunks(max: int, front: seq<seq<byte>>, start: nat) returns (bs: seq<seq<byte>>)
      requires Valid() && start == |Flatten(front)| < max
      requires forall b :: b in front ==> b != []
      ensures Peeked(bs, max, Flatten(front) + Contents())
    {
      bs := front;
      var cum := start;
      ghost var k := 0;
      var iter := head;
      assert chunks[..0] == [];
      while iter != null
        invariant 0 <= k <= |nodes| && iter == (if k < |nodes| then nodes[k] else null)
        invariant Flatten(bs) == Flatten(front) + Flatten(chunks[..k]) && cum == |Flatten(bs)| < max
        invariant forall b :: b in bs ==> b != []
        decreases |nodes| - k
      {
        NextChunk(front, chunks, k, bs);
        bs := bs + [iter.buf];
        cum := cum + |iter.buf|;
        k := k + 1;
        if cum >= max {
          PeekedPart(bs, max, front, chunks, k);
          return;
        }
        iter := iter.next;
      }
      assert chunks[..|chunks|] == chunks;
      PeekedAll(bs, max);
    }

    method Reset()
      requires Valid()
      modifies Repr
      ensures Valid() && Repr == old(Repr) && Contents() == []
    {
      while head != null
        invariant Valid()
        invariant Repr == old(Repr)
        decreases |nodes|
      {
        var b := Pop();
      }
      head, tail := null, null;
      size, bytes := 0, 0;
    }
  }
}
