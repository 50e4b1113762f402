/**
 Whole runs of the buffers. The reference is one byte sequence with FIFO operations; the ring
 and the hybrid buffer give the same answers as the reference for every list of operations.
 */
module Fifo {
  import opened Bytes
  import Ring
  import Elastic

  datatype Op =
    | Write(p: seq<byte>)
    | Writev(bs: seq<seq<byte>>)
    | Read(length: nat)
    | ReadByte
    | Peek(n: int)
    | Discard(n: int)
    | Reset

  datatype Answer = Count(n: nat) | Data(bytes: seq<byte>)

  /** One operation on the reference: the new sequence and the answer. */
  function Apply(s: seq<byte>, op: Op): (seq<byte>, Answer) {
    match op
    case Write(p) => (s + p, Count(|p|))
    case Writev(bs) => (s + Flatten(bs), Count(|Flatten(bs)|))
    case Read(k) => (s[Min(k, |s|)..], Data(s[..Min(k, |s|)]))
    case ReadByte => (s[Min(1, |s|)..], Data(s[..Min(1, |s|)]))
    case Peek(n) => (s, Data(if n <= 0 then s else s[..Min(n, |s|)]))
    case Discard(n) => var k := if n <= 0 then 0 else Min(n, |s|); (s[k..], Count(k))
    case Reset => ([], Count(0))
  }

  datatype Outcome = Outcome(s: seq<byte>, answers: seq<Answer>, peak: nat)

  /** A list of operations: final sequence, all answers, and the most bytes ever held. */
  function RunAll(s: seq<byte>, ops: seq<Op>): Outcome {
    if ops == [] then Outcome(s, [], |s|) else
    var before := RunAll(s, ops[..|ops| - 1]);
    var (t, a) := Apply(before.s, ops[|ops| - 1]);
    Outcome(t, before.answers + [a], Max(before.peak, |t|))
  }

  lemma RunNext(s: seq<byte>, ops: seq<Op>, i: nat)
    requires i < |ops|
    ensures var before := RunAll(s, ops[..i]); var (t, a) := Apply(before.s, ops[i]);
      RunAll(s, ops[..i + 1]) == Outcome(t, before.answers + [a], Max(before.peak, |t|))
  {
    assert ops[..i + 1][..i] == ops[..i];
  }

  lemma RunNone(s: seq<byte>, ops: seq<Op>)
    ensures RunAll(s, ops[..0]) == Outcome(s, [], |s|)
    ensures ops[..|ops|] == ops
  {
  }

  // ---------------------------------------------------------------------------------------
  // The ring
  // ---------------------------------------------------------------------------------------

  method RingStep(rb: Ring.Buffer, op: Op) returns (a: Answer)
    requires rb.Valid() && !op.Writev?
    modifies rb, rb.buf
    ensures rb.Valid() && (rb.buf == old(rb.buf) || fresh(rb.buf))
    ensures (rb.Contents(), a) == Apply(old(rb.Contents()), op)
    ensures rb.size <= Max(old(rb.size), Max(Ring.DEFAULT_BUFFER_SIZE, 2 * |rb.Contents()|))
  {
    match op {
      case Write(p) =>
        var n := rb.Write(p);
        a := Count(n);
      case Read(k) =>
        var p := new byte[k];
        var n, _ := rb.Read(p, 0);
        ghost var s := old(rb.Contents());
        SplicePrefix(p[..], 0, s[..n]);
        assert p[..n] == s[..n];
        a := Data(p[..n]);
      case ReadByte =>
        ghost var s := rb.Contents();
        var b, err := rb.ReadByte();
        a := Data(if err == Ring.NoError then [b] else []);
        assert s != [] ==> s[..1] == [b] && s[1..] == rb.Contents();
      case Peek(n) =>
        var (head, tail) := rb.Peek(n);
        a := Data(head + tail);
      case Discard(n) =>
        var k := rb.Discard(n);
        a := Count(k);
      case Reset =>
        rb.Reset();
        a := Count(0);
    }
  }

  /**
   Every list of operations on a ring, across wrap-around, full and growth: the answers and the
   final contents are the reference's, and the capacity stays within the growth bound.
   */
  method RingRun(rb: Ring.Buffer, ops: seq<Op>) returns (answers: seq<Answer>)
    requires rb.Valid() && forall op :: op in ops ==> !op.Writev?
    modifies rb, rb.buf
    ensures rb.Valid()
    ensures var r := RunAll(old(rb.Contents()), ops);
      && rb.Contents() == r.s && answers == r.answers
      && rb.size <= Max(old(rb.size), Max(Ring.DEFAULT_BUFFER_SIZE, 2 * r.peak))
  {
    answers := [];
    ghost var base := rb.Contents();
    RunNone(base, ops);
    for i := 0 to |ops|
      invariant rb.Valid() && (rb.buf == old(rb.buf) || fresh(rb.buf))
      invariant rb.Contents() == RunAll(base, ops[..i]).s && answers == RunAll(base, ops[..i]).answers
      invariant rb.size <= Max(old(rb.size), Max(Ring.DEFAULT_BUFFER_SIZE, 2 * RunAll(base, ops[..i]).peak))
    {
      RunNext(base, ops, i);
      var a := RingStep(rb, ops[i]);
      answers := answers + [a];
    }
  }

  // ---------------------------------------------------------------------------------------
  // The hybrid buffer
  // ---------------------------------------------------------------------------------------

  /** The answer is the reference's, except that Peek(n) may show more than n bytes. */
  predicate Agrees(s: seq<byte>, op: Op, a: Answer) {
    if op.Peek? then
      a.Data? && a.bytes <= s && |a.bytes| >= Min(if op.n <= 0 then Elastic.MAX_INT32 else op.n, |s|)
    else
      a == Apply(s, op).1
  }

  method HybridRead(mb: Elastic.Buffer, k: nat) returns (a: Answer)
    requires mb.Valid()
    modifies mb.Repr
    ensures mb.Valid() && mb.Repr == old(mb.Repr) && mb.maxStaticBytes == old(mb.maxStaticBytes)
    ensures (mb.Contents(), a) == Apply(old(mb.Contents()), Read(k))
  {
    ghost var s := mb.Contents();
    var p := new byte[k];
    var n, _ := mb.Read(p, 0);
    SplicePrefix(p[..], 0, s[..n]);
    assert p[..n] == s[..n];
    a := Data(p[..n]);
  }

  method HybridWrite(mb: Elastic.Buffer, op: Op) returns (a: Answer)
    requires mb.Valid() && (op.Write? || op.Writev?)
    modifies mb.Repr
    ensures mb.Valid() && fresh(mb.Repr - old(mb.Repr)) && mb.maxStaticBytes == old(mb.maxStaticBytes)
    ensures (mb.Contents(), a) == Apply(old(mb.Contents()), op)
    ensures old(mb.ring.Capacity()) >= mb.maxStaticBytes ==> mb.ring.Capacity() == old(mb.ring.Capacity())
  {
    var n := 0;
    if op.Write? {
      n := mb.Write(op.p);
    } else {
      n := mb.Writev(op.bs);
    }
    a := Count(n);
  }

  method HybridPeek(mb: Elastic.Buffer, n: int) returns (a: Answer)
    requires mb.Valid()
    ensures Agrees(mb.Contents(), Peek(n), a)
  {
    var bs := mb.Peek(n);
    a := Data(Flatten(bs));
  }

  method HybridStep(mb: Elastic.Buffer, op: Op) returns (a: Answer)
    requires mb.Valid() && !op.ReadByte?
    modifies mb.Repr
    ensures mb.Valid() && fresh(mb.Repr - old(mb.Repr)) && mb.maxStaticBytes == old(mb.maxStaticBytes)
    ensures mb.Contents() == Apply(old(mb.Contents()), op).0 && Agrees(old(mb.Contents()), op, a)
    ensures old(mb.ring.Capacity()) >= mb.maxStaticBytes && (op.Write? || op.Writev?) ==>
      mb.ring.Capacity() == old(mb.ring.Capacity())
  {
    match op {
      case Write(_) => a := HybridWrite(mb, op);
      case Writev(_) => a := HybridWrite(mb, op);
      case Read(k) =>
        a := HybridRead(mb, k);
      case Peek(n) =>
        a := HybridPeek(mb, n);
      case Discard(n) =>
        var k, _ := mb.Discard(n);
        a := Count(k);
      case Reset =>
        mb.Reset(0);
        a := Count(0);
    }
  }

  /** What a run gave: the answers, and the size of the ring before each operation and at the end. */
  datatype Report = Report(answers: seq<Answer>, caps: seq<nat>)

  /** Operation i was answered as on s, and no write enlarged a ring that had reached max. */
  ghost predicate GoodAt(base: seq<byte>, ops: seq<Op>, r: Report, max: int, i: nat)
    requires i < |ops| && |r.answers| == |ops| && |r.caps| == |ops| + 1
  {
    && Agrees(RunAll(base, ops[..i]).s, ops[i], r.answers[i])
    && (r.caps[i] >= max && (ops[i].Write? || ops[i].Writev?) ==> r.caps[i + 1] == r.caps[i])
  }

  ghost predicate Good(base: seq<byte>, ops: seq<Op>, r: Report, max: int) {
    && |r.answers| == |ops| && |r.caps| == |ops| + 1
    && forall i :: 0 <= i < |ops| ==> GoodAt(base, ops, r, max, i)
  }

  lemma GoodSoFar(base: seq<byte>, ops: seq<Op>, n: nat, r: Report, a: Answer, cap: nat, max: int)
    requires n < |ops| && Good(base, ops[..n], r, max) && Agrees(RunAll(base, ops[..n]).s, ops[n], a)
    requires r.caps[n] >= max && (ops[n].Write? || ops[n].Writev?) ==> cap == r.caps[n]
    ensures Good(base, ops[..n + 1], Report(r.answers + [a], r.caps + [cap]), max)
  {
    var r', shorter, longer := Report(r.answers + [a], r.caps + [cap]), ops[..n], ops[..n + 1];
    forall i | 0 <= i < n + 1 ensures GoodAt(base, longer, r', max, i) {
      assert longer[..i] == ops[..i];
      if i < n {
        assert GoodAt(base, shorter, r, max, i) && shorter[..i] == ops[..i];
      }
    }
  }

  /**
   Every list of operations on the hybrid buffer, for every mix of overflow and ring release: the
   final contents and all answers agree with the reference, and no write enlarges a ring that has
   reached maxStaticBytes. The buffer has no ReadByte.
   */
  method HybridRun(mb: Elastic.Buffer, ops: seq<Op>) returns (r: Report)
    requires mb.Valid() && forall op :: op in ops ==> !op.ReadByte?
    modifies mb.Repr
    ensures mb.Valid() && fresh(mb.Repr - old(mb.Repr)) && mb.maxStaticBytes == old(mb.maxStaticBytes)
    ensures mb.Contents() == RunAll(old(mb.Contents()), ops).s
    ensures Good(old(mb.Contents()), ops, r, mb.maxStaticBytes)
    ensures r.caps[0] == old(mb.ring.Capacity()) && r.caps[|ops|] == mb.ring.Capacity()
  {
    ghost var base := mb.Contents();
    RunNone(base, ops);
    r := Report([], [mb.ring.Capacity()]);
    for i := 0 to |ops|
      invariant mb.Valid() && fresh(mb.Repr - old(mb.Repr)) && mb.maxStaticBytes == old(mb.maxStaticBytes)
      invariant mb.Contents() == RunAll(base, ops[..i]).s && Good(base, ops[..i], r, mb.maxStaticBytes)
      invariant r.caps[0] == old(mb.ring.Capacity()) && r.caps[i] == mb.ring.Capacity()
    {
      RunNext(base, ops, i);
      var a := HybridStep(mb, ops[i]);
      GoodSoFar(base, ops, i, r, a, mb.ring.Capacity(), mb.maxStaticBytes);
      r := Report(r.answers + [a], r.caps + [mb.ring.Capacity()]);
    }
  }
}
