/** Byte sequences and lists of chunks. */
module Bytes {

  newtype byte = x: int | 0 <= x < 256

  function Min(a: int, b: int): int {
    if a < b then a else b
  }

  function Max(a: int, b: int): int {
    if a < b then b else a
  }

  /** The bytes of a list of slices, in order. */
  function Flatten(chunks: seq<seq<byte>>): seq<byte> {
    if chunks == [] then [] else chunks[0] + Flatten(chunks[1..])
  }

  lemma {:induction false} FlattenConcat(a: seq<seq<byte>>, b: seq<seq<byte>>)
    ensures Flatten(a + b) == Flatten(a) + Flatten(b)
  {
    if a == [] {
      assert a + b == b;
    } else {
      FlattenConcat(a[1..], b);
      assert (a + b)[1..] == a[1..] + b;
    }
  }

  lemma FlattenSingle(a: seq<byte>)
    ensures Flatten([a]) == a
  {
    assert Flatten([]) == [];
  }

  lemma FlattenPair(a: seq<byte>, b: seq<byte>)
    ensures Flatten([a, b]) == a + b
  {
    assert [a, b][1..] == [b];
    FlattenSingle(b);
  }

  lemma FlattenSplit(chunks: seq<seq<byte>>, k: nat)
    requires k <= |chunks|
    ensures Flatten(chunks) == Flatten(chunks[..k]) + Flatten(chunks[k..])
  {
    assert chunks == chunks[..k] + chunks[k..];
    FlattenConcat(chunks[..k], chunks[k..]);
  }

  lemma FlattenFirst(c: seq<byte>, chunks: seq<seq<byte>>)
    ensures Flatten([c] + chunks) == c + Flatten(chunks)
  {
    assert ([c] + chunks)[1..] == chunks;
  }

  lemma FlattenSnoc(chunks: seq<seq<byte>>, c: seq<byte>)
    ensures Flatten(chunks + [c]) == Flatten(chunks) + c
  {
    FlattenConcat(chunks, [c]);
    FlattenSingle(c);
  }

  /** s with p written over it from position at on */
  function Splice(s: seq<byte>, at: nat, p: seq<byte>): seq<byte>
    requires at + |p| <= |s|
  {
    s[..at] + p + s[at + |p|..]
  }

  lemma SplicePrefix(s: seq<byte>, at: nat, p: seq<byte>)
    requires at + |p| <= |s|
    ensures Splice(s, at, p)[..at + |p|] == s[..at] + p
  {
  }

  lemma SpliceSuffix(s: seq<byte>, at: nat, p: seq<byte>, k: nat)
    requires at + |p| <= k <= |s|
    ensures Splice(s, at, p)[k..] == s[k..]
  {
    var d := k - (at + |p|);
    assert s[at + |p|..][d..] == s[k..];
    assert Splice(s, at, p)[k..] == s[at + |p|..][d..];
  }

  lemma SpliceTwice(s: seq<byte>, at: nat, a: seq<byte>, b: seq<byte>)
    requires at + |a| + |b| <= |s|
    ensures Splice(Splice(s, at, a), at + |a|, b) == Splice(s, at, a + b)
  {
    SplicePrefix(s, at, a);
    SpliceSuffix(s, at, a, at + |a| + |b|);
  }

  /** A copy of all[..n], continued with the next m bytes of all. */
  lemma SpliceNext(s: seq<byte>, at: nat, all: seq<byte>, n: nat, m: nat)
    requires n + m <= |all| && at + n + m <= |s|
    ensures all[n..][..m] == all[n..n + m]
    ensures Splice(Splice(s, at, all[..n]), at + n, all[n..][..m]) == Splice(s, at, all[..n + m])
  {
    SpliceTwice(s, at, all[..n], all[n..][..m]);
    assert all[..n + m] == all[..n] + all[n..][..m];
  }

  /** A copy of all of fst, continued with the first m bytes of snd. */
  lemma SpliceBoth(s: seq<byte>, at: nat, fst: seq<byte>, snd: seq<byte>, m: nat)
    requires m <= |snd| && at + |fst| + m <= |s|
    ensures Splice(Splice(s, at, fst), at + |fst|, snd[..m]) == Splice(s, at, (fst + snd)[..|fst| + m])
  {
    SpliceTwice(s, at, fst, snd[..m]);
    assert (fst + snd)[..|fst| + m] == fst + snd[..m];
  }

  lemma Assoc(a: seq<byte>, b: seq<byte>, c: seq<byte>)
    ensures a + (b + c) == a + b + c
  {
  }

  lemma NoSecond(a: seq<byte>, b: seq<byte>)
    ensures a + b + [] == a + [] + b
  {
  }

  lemma CutAndJoin(base: seq<byte>, b: seq<byte>, k: nat)
    requires k <= |b|
    ensures base + b[..k] + b[k..] == base + b
  {
    assert b == b[..k] + b[k..];
  }

  /** Dropping n bytes from the first of two joined sequences. */
  lemma CutFirst(fst: seq<byte>, snd: seq<byte>, n: nat)
    requires n <= |fst|
    ensures (fst + snd)[..n] == fst[..n] && (fst + snd)[n..] == fst[n..] + snd
  {
  }

  /** Dropping all of the first and m bytes of the second. */
  lemma CutSecond(fst: seq<byte>, snd: seq<byte>, m: nat)
    requires m <= |snd|
    ensures (fst + snd)[|fst| + m..] == [] + snd[m..] == fst[|fst|..] + snd[m..]
    ensures (fst + snd)[..|fst| + m] == fst + snd[..m]
  {
  }

  /** copy(a[at:], p) */
  method CopyIn(a: array<byte>, at: nat, p: seq<byte>)
    requires at + |p| <= a.Length
    modifies a
    ensures a[..] == Splice(old(a[..]), at, p)
  {
    forall i | 0 <= i < |p| {
      a[at + i] := p[i];
    }
  }
}
