/**
 The growing ring buffer of pkg/buffer/ring/ring_buffer.go. Contents() is the byte sequence it
 stands for; every method is specified on Contents() alone.
 */
module Ring {
  import opened Bytes
  import opened Toolkit

  const DEFAULT_BUFFER_SIZE := 1024
  const BUFFER_GROW_THRESHOLD := 4 * 1024

  datatype Error = NoError | ErrIsEmpty

  /** n, then n + n / 4, ... until newCap is reached */
  function Stretch(n: nat, newCap: nat): (cap: nat)
    requires n >= 4
    ensures cap >= newCap && cap >= n
    ensures cap == n || 4 * cap < 5 * newCap
    decreases newCap - n
  {
    if n < newCap then Stretch(n + n / 4, newCap) else n
  }

  /** The capacity grow(newCap) chooses for a ring of the given size. */
  function GrownCap(size: nat, newCap: nat): (cap: nat)
    ensures cap >= newCap && cap >= size
    ensures newCap > size ==> cap <= Max(DEFAULT_BUFFER_SIZE, 2 * newCap)
    ensures size == 0 ==> cap > 0
  {
    if size == 0 then
      if newCap <= DEFAULT_BUFFER_SIZE then DEFAULT_BUFFER_SIZE else LeastPowerOfTwo(newCap)
    else if newCap <= 2 * size then
      if size < BUFFER_GROW_THRESHOLD then 2 * size else Stretch(size, newCap)
    else newCap
  }

  /** A ring that has storage grows by at least a quarter of it. */
  lemma GrowthIsGeometric(size: nat, newCap: nat)
    requires newCap > size > 0
    ensures GrownCap(size, newCap) >= size + size / 4 && GrownCap(size, newCap) > size
  {
    if newCap <= 2 * size && size >= BUFFER_GROW_THRESHOLD {
      assert Stretch(size, newCap) == Stretch(size + size / 4, newCap);
    }
  }

  /** The first storage of a ring: the least power of two that holds what is asked for, at least 1024. */
  lemma FirstCapacity(newCap: nat)
    ensures exists k: nat :: GrownCap(0, newCap) == Pow2(k)
    ensures GrownCap(0, newCap) >= Max(newCap, DEFAULT_BUFFER_SIZE)
    ensures forall k: nat :: Pow2(k) >= Max(newCap, DEFAULT_BUFFER_SIZE) ==> Pow2(k) >= GrownCap(0, newCap)
  {
    Pow2Of10();
    ClimbIsLeast(1, newCap);
    if newCap > DEFAULT_BUFFER_SIZE {
      assert Pow2(0) == 1;
    }
  }

  lemma Pow2Of10()
    ensures Pow2(10) == DEFAULT_BUFFER_SIZE
  {
    assert Pow2(2) == 4;
    Times16(2);
    Times16(6);
  }

  /** The bytes from position r to position w of a ring that is not empty. */
  function Window(buf: seq<byte>, r: nat, w: nat): (s: seq<byte>)
    requires r < |buf| && w < |buf|
    ensures |s| == if w > r then w - r else |buf| - r + w
  {
    if w > r then buf[r..w] else buf[r..] + buf[..w]
  }

  lemma Product(a: nat, b: nat)
    ensures b >= 2 ==> a * b >= 2 * a
  {
    if b >= 2 {
      assert a * b == 2 * a + a * (b - 2);
    }
  }

  lemma ModOnce(a: nat, m: nat)
    requires a < 2 * m
    ensures a % m == if a < m then a else a - m
  {
    var q := a / m;
    assert a == m * q + a % m;
    Product(m, q);
    if q == 0 {
      assert m * q == 0;
    } else {
      assert q == 1 && m * q == m;
    }
  }

  /** Moving the read position: it meets w exactly when everything has been read. */
  lemma WindowDrop(buf: seq<byte>, r: nat, w: nat, n: nat)
    requires r < |buf| && w < |buf| && 0 < n <= |Window(buf, r, w)|
    ensures var r' := (r + n) % |buf|;
      if n == |Window(buf, r, w)| then r' == w
      else r' != w && r' < |buf| && Window(buf, r', w) == Window(buf, r, w)[n..]
  {
    ModOnce(r + n, |buf|);
    if n < |Window(buf, r, w)| {
      if r + n < |buf| {
        WindowTail(buf, r, w, n);
      } else {
        assert buf[r + n - |buf|..w] == (buf[r..] + buf[..w])[n..];
      }
    }
  }

  /** The first n bytes of the window lie in one piece or in two. */
  lemma WindowPrefix(buf: seq<byte>, r: nat, w: nat, n: nat)
    requires r < |buf| && w < |buf| && n <= |Window(buf, r, w)|
    ensures w > r || r + n <= |buf| ==> r + n <= |buf| && Window(buf, r, w)[..n] == buf[r..r + n]
    ensures w <= r && r + n > |buf| ==> Window(buf, r, w)[..n] == buf[r..] + buf[..n - (|buf| - r)]
  {
  }

  lemma WindowTail(buf: seq<byte>, r: nat, w: nat, n: nat)
    requires r < |buf| && w < |buf| && 0 < n < |Window(buf, r, w)| && r + n < |buf|
    ensures Window(buf, r + n, w) == Window(buf, r, w)[n..]
  {
    if w > r {
      assert buf[r + n..w] == buf[r..w][n..];
    } else {
      assert buf[r + n..] == buf[r..][n..];
    }
  }

  lemma AppendStraight(was: seq<byte>, r: nat, w: nat, p: seq<byte>)
    requires r <= w < |was| && 0 < |p| <= |was| - w
    ensures var w' := if w + |p| == |was| then 0 else w + |p|;
      Window(Splice(was, w, p), r, w') == was[r..w] + p
  {
    assert Splice(was, w, p)[r..w + |p|] == was[r..w] + p;
  }

  lemma AppendWrapping(was: seq<byte>, r: nat, w: nat, p: seq<byte>, c1: nat)
    requires r <= w < |was| && c1 == |was| - w < |p| <= |was| - w + r
    ensures Window(Splice(Splice(was, w, p[..c1]), 0, p[c1..]), r, |p| - c1) == was[r..w] + p
  {
    var mid := Splice(was, w, p[..c1]);
    assert mid[r..] == was[r..w] + p[..c1];
    SpliceSuffix(mid, 0, p[c1..], r);
    SplicePrefix(mid, 0, p[c1..]);
    assert p == p[..c1] + p[c1..];
  }

  lemma AppendBelow(was: seq<byte>, r: nat, w: nat, p: seq<byte>)
    requires w < r < |was| && 0 < |p| <= r - w
    ensures Window(Splice(was, w, p), r, w + |p|) == Window(was, r, w) + p
  {
    SplicePrefix(was, w, p);
    SpliceSuffix(was, w, p, r);
    assert Window(was, r, w) + p == was[r..] + (was[..w] + p);
  }

  class Buffer {
    var buf: array<byte>
    var size: nat
    var r: nat        // next position to read
    var w: nat        // next position to write
    var isEmpty: bool

    ghost predicate Valid()
      reads this
    {
      && buf.Length == size
      && (if size == 0 then isEmpty else r < size && w < size)
      && (isEmpty ==> r == 0 && w == 0)
    }

    ghost function Contents(): (s: seq<byte>)
      requires Valid()
      reads this, buf
      ensures |s| <= size
    {
      if isEmpty then [] else Window(buf[..], r, w)
    }

    /** New(size); a ring taken from the pool is such a ring too, of whatever size it grew to. */
    constructor (n: int)
      ensures Valid() && fresh(buf) && Contents() == []
      ensures size == if n == 0 then 0 else LeastPowerOfTwo(n)
    {
      size := if n == 0 then 0 else LeastPowerOfTwo(n);
      buf := new byte[if n == 0 then 0 else LeastPowerOfTwo(n)];
      r, w := 0, 0;
      isEmpty := true;
    }

    /** An empty ring whose storage has exactly the given size. */
    constructor OfSize(n: nat)
      ensures Valid() && fresh(buf) && Contents() == [] && size == n
    {
      size := n;
      buf := new byte[n];
      r, w := 0, 0;
      isEmpty := true;
    }

    function Buffered(): (n: nat)
      requires Valid()
      reads this, buf
      ensures n == |Contents()|
    {
      if r == w then (if isEmpty then 0 else size)
      else if w > r then w - r
      else size - r + w
    }

    function Available(): (n: nat)
      requires Valid()
      reads this, buf
      ensures n == size - |Contents()|
    {
      if r == w then (if isEmpty then size else 0)
      else if w < r then r - w
      else size - w + r
    }

    predicate IsFull()
      requires Valid()
      reads this, buf
      ensures IsFull() <==> size > 0 && |Contents()| == size
    {
      r == w && !isEmpty
    }

    /** The next n bytes in at most two pieces, all of them for n <= 0. */
    function Peek(n: int): (pieces: (seq<byte>, seq<byte>))
      requires Valid()
      reads this, buf
      ensures pieces.0 + pieces.1 == if n <= 0 then Contents() else Contents()[..Min(n, |Contents()|)]
      ensures pieces.0 == [] ==> Contents() == []
    {
      if isEmpty then ([], [])
      else if n <= 0 then PeekAll()
      else if w > r then
        var m := Min(w - r, n);
        assert buf[r..r + m] == buf[r..w][..m];
        (buf[r..r + m], [])
      else
        var m := Min(size - r + w, n);
        if r + m <= size then
          assert buf[r..r + m] == (buf[r..] + buf[..w])[..m];
          (buf[r..r + m], [])
        else
          var c2 := m - (size - r);
          assert buf[r..] + buf[..c2] == (buf[r..] + buf[..w])[..m];
          (buf[r..], buf[..c2])
    }

    function PeekAll(): (pieces: (seq<byte>, seq<byte>))
      requires Valid()
      reads this, buf
      ensures pieces.0 + pieces.1 == Contents()
      ensures pieces.0 == [] ==> Contents() == []
    {
      if isEmpty then ([], [])
      else if w > r then (buf[r..w], [])
      else (buf[r..], if w != 0 then buf[..w] else [])
    }

    /** A copy of all buffered bytes. */
    function Bytes(): (s: seq<byte>)
      requires Valid()
      reads this, buf
      ensures s == Contents()
    {
      if isEmpty then []
      else if w == r then buf[r..] + buf[..w]
      else if w > r then buf[r..w]
      else if w != 0 then buf[r..] + buf[..w]
      else buf[r..]
    }

    method Reset()
      requires Valid()
      modifies this
      ensures Valid() && Contents() == [] && buf == old(buf) && size == old(size)
    {
      isEmpty := true;
      r, w := 0, 0;
    }

    method Discard(n: int) returns (discarded: nat)
      requires Valid()
      modifies this
      ensures Valid() && buf == old(buf) && size == old(size)
      ensures discarded == if n <= 0 then 0 else Min(n, |old(Contents())|)
      ensures Contents() == old(Contents())[discarded..]
    {
      if n <= 0 {
        return 0;
      }
      discarded := Buffered();
      if n < discarded {
        WindowDrop(buf[..], r, w, n);
        r := (r + n) % size;
        return n;
      }
      Reset();
    }

    /** copy of the first n buffered bytes into p[from..] */
    method CopyOut(p: array<byte>, from: nat, n: nat)
      requires Valid() && p != buf && from + n <= p.Length && n <= |Contents()| && !isEmpty
      modifies p
      ensures p[..] == Splice(old(p[..]), from, Contents()[..n])
    {
      WindowPrefix(buf[..], r, w, n);
      if w > r || r + n <= size {
        CopyIn(p, from, buf[r..r + n]);
      } else {
        var c1 := size - r;
        var c2 := n - c1;
        CopyIn(p, from, buf[r..]);
        CopyIn(p, from + c1, buf[..c2]);
        SpliceTwice(old(p[..]), from, buf[r..], buf[..c2]);
      }
    }

    /** Read(p[from:]) */
    method Read(p: array<byte>, from: nat) returns (n: nat, err: Error)
      requires Valid() && p != buf && from <= p.Length
      modifies this, p
      ensures Valid() && buf == old(buf) && size == old(size)
      ensures n == Min(p.Length - from, |old(Contents())|)
      ensures err == if p.Length > from && old(Contents()) == [] then ErrIsEmpty else NoError
      ensures Contents() == old(Contents())[n..]
      ensures p[..] == Splice(old(p[..]), from, old(Contents())[..n])
    {
      if p.Length == from {
        return 0, NoError;
      }
      if isEmpty {
        return 0, ErrIsEmpty;
      }
      err := NoError;
      if w > r {
        n := Min(w - r, p.Length - from);
        CopyOut(p, from, n);
        r := r + n;
        if r == w {
          Reset();
        }
        return;
      }
      n := Min(size - r + w, p.Length - from);
      CopyOut(p, from, n);
      WindowDrop(buf[..], r, w, n);
      r := (r + n) % size;
      if r == w {
        Reset();
      }
    }

    method ReadByte() returns (b: byte, err: Error)
      requires Valid()
      modifies this
      ensures Valid() && buf == old(buf) && size == old(size)
      ensures err == if old(Contents()) == [] then ErrIsEmpty else NoError
      ensures if old(Contents()) == [] then b == 0 && Contents() == []
              else [b] + Contents() == old(Contents())
    {
      if isEmpty {
        return 0, ErrIsEmpty;
      }
      WindowDrop(buf[..], r, w, 1);
      ModOnce(r + 1, size);
      b, err := buf[r], NoError;
      r := r + 1;
      if r == size {
        r := 0;
      }
      if r == w {
        Reset();
      }
    }

    /** grow(newCap). When the data fills the new storage exactly, w is left out of range. */
    method Grow(newCap: nat)
      requires Valid()
      modifies this
      ensures fresh(buf) && buf.Length == size == GrownCap(old(size), newCap)
      ensures |old(Contents())| < size ==> Valid() && Contents() == old(Contents())
      ensures |old(Contents())| >= size > 0 ==> w == size == |old(Contents())|
    {
      var cap := ChooseCap(size, newCap);
      var newBuf := new byte[cap];
      var oldLen := Buffered();
      ghost var before := Contents();
      var n, _ := Read(newBuf, 0);
      assert before[..oldLen] == before;
      buf := newBuf;
      r := 0;
      w := oldLen;
      size := cap;
      if w > 0 {
        isEmpty := false;
      }
    }

    /** Write(p): appends all of p, growing the storage if p does not fit. */
    method Write(p: seq<byte>) returns (n: nat)
      requires Valid()
      modifies this, buf
      ensures Valid() && (buf == old(buf) || fresh(buf))
      ensures n == |p| && Contents() == old(Contents()) + p
      ensures size == var needed := |old(Contents())| + |p|; if needed <= old(size) then old(size) else GrownCap(old(size), needed)
      ensures size == old(size) || size <= Max(DEFAULT_BUFFER_SIZE, 2 * |Contents()|)
      ensures size >= old(size)
    {
      n := |p|;
      if n == 0 {
        return;
      }
      MakeRoom(n);
      Append(p);
    }

    /** The growing part of Write. */
    method MakeRoom(n: nat)
      requires Valid() && n > 0
      modifies this
      ensures Valid() && (buf == old(buf) || fresh(buf)) && Contents() == old(Contents()) && n <= size - |Contents()|
      ensures size == var needed := |old(Contents())| + n; if needed <= old(size) then old(size) else GrownCap(old(size), needed)
    {
      var free := Available();
      if n > free {
        Grow(size + n - free);
      }
    }

    /** The copying part of Write, once there is room. */
    method Append(p: seq<byte>)
      requires Valid() && 0 < |p| <= size - |Contents()|
      modifies this, buf
      ensures Valid() && buf == old(buf) && size == old(size)
      ensures Contents() == old(Contents()) + p
    {
      ghost var was := buf[..];
      var n := |p|;
      if w >= r {
        var c1 := size - w;
        if c1 >= n {
          CopyIn(buf, w, p);
          AppendStraight(was, r, w, p);
          w := w + n;
        } else {
          CopyIn(buf, w, p[..c1]);
          var c2 := n - c1;
          CopyIn(buf, 0, p[c1..]);
          AppendWrapping(was, r, w, p, c1);
          w := c2;
        }
      } else {
        CopyIn(buf, w, p);
        AppendBelow(was, r, w, p);
        w := w + n;
      }
      if w == size {
        w := 0;
      }
      isEmpty := false;
    }

    /**
     WriteByte(c); ok is false where the source panics with an index out of range. It does so
     exactly on a full ring of at least 4096 bytes, because grow(1) then keeps the old size.
     */
    method WriteByte(c: byte) returns (ok: bool)
      requires Valid()
      modifies this, buf
      ensures ok ==> Valid() && Contents() == old(Contents()) + [c]
      ensures ok <==> !(old(size) >= BUFFER_GROW_THRESHOLD && old(IsFull()))
    {
      if Available() < 1 {
        Grow(1);
      }
      if w >= buf.Length {
        return false;
      }
      Append([c]);
      ok := true;
    }
  }

  /** The capacity computation inside grow. */
  method ChooseCap(size: nat, newCap: nat) returns (cap: nat)
    ensures cap == GrownCap(size, newCap)
  {
    cap := newCap;
    var n := size;
    if n == 0 {
      if newCap <= DEFAULT_BUFFER_SIZE {
        cap := DEFAULT_BUFFER_SIZE;
      } else {
        cap := LeastPowerOfTwo(newCap);
      }
    } else {
      var doubleCap := n + n;
      if newCap <= doubleCap {
        if n < BUFFER_GROW_THRESHOLD {
          cap := doubleCap;
        } else {
          while 0 < n && n < newCap
            invariant n >= 4 && Stretch(n, newCap) == Stretch(size, newCap)
            decreases newCap - n
          {
            n := n + n / 4;
          }
          if n > 0 {
            cap := n;
          }
        }
      }
    }
  }
}
