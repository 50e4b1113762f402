/**
 Power-of-two rounding of internal/toolkit/math.go. The code fills every bit below the highest
 one by shifting and or-ing; here that is proved to give the least power of two.
 */
module Toolkit {

  const MAXINT_HEAD_BIT := 0x4000_0000_0000_0000

  function Pow2(k: nat): (p: nat)
    ensures p > 0
  {
    if k == 0 then 1 else 2 * Pow2(k - 1)
  }

  /** n >> k on a non-negative int: k halvings */
  function Shr(n: nat, k: nat): nat {
    if k == 0 then n else Shr(n / 2, k - 1)
  }

  /** a | b on non-negative ints, bit by bit */
  function Or(a: nat, b: nat): nat {
    if a == 0 then b else if b == 0 then a
    else 2 * Or(a / 2, b / 2) + if a % 2 == 1 || b % 2 == 1 then 1 else 0
  }

  function FillBits(n: nat): nat {
    var n := Or(n, Shr(n, 1));
    var n := Or(n, Shr(n, 2));
    var n := Or(n, Shr(n, 4));
    var n := Or(n, Shr(n, 8));
    var n := Or(n, Shr(n, 16));
    Or(n, Shr(n, 32))
  }

  datatype Rounded = Panic | Value(n: nat)

  /** A 64-bit int above 2^62 has the head bit set, so the guard amounts to one comparison. */
  function CeilToPowerOfTwo(n: int): Rounded {
    if n > MAXINT_HEAD_BIT then Panic
    else if n <= 2 then Value(2)
    else Value(FillBits(n - 1) + 1)
  }

  function FloorToPowerOfTwo(n: int): nat {
    if n <= 2 then 2 else Shr(FillBits(n), 1) + 1
  }

  /** The least power of two at or above n, at least 2: what CeilToPowerOfTwo is for. */
  function LeastPowerOfTwo(n: int): (p: nat)
    ensures p >= n && p >= 2
    ensures n > 2 ==> p < 2 * n
  {
    Climb(1, n)
  }

  function Climb(k: nat, n: int): (p: nat)
    requires k == 1 || (k > 1 && Pow2(k - 1) < n)
    ensures p >= n && p >= 2
    ensures n > 2 ==> p < 2 * n
    decreases n - Pow2(k)
  {
    if n <= Pow2(k) then Pow2(k) else Climb(k + 1, n)
  }

  // ---------------------------------------------------------------------------------------
  // Bits
  // ---------------------------------------------------------------------------------------

  /** The number whose k low bits are ones. */
  function Ones(k: nat): nat {
    if k == 0 then 0 else 2 * Ones(k - 1) + 1
  }

  lemma {:induction false} OnesBelowPow2(k: nat)
    ensures Ones(k) + 1 == Pow2(k)
  {
    if k > 0 {
      OnesBelowPow2(k - 1);
    }
  }

  lemma {:induction false} ShrShr(n: nat, j: nat, k: nat)
    ensures Shr(Shr(n, j), k) == Shr(n, j + k)
  {
    if j > 0 {
      ShrShr(n / 2, j - 1, k);
    }
  }

  lemma {:induction false} ShrOr(a: nat, b: nat, k: nat)
    ensures Shr(Or(a, b), k) == Or(Shr(a, k), Shr(b, k))
  {
    if k > 0 {
      assert Or(a, b) / 2 == Or(a / 2, b / 2);
      ShrOr(a / 2, b / 2, k - 1);
    }
  }

  /** Or-ing e ones below a run of j ones joins the two runs. */
  lemma {:induction false} OrOnes(n: nat, j: nat, e: nat)
    requires Shr(n, e) == Ones(j)
    ensures Or(n, Ones(e)) == Ones(j + e)
  {
    if e > 0 {
      OrOnes(n / 2, j, e - 1);
      assert Ones(e) / 2 == Ones(e - 1);
    }
  }

  lemma {:induction false} ShrOnes(j: nat, d: nat)
    requires d <= j
    ensures Shr(Ones(j), d) == Ones(j - d)
  {
    if d > 0 {
      assert Ones(j) / 2 == Ones(j - 1);
      ShrOnes(j - 1, d - 1);
    }
  }

  /** n has at most k bits and the top j of them are ones. */
  predicate TopOnes(n: nat, k: nat, j: nat) {
    j <= k && Shr(n, k - j) == Ones(j)
  }

  /** One line of fillBits doubles the run of ones at the top. */
  lemma FillStep(n: nat, k: nat, j: nat)
    requires TopOnes(n, k, j) && j > 0
    ensures TopOnes(Or(n, Shr(n, j)), k, if 2 * j <= k then 2 * j else k)
  {
    var m := if 2 * j <= k then k - 2 * j else 0;
    var e := k - m - j;
    ShrOr(n, Shr(n, j), m);
    ShrShr(n, j, m);
    ShrShr(n, m, e);
    // the shifted operand is e ones
    ShrShr(n, k - j, j - e);
    ShrOnes(j, j - e);
    OrOnes(Shr(n, m), j, e);
  }

  lemma {:induction false} TopBit(n: nat, k: nat)
    requires Pow2(k) <= n < Pow2(k + 1)
    ensures Shr(n, k) == 1
  {
    if k > 0 {
      TopBit(n / 2, k - 1);
    }
  }

  /** fillBits turns a number of k bits into k ones, for every width a 64-bit int can have. */
  lemma FillBitsFills(n: nat, k: nat)
    requires Pow2(k) <= n < Pow2(k + 1) && k < 64
    ensures FillBits(n) + 1 == Pow2(k + 1)
  {
    OnesBelowPow2(k + 1);
    var b := k + 1;
    TopBit(n, k);
    var n1 := Or(n, Shr(n, 1));
    var j1 := if 2 <= b then 2 else b;
    FillStep(n, b, 1);
    var n2 := Or(n1, Shr(n1, 2));
    var j2 := if 4 <= b then 4 else b;
    FillMore(n1, b, j1, 2);
    var n3 := Or(n2, Shr(n2, 4));
    var j3 := if 8 <= b then 8 else b;
    FillMore(n2, b, j2, 4);
    var n4 := Or(n3, Shr(n3, 8));
    var j4 := if 16 <= b then 16 else b;
    FillMore(n3, b, j3, 8);
    var n5 := Or(n4, Shr(n4, 16));
    var j5 := if 32 <= b then 32 else b;
    FillMore(n4, b, j4, 16);
    FillMore(n5, b, j5, 32);
  }

  /** A further line: the run doubles, and a full run stays full. */
  lemma FillMore(n: nat, k: nat, j: nat, shift: nat)
    requires TopOnes(n, k, j) && shift > 0 && j == if shift <= k then shift else k
    ensures TopOnes(Or(n, Shr(n, shift)), k, if 2 * shift <= k then 2 * shift else k)
  {
    if shift <= k {
      FillStep(n, k, shift);
    } else {
      ShrOnes(k, k);
      ShrShr(n, k, shift - k);
      ShrZero(shift - k);
      assert Shr(n, shift) == 0;
      assert Or(n, 0) == n;
    }
  }

  lemma {:induction false} ShrZero(k: nat)
    ensures Shr(0, k) == 0
  {
    if k > 0 {
      ShrZero(k - 1);
    }
  }

  /** Every positive number lies between two consecutive powers of two. */
  lemma {:induction false} Width(n: nat) returns (k: nat)
    requires n > 0
    ensures Pow2(k) <= n < Pow2(k + 1)
  {
    if n == 1 {
      k := 0;
      assert Pow2(1) == 2;
    } else {
      var h := Width(n / 2);
      k := h + 1;
    }
  }

  lemma {:induction false} Pow2Grows(j: nat, k: nat)
    requires j <= k
    ensures Pow2(j) <= Pow2(k)
  {
    if j < k {
      Pow2Grows(j, k - 1);
    }
  }

  lemma Times16(k: nat)
    ensures Pow2(k + 4) == 16 * Pow2(k)
  {
    assert Pow2(k + 4) == 2 * Pow2(k + 3) && Pow2(k + 2) == 2 * Pow2(k + 1);
  }

  lemma Pow2Of64()
    ensures Pow2(62) == MAXINT_HEAD_BIT && Pow2(64) == 4 * MAXINT_HEAD_BIT
  {
    assert Pow2(2) == 4;
    Times16(2); Times16(6); Times16(10); Times16(14); Times16(18);
    Times16(22); Times16(26); Times16(30); Times16(34); Times16(38);
    Times16(42); Times16(46); Times16(50); Times16(54); Times16(58);
    assert Pow2(64) == 2 * Pow2(63) && Pow2(63) == 2 * Pow2(62);
  }

  lemma {:induction false} ClimbStops(j: nat, n: int, k: nat)
    requires 1 <= j <= k + 1 && Pow2(k) < n <= Pow2(k + 1) && (j > 1 ==> Pow2(j - 1) < n)
    ensures Climb(j, n) == Pow2(k + 1)
    decreases k + 1 - j
  {
    if j <= k {
      Pow2Grows(j, k);
      ClimbStops(j + 1, n, k);
    }
  }

  /** LeastPowerOfTwo is what its name says, from 2 on, for every n. */
  lemma {:induction false} ClimbIsLeast(k: nat, n: int)
    requires k == 1 || (k > 1 && Pow2(k - 1) < n)
    ensures exists j: nat :: Climb(k, n) == Pow2(j)
    ensures forall m: nat :: 1 <= m && n <= Pow2(m) ==> Climb(k, n) <= Pow2(m)
    decreases n - Pow2(k)
  {
    if n <= Pow2(k) {
      forall m: nat | 1 <= m && n <= Pow2(m) ensures Pow2(k) <= Pow2(m) {
        if m >= k {
          Pow2Grows(k, m);
        } else {
          Pow2Grows(m, k - 1);
        }
      }
    } else {
      ClimbIsLeast(k + 1, n);
    }
  }

  /** No power of two at or above n is smaller than p. */
  ghost predicate LeastFrom(n: int, p: int) {
    forall k: nat :: n <= Pow2(k) ==> p <= Pow2(k)
  }

  /**
   For every argument that does not panic: the least power of two from 2 on that is at or above n.
   The documented promise, the least power of two of all, is met if and only if n is at least 2.
   */
  lemma CeilIsLeastPowerOfTwo(n: int)
    requires n <= MAXINT_HEAD_BIT
    ensures CeilToPowerOfTwo(n) == Value(LeastPowerOfTwo(n))
    ensures exists k: nat :: 1 <= k && CeilToPowerOfTwo(n).n == Pow2(k)
    ensures n <= CeilToPowerOfTwo(n).n
    ensures forall k: nat :: 1 <= k && n <= Pow2(k) ==> CeilToPowerOfTwo(n).n <= Pow2(k)
    ensures LeastFrom(n, CeilToPowerOfTwo(n).n) <==> n >= 2
  {
    assert Pow2(0) == 1;
    if n <= 2 {
      assert Pow2(1) == 2;
      forall k: nat | 1 <= k ensures 2 <= Pow2(k) {
        Pow2Grows(1, k);
      }
    } else {
      var k := Width(n - 1);
      Pow2Of64();
      if k >= 64 {
        Pow2Grows(64, k);
        assert false;
      }
      FillBitsFills(n - 1, k);
      ClimbStops(1, n, k);
      forall j: nat | 1 <= j && n <= Pow2(j) ensures Pow2(k + 1) <= Pow2(j) {
        if j <= k {
          Pow2Grows(j, k);
        } else {
          Pow2Grows(k + 1, j);
        }
      }
    }
  }

  /**
   FloorToPowerOfTwo is a power of two, not below any power of two at or below its argument. It is
   itself at or below the argument, and so what the documentation says, if and only if n is at least 2.
   */
  lemma FloorIsGreatestPowerOfTwo(n: int)
    requires n < 2 * MAXINT_HEAD_BIT   // the 64-bit ints
    ensures exists k: nat :: FloorToPowerOfTwo(n) == Pow2(k)
    ensures forall k: nat :: Pow2(k) <= n ==> Pow2(k) <= FloorToPowerOfTwo(n)
    ensures FloorToPowerOfTwo(n) <= n <==> n >= 2
  {
    if n < 2 {
      assert FloorToPowerOfTwo(n) == 2 == Pow2(1);
    } else {
      FloorFromTwo(n);
    }
  }

  lemma FloorFromTwo(n: int)
    requires 2 <= n < 2 * MAXINT_HEAD_BIT
    ensures exists k: nat :: FloorToPowerOfTwo(n) == Pow2(k)
    ensures FloorToPowerOfTwo(n) <= n
    ensures forall k: nat :: Pow2(k) <= n ==> Pow2(k) <= FloorToPowerOfTwo(n)
  {
    var k := Width(n);
    if n == 2 {
      assert Pow2(1) == 2 && Pow2(2) == 4;
    } else {
      Pow2Of64();
      if k >= 64 {
        Pow2Grows(64, k);
        assert false;
      }
      FillBitsFills(n, k);
      assert Shr(FillBits(n), 1) == FillBits(n) / 2;
    }
    assert FloorToPowerOfTwo(n) == Pow2(k);
    forall j: nat | Pow2(j) <= n ensures Pow2(j) <= Pow2(k) {
      if j > k {
        Pow2Grows(k + 1, j);
      } else {
        Pow2Grows(j, k);
      }
    }
  }
}
