/**
  JavaScript's 32-bit operators on non-negative bit patterns, each determined by its bits.
 */
module Bits {
  const WORD := 0x1_0000_0000

  function Pow2(n: nat): (r: nat)
    ensures r > 0
  {
    if n == 0 then 1 else 2 * Pow2(n - 1)
  }

  predicate Bit(v: nat, k: nat)
    decreases k
  {
    if k == 0 then v % 2 == 1 else Bit(v / 2, k - 1)
  }

  function Or(a: nat, b: nat): nat
    decreases a + b
  {
    if a == 0 && b == 0 then 0
    else (if a % 2 == 1 || b % 2 == 1 then 1 else 0) + 2 * Or(a / 2, b / 2)
  }

  function And(a: nat, b: nat): nat
    decreases a + b
  {
    if a == 0 && b == 0 then 0
    else (if a % 2 == 1 && b % 2 == 1 then 1 else 0) + 2 * And(a / 2, b / 2)
  }

  /** `v << n`: bits that leave the word are lost. */
  function Shl(v: nat, n: nat): nat {
    v * Pow2(n) % WORD
  }

  /** `v >>> n` */
  function Shr(v: nat, n: nat): nat
    decreases n
  {
    if n == 0 then v else Shr(v / 2, n - 1)
  }

  lemma {:induction false} OrBit(a: nat, b: nat, k: nat)
    ensures Bit(Or(a, b), k) <==> Bit(a, k) || Bit(b, k)
    decreases k
  {
    if a == 0 && b == 0 {
      ZeroBit(k);
    } else if k > 0 {
      OrBit(a / 2, b / 2, k - 1);
    }
  }

  lemma {:induction false} AndBit(a: nat, b: nat, k: nat)
    ensures Bit(And(a, b), k) <==> Bit(a, k) && Bit(b, k)
    decreases k
  {
    if a == 0 && b == 0 {
      ZeroBit(k);
    } else if k > 0 {
      AndBit(a / 2, b / 2, k - 1);
    }
  }

  lemma {:induction false} ZeroBit(k: nat)
    ensures !Bit(0, k)
  {
    if k > 0 {
      ZeroBit(k - 1);
    }
  }

  lemma {:induction false} TimesBit(v: nat, n: nat, k: nat)
    ensures Bit(v * Pow2(n), k) <==> k >= n && Bit(v, k - n)
    decreases n
  {
    if n > 0 {
      assert v * Pow2(n) == 2 * (v * Pow2(n - 1));
      if k > 0 {
        TimesBit(v, n - 1, k - 1);
        assert v * Pow2(n) / 2 == v * Pow2(n - 1);
      }
    }
  }

  lemma {:induction false} LowBits(v: nat, n: nat, k: nat)
    ensures Bit(v % Pow2(n), k) <==> k < n && Bit(v, k)
    decreases n
  {
    if n == 0 {
      ZeroBit(k);
    } else {
      HalfOfRest(v, Pow2(n - 1));
      if k > 0 {
        LowBits(v / 2, n - 1, k - 1);
      }
    }
  }

  lemma HalfOfRest(v: nat, m: nat)
    requires m > 0
    ensures (v % (2 * m)) / 2 == (v / 2) % m && (v % (2 * m)) % 2 == v % 2
  {
    var h, r := v / 2, v % 2;
    assert h == m * (h / m) + h % m;
    assert v == (2 * m) * (h / m) + (2 * (h % m) + r);
    Remainder(v, 2 * m, h / m, 2 * (h % m) + r);
  }

  lemma Remainder(v: nat, m: nat, q: nat, r: nat)
    requires r < m && v == m * q + r
    ensures v % m == r && v / m == q
  {
    var d := v / m - q;
    assert v == m * (v / m) + v % m;
    assert m * d == r - v % m;
    MultipleOf(m, d);
  }

  lemma MultipleOf(m: nat, d: int)
    ensures d > 0 ==> m * d >= m
    ensures d < 0 ==> m * d <= -(m as int)
  {
  }

  lemma WordIsPow2()
    ensures WORD == Pow2(32)
  {
    assert Pow2(8) == 256;
    assert Pow2(16) == 65536;
    assert Pow2(24) == 16777216;
  }

  lemma ShlBit(v: nat, n: nat, k: nat)
    ensures Bit(Shl(v, n), k) <==> n <= k < 32 && Bit(v, k - n)
  {
    WordIsPow2();
    LowBits(v * Pow2(n), 32, k);
    TimesBit(v, n, k);
  }

  lemma {:induction false} ShrBit(v: nat, n: nat, k: nat)
    ensures Bit(Shr(v, n), k) <==> Bit(v, k + n)
    decreases n
  {
    if n > 0 {
      ShrBit(v / 2, n - 1, k);
    }
  }

  /** Numbers below a power of two are equal when their bits are. */
  lemma {:induction false} SameBits(a: nat, b: nat, n: nat)
    requires a < Pow2(n) && b < Pow2(n)
    requires forall k :: 0 <= k < n ==> (Bit(a, k) <==> Bit(b, k))
    ensures a == b
    decreases n
  {
    if n > 0 {
      assert Bit(a, 0) <==> Bit(b, 0);
      forall k | 0 <= k < n - 1 ensures Bit(a / 2, k) <==> Bit(b / 2, k) {
        assert Bit(a, k + 1) <==> Bit(b, k + 1);
      }
      SameBits(a / 2, b / 2, n - 1);
    }
  }

  lemma {:induction false} AndMask(v: nat, n: nat)
    ensures And(v, Pow2(n) - 1) == v % Pow2(n)
    decreases n
  {
    if n == 0 {
      AndZero(v);
    } else {
      HalfOfRest(v, Pow2(n - 1));
      AndMask(v / 2, n - 1);
      assert (Pow2(n) - 1) / 2 == Pow2(n - 1) - 1;
    }
  }

  lemma {:induction false} AndZero(v: nat)
    ensures And(v, 0) == 0
    decreases v
  {
    if v > 0 {
      AndZero(v / 2);
    }
  }

  /** Or of parts that do not overlap is their sum. */
  lemma {:induction false} OrOfParts(high: nat, low: nat, n: nat)
    requires low < Pow2(n)
    ensures Or(high * Pow2(n), low) == high * Pow2(n) + low
    decreases n
  {
    if n == 0 {
      OrZero(high);
    } else {
      var p := high * Pow2(n - 1);
      assert high * Pow2(n) == 2 * p;
      OrOfParts(high, low / 2, n - 1);
    }
  }

  lemma {:induction false} OrZero(v: nat)
    ensures Or(v, 0) == v
    decreases v
  {
    if v > 0 {
      OrZero(v / 2);
    }
  }
}
