/**
 * Shifts and the bitwise `&` and `|` on natural numbers, as the sources apply
 * them to bytes and small words (`threshold >> 7`, `threshold & 0x7f`,
 * `(hi << 7) | lo`, `n & 0x7f0f7f`). Every operation peels off one binary
 * digit at a time, so the facts below are proved digit by digit.
 */
module Bits {

  function Pow2(n: nat): (p: nat)
    ensures p >= 1
  {
    if n == 0 then 1 else 2 * Pow2(n - 1)
  }

  lemma SmallPowers()
    ensures Pow2(1) == 2 && Pow2(4) == 16 && Pow2(7) == 128 && Pow2(8) == 256 && Pow2(14) == 0x4000
  {
  }

  /**
   * Doubling a factor doubles the product. Kept as a lemma so that the
   * nonlinear step is proved apart from the context of its callers.
   */
  lemma Twice(p: nat, a: nat)
    ensures (2 * p) * a == 2 * (p * a)
  {
  }

  /** `x << n`. */
  function Shl(x: nat, n: nat): nat
  {
    if n == 0 then x else 2 * Shl(x, n - 1)
  }

  /** `x >> n`. */
  function Shr(x: nat, n: nat): (r: nat)
    ensures r <= x
  {
    if n == 0 then x else Shr(x / 2, n - 1)
  }

  /** The low n binary digits of x. */
  function Low(x: nat, n: nat): (r: nat)
    ensures r < Pow2(n)
  {
    if n == 0 then 0 else 2 * Low(x / 2, n - 1) + x % 2
  }

  /** The number with n one-bits: 0x7f is Ones(7). */
  function Ones(n: nat): (r: nat)
    ensures r == Pow2(n) - 1
  {
    if n == 0 then 0 else 2 * Ones(n - 1) + 1
  }

  /** `a & b`: a bit is set exactly when it is set in both. */
  function BitAnd(a: nat, b: nat): nat
    decreases a
  {
    if a == 0 || b == 0 then 0
    else 2 * BitAnd(a / 2, b / 2) + (if a % 2 == 1 && b % 2 == 1 then 1 else 0)
  }

  /** `a | b`: a bit is set exactly when it is set in either. */
  function BitOr(a: nat, b: nat): (r: nat)
    ensures a <= r <= a + b && b <= r
    decreases a
  {
    if a == 0 then b
    else if b == 0 then a
    else 2 * BitOr(a / 2, b / 2) + (if a % 2 == 1 || b % 2 == 1 then 1 else 0)
  }

  /** `x << n` multiplies by 2^n. */
  lemma {:induction false} ShlIsProduct(x: nat, n: nat)
    ensures Shl(x, n) == Pow2(n) * x
  {
    if n > 0 {
      ShlIsProduct(x, n - 1);
      Twice(Pow2(n - 1), x);
    }
  }

  /** Every number is its high part shifted back up plus its low digits. */
  lemma {:induction false} ShrLow(x: nat, n: nat)
    ensures x == Shl(Shr(x, n), n) + Low(x, n)
  {
    if n > 0 {
      ShrLow(x / 2, n - 1);
    }
  }

  /** Shifting out n digits leaves nothing exactly when x is below 2^n. */
  lemma {:induction false} ShrZero(x: nat, n: nat)
    ensures Shr(x, n) == 0 <==> x < Pow2(n)
  {
    if n > 0 {
      ShrZero(x / 2, n - 1);
    }
  }

  /** Shifting out n digits of a number below 2^(n + j) leaves a number below 2^j. */
  lemma {:induction false} ShrBound(x: nat, n: nat, j: nat)
    requires x < Pow2(n + j)
    ensures Shr(x, n) < Pow2(j)
  {
    if n > 0 {
      ShrBound(x / 2, n - 1, j);
    }
  }

  /** A number below 2^n is its own low n digits. */
  lemma LowOfSmall(x: nat, n: nat)
    ensures Low(x, n) == x <==> x < Pow2(n)
  {
    ShrLow(x, n);
    ShrZero(x, n);
  }

  lemma {:induction false} LowOfZero(n: nat)
    ensures Low(0, n) == 0
  {
    if n > 0 {
      LowOfZero(n - 1);
    }
  }

  /** Masking with n one-bits keeps the low n digits. */
  lemma {:induction false} AndLowMask(y: nat, n: nat)
    ensures BitAnd(y, Ones(n)) == Low(y, n)
  {
    if y == 0 {
      LowOfZero(n);
    } else if n > 0 {
      AndLowMask(y / 2, n - 1);
    }
  }

  /** `&` of two numbers split at bit n is the `&` of their high parts and of their low parts. */
  lemma {:induction false} AndSplit(x: nat, y: nat, m: nat, k: nat, n: nat)
    requires y < Pow2(n) && k < Pow2(n)
    ensures BitAnd(Shl(x, n) + y, Shl(m, n) + k) == Shl(BitAnd(x, m), n) + BitAnd(y, k)
    decreases n, 1
  {
    if n == 0 {
      assert y == 0 && k == 0;
    } else {
      AndSplitUp(x, y, m, k, n);
    }
  }

  /** AndSplit at bit n > 0, from AndSplit at bit n - 1. */
  lemma {:induction false} AndSplitUp(x: nat, y: nat, m: nat, k: nat, n: nat)
    requires n > 0 && y < Pow2(n) && k < Pow2(n)
    ensures BitAnd(Shl(x, n) + y, Shl(m, n) + k) == Shl(BitAnd(x, m), n) + BitAnd(y, k)
    decreases n, 0
  {
    assert y / 2 < Pow2(n - 1) && k / 2 < Pow2(n - 1);
    AndSplit(x, y / 2, m, k / 2, n - 1);
    assert Shl(x, n) == 2 * Shl(x, n - 1) && Shl(m, n) == 2 * Shl(m, n - 1);
    assert Shl(BitAnd(x, m), n) == 2 * Shl(BitAnd(x, m), n - 1);
    var a, b, h2 := Shl(x, n) + y, Shl(m, n) + k, Shl(BitAnd(x, m), n);
    AndSplitStep(a, b, Shl(x, n - 1), y, Shl(m, n - 1), k, Shl(BitAnd(x, m), n - 1), h2);
    assert BitAnd(a, b) == h2 + BitAnd(y, k);
  }

  /**
   * The digit-by-digit step of AndSplit: a and b are the high parts hx and hm
   * with one more digit (y's and k's lowest) below them.
   */
  lemma AndSplitStep(a: nat, b: nat, hx: nat, y: nat, hm: nat, k: nat, h: nat, h2: nat)
    requires a == 2 * hx + y && b == 2 * hm + k && h2 == 2 * h
    requires BitAnd(hx + y / 2, hm + k / 2) == h + BitAnd(y / 2, k / 2)
    ensures BitAnd(a, b) == h2 + BitAnd(y, k)
  {
    assert a / 2 == hx + y / 2 && a % 2 == y % 2;
    assert b / 2 == hm + k / 2 && b % 2 == k % 2;
    assert BitAnd(a, b) == 2 * BitAnd(a / 2, b / 2) + (if a % 2 == 1 && b % 2 == 1 then 1 else 0);
    assert BitAnd(y, k) == 2 * BitAnd(y / 2, k / 2) + (if y % 2 == 1 && k % 2 == 1 then 1 else 0);
  }

  lemma {:induction false} ShlZero(x: nat, n: nat)
    ensures Shl(x, n) == 0 <==> x == 0
  {
    if n > 0 {
      ShlZero(x, n - 1);
    }
  }

  /** `(x << n) | y` is an addition when y fits below bit n. */
  lemma {:induction false} OrLowBits(x: nat, y: nat, n: nat)
    requires y < Pow2(n)
    ensures BitOr(Shl(x, n), y) == Shl(x, n) + y
  {
    ShlZero(x, n);
    if n > 0 && x != 0 && y != 0 {
      OrLowBits(x, y / 2, n - 1);
    }
  }

  /** Splitting at bit n is unique: high part and low digits determine each other. */
  lemma {:induction false} SplitUnique(x: nat, y: nat, a: nat, b: nat, n: nat)
    requires y < Pow2(n) && b < Pow2(n)
    ensures Shl(x, n) + y == Shl(a, n) + b <==> x == a && y == b
  {
    if n > 0 {
      SplitUnique(x, y / 2, a, b / 2, n - 1);
    }
  }

  /** A number built from a high part and n low digits gives them back under `>>` and the low mask. */
  lemma SplitParts(x: nat, n: nat, hi: nat, lo: nat)
    requires lo < Pow2(n) && x == Shl(hi, n) + lo
    ensures Shr(x, n) == hi && Low(x, n) == lo
  {
    ShrLow(x, n);
    SplitUnique(Shr(x, n), Low(x, n), hi, lo, n);
  }

  /** `(h << n) >> n` is h, and `(h << n) & Ones(m)` is 0 for m <= n. */
  lemma ShiftedUp(h: nat, n: nat, m: nat)
    requires m <= n
    ensures Shr(Shl(h, n), n) == h
    ensures BitAnd(Shl(h, n), Ones(m)) == 0
  {
    SplitParts(Shl(h, n), n, h, 0);
    ShlAdd(h, n - m, m);
    SplitParts(Shl(h, n), m, Shl(h, n - m), 0);
    AndLowMask(Shl(h, n), m);
  }

  /** Shifting by a then by b is shifting by a + b. */
  lemma {:induction false} ShlAdd(x: nat, a: nat, b: nat)
    ensures Shl(x, a + b) == Shl(Shl(x, a), b)
    decreases b
  {
    if b > 0 {
      ShlAdd(x, a, b - 1);
    }
  }

  lemma {:induction false} Pow2Mono(a: nat, b: nat)
    requires a <= b
    ensures Pow2(a) <= Pow2(b)
    decreases b
  {
    if a < b {
      Pow2Mono(a, b - 1);
    }
  }

  /**
   * A number below 2^(n + j) has no bit in common with the j one-bits above
   * bit n exactly when it is below 2^n: `b & 0x80` and `b & 0xf0` of a byte.
   */
  lemma HighBits(y: nat, n: nat, j: nat)
    requires y < Pow2(n + j)
    ensures BitAnd(y, Shl(Ones(j), n)) == 0 <==> y < Pow2(n)
  {
    var s := Shr(y, n);
    ShrLow(y, n);
    ShrBound(y, n, j);
    AndSplit(s, Low(y, n), Ones(j), 0, n);
    AndLowMask(s, j);
    LowOfSmall(s, j);
    ShrZero(y, n);
  }
}
