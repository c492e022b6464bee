/** Python's unbounded two's-complement integer operators, as the driver uses them on `int`s. */
module Bits {

  /** 2 to the power `n`; `x << n` on a Python int is `x * Pow2(n)`. */
  function Pow2(n: nat): (p: nat)
    ensures p >= 1
  {
    if n == 0 then 1 else 2 * Pow2(n - 1)
  }

  function Abs(x: int): nat
  {
    if x < 0 then -x else x
  }

  /**
   * Python's `a | b` on arbitrary ints: the lowest bit is the or of the lowest bits,
   * and the rest is the or of `a >> 1` and `b >> 1` (a floor division, which is
   * what Dafny's `/` by 2 computes). 0 and -1 are the fixed points of `>> 1`.
   */
  function BitOr(a: int, b: int): int
    decreases Abs(a) + Abs(b)
  {
    if a == 0 then b
    else if b == 0 then a
    else if a == -1 || b == -1 then -1
    else 2 * BitOr(a / 2, b / 2) + (if a % 2 == 1 || b % 2 == 1 then 1 else 0)
  }

  /**
   * Or-ing a value into bits that a shift left by `n` has cleared is an addition:
   * `(a << n) | b == (a << n) + b` whenever `0 <= b < 2^n`.
   */
  lemma {:induction false} OrIntoShifted(a: int, b: int, n: nat)
    requires 0 <= b < Pow2(n)
    ensures BitOr(a * Pow2(n), b) == a * Pow2(n) + b
  {
    if n > 0 {
      var p := Pow2(n - 1);
      var shifted := a * Pow2(n);
      assert shifted == 2 * (a * p);
      if shifted != 0 && b != 0 {
        assert shifted / 2 == a * p && shifted % 2 == 0;
        assert b / 2 < p;
        OrIntoShifted(a, b / 2, n - 1);
      }
    }
  }

  /** Python's `a & b` on arbitrary ints, bit by bit from the lowest. */
  function BitAnd(a: int, b: int): int
    decreases Abs(a) + Abs(b)
  {
    if a == 0 || b == 0 then 0
    else if a == -1 then b
    else if b == -1 then a
    else 2 * BitAnd(a / 2, b / 2) + (if a % 2 == 1 && b % 2 == 1 then 1 else 0)
  }

  /** Euclidean division has one remainder: `a == q * d + r` with `0 <= r < d` fixes `a % d`. */
  lemma ModUnique(a: int, d: int, q: int, r: int)
    requires d > 0 && a == q * d + r && 0 <= r < d
    ensures a % d == r
  {
    var e := q - a / d;
    assert e * d == a % d - r;
    if e != 0 {
      assert false;
    }
  }

  /** The quotient and remainder by a positive divisor put the dividend back together. */
  lemma DivMod(h: int, p: int)
    requires p >= 1
    ensures h == (h / p) * p + h % p && 0 <= h % p < p
    ensures 2 * h == (h / p) * (2 * p) + 2 * (h % p)
  {
  }

  /** One step of `AndLowMask`: the lowest bit, then the rest shifted right by one. */
  lemma AndLowStep(a: int, p: int)
    requires p >= 1 && a != 0 && a != -1
    requires BitAnd(a / 2, p - 1) == (a / 2) % p
    ensures BitAnd(a, 2 * p - 1) == a % (2 * p)
  {
    var h, low := a / 2, a % 2;
    var r := h % p;
    AndOddMask(a, p);
    DivMod(h, p);
    assert a == 2 * h + low;
    ModUnique(a, 2 * p, h / p, 2 * r + low);
  }

  /** `a & (2p - 1)` keeps the lowest bit of `a` and masks `a >> 1` with `p - 1`. */
  lemma AndOddMask(a: int, p: int)
    requires p >= 1 && a != 0 && a != -1
    ensures BitAnd(a, 2 * p - 1) == 2 * BitAnd(a / 2, p - 1) + a % 2
  {
    var m := 2 * p - 1;
    assert m / 2 == p - 1 && m % 2 == 1;
  }

  /**
   * Masking with `2^n - 1` keeps the low `n` bits: `a & (2^n - 1) == a % 2^n` for every
   * int, negative ones included (Python's ints are two's complement without bound).
   */
  lemma {:induction false} AndLowMask(a: int, n: nat)
    ensures BitAnd(a, Pow2(n) - 1) == a % Pow2(n)
    decreases n
  {
    var big := Pow2(n);
    if a == 0 {
      ModUnique(a, big, 0, 0);
    } else if a == -1 {
      ModUnique(a, big, -1, big - 1);
    } else if n > 0 {
      var p := Pow2(n - 1);
      assert big == 2 * p;
      AndLowMask(a / 2, n - 1);
      AndLowStep(a, p);
    } else {
      ModUnique(a, 1, a, 0);
    }
  }
}
