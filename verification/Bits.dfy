/** Shifts, masks and exclusive or as arithmetic on natural numbers. */
module Bits {
  function Pow2(k: nat): (p: nat)
    ensures p > 0
  {
    if k == 0 then 1 else 2 * Pow2(k - 1)
  }

  lemma {:induction false} Pow2Add(a: nat, b: nat)
    ensures Pow2(a + b) == Pow2(a) * Pow2(b)
  {
    if a > 0 {
      Pow2Add(a - 1, b);
      assert Pow2(a + b) == 2 * Pow2(a - 1 + b);
      assert 2 * (Pow2(a - 1) * Pow2(b)) == (2 * Pow2(a - 1)) * Pow2(b);
    }
  }

  function Div(a: nat, d: nat): nat
    requires d > 0
  {
    a / d
  }

  /** The low `k` bits of `a ^ b`. */
  function Xor(a: nat, b: nat, k: nat): nat {
    if k == 0 then 0 else 2 * Xor(a / 2, b / 2, k - 1) + (a % 2 + b % 2) % 2
  }

  lemma {:induction false} XorBound(a: nat, b: nat, k: nat)
    ensures Xor(a, b, k) < Pow2(k)
  {
    if k > 0 { XorBound(a / 2, b / 2, k - 1); }
  }

  lemma Halves(half: nat, bit: nat)
    requires bit < 2
    ensures (2 * half + bit) / 2 == half && (2 * half + bit) % 2 == bit
  {
  }

  lemma {:induction false} XorUndo(a: nat, b: nat, k: nat)
    requires a < Pow2(k)
    ensures Xor(Xor(a, b, k), b, k) == a
  {
    if k > 0 {
      XorUndo(a / 2, b / 2, k - 1);
      var bit := (a % 2 + b % 2) % 2;
      Halves(Xor(a / 2, b / 2, k - 1), bit);
      assert Xor(a, b, k) / 2 == Xor(a / 2, b / 2, k - 1) && Xor(a, b, k) % 2 == bit;
      assert (bit + b % 2) % 2 == a % 2;
    }
  }

  // ---------- single bits ----------

  /** Bit `i` of `x`. */
  function Bit(x: nat, i: nat): nat {
    if i == 0 then x % 2 else Bit(x / 2, i - 1)
  }

  lemma {:induction false} XorBit(a: nat, b: nat, k: nat, i: nat)
    requires i < k
    ensures Bit(Xor(a, b, k), i) == (Bit(a, i) + Bit(b, i)) % 2
  {
    Halves(Xor(a / 2, b / 2, k - 1), (a % 2 + b % 2) % 2);
    if i > 0 { XorBit(a / 2, b / 2, k - 1, i - 1); }
  }

  lemma ModHalf(x: nat, p: nat)
    requires p > 0
    ensures x % (2 * p) % 2 == x % 2 && x % (2 * p) / 2 == (x / 2) % p
  {
    var h, r := x / 2 / p, (x / 2) % p;
    assert x / 2 == p * h + r;
    assert x == (2 * p) * h + (2 * r + x % 2);
    Unique(x, 2 * p, h, 2 * r + x % 2);
    Halves(r, x % 2);
  }

  lemma {:induction false} LowBits(x: nat, k: nat, i: nat)
    requires i < k
    ensures Bit(x % Pow2(k), i) == Bit(x, i)
  {
    ModHalf(x, Pow2(k - 1));
    if i > 0 { LowBits(x / 2, k - 1, i - 1); }
  }

  lemma {:induction false} HighBits(x: nat, s: nat, i: nat)
    ensures Bit(Div(x, Pow2(s)), i) == Bit(x, s + i)
  {
    if s > 0 {
      DivSplit(x, 2, Pow2(s - 1));
      HighBits(x / 2, s - 1, i);
    }
  }

  // ---------- division and remainder ----------

  lemma DivSplit(a: nat, b: nat, c: nat)
    requires b > 0 && c > 0
    ensures b * c > 0 && a / b / c == a / (b * c)
  {
    var q, r := a / b, a % b;
    var u, v := q / c, q % c;
    Rebuilt(a, b, c, q, r, u, v);
    Unique(a, b * c, u, b * v + r);
  }

  lemma Rebuilt(a: nat, b: nat, c: nat, q: nat, r: nat, u: nat, v: nat)
    requires r < b && v < c && q == c * u + v && a == b * q + r
    ensures b * c > 0 && a == (b * c) * u + (b * v + r) && b * v + r < b * c
  {
    Nest(b, c, u, v, r);
  }

  lemma Nest(b: nat, c: nat, u: nat, v: nat, r: nat)
    requires r < b && v < c
    ensures b * (c * u + v) + r == (b * c) * u + (b * v + r) && b * v + r < b * c
  {
    Mul(b, v, c - 1);
    assert b * (c - 1) == b * c - b;
    assert b * (c * u) == (b * c) * u;
  }

  lemma Mul(b: nat, x: int, y: int)
    requires x <= y
    ensures b * x <= b * y
  {
    assert b * (y - x) >= 0;
  }

  lemma Unique(a: nat, d: nat, q: nat, r: nat)
    requires d > 0 && a == d * q + r && r < d
    ensures a / d == q && a % d == r
  {
    var p, s := a / d, a % d;
    assert a == d * p + s;
    assert d * (q - p) == s - r;
    if q > p { Mul(d, 1, q - p); } else if q < p { Mul(d, 1, p - q); }
  }

  lemma Shift(a: nat, d: nat, k: nat)
    requires d > 0
    ensures (a + d * k) / d == a / d + k && (a + d * k) % d == a % d
  {
    assert a == d * (a / d) + a % d;
    assert a + d * k == d * (a / d + k) + a % d;
    Unique(a + d * k, d, a / d + k, a % d);
  }
}
