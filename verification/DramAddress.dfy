/**
 Address decoding for row-buffer-granularity interleaving: `l2_decoupled_network_c::set_cache_id`
 picks the memory controller and `dram_controller_c::insert_new_req` the row, bank and column.
 Shifts and masks are written as division and remainder by powers of two; the row is an `int`.
 */
module DramAddress {
  import opened DramModel
  import opened Options
  import opened Bits
  import opened DramRuns
  import opened DramOutput

  // ---------- decoding ----------

  /** log2 of the row-buffer size, log2 of the number of banks, the number of controllers, and
      the position of the bits mixed into the bank index, if any. */
  datatype Layout = Layout(rowBits: nat, bankBits: nat, numMc: nat, xorShift: Option<nat>) {
    predicate Valid() { numMc >= 1 }

    /** Addresses that share a row index. */
    function RowSpan(): nat { Pow2(rowBits) * numMc * Pow2(bankBits) }
  }

  datatype Location = Location(mc: nat, row: int, bank: nat, column: nat)

  /** The line number shifted out of the address, and the part of it that is left for the bank and
      the row once the controller number is divided out. */
  function Line(l: Layout, addr: nat): nat {
    Div(addr, Pow2(l.rowBits))
  }

  function Quotient(l: Layout, addr: nat): nat
    requires l.Valid()
  {
    Div(Line(l, addr), l.numMc)
  }

  function PlainBank(l: Layout, addr: nat): nat
    requires l.Valid()
  {
    Quotient(l, addr) % Pow2(l.bankBits)
  }

  /** The row before it is stored in an `int`. */
  function WideRow(l: Layout, addr: nat): nat
    requires l.Valid()
  {
    Div(Quotient(l, addr), Pow2(l.bankBits))
  }

  function XorBits(l: Layout, addr: nat): nat {
    match l.xorShift
    case None => 0
    case Some(s) => Div(addr, Pow2(s)) % Pow2(l.bankBits)
  }

  function Decode(l: Layout, addr: nat): Location
    requires l.Valid()
  {
    Location(Line(l, addr) % l.numMc,
             ToInt32(WideRow(l, addr)),
             if l.xorShift.Some? then Xor(PlainBank(l, addr), XorBits(l, addr), l.bankBits)
             else PlainBank(l, addr),
             addr % Pow2(l.rowBits))
  }

  /** The arrival `insert_new_req` works on. */
  function Decoded(l: Layout, r: Req): Arrival
    requires l.Valid()
  {
    var d := Decode(l, r.addr);
    Arrival(r, d.bank, d.row, d.column)
  }

  /** Decoding always names one of the controller's banks, the same one for the same address. */
  lemma DecodedBank(l: Layout, r: Req)
    requires l.Valid()
    ensures Decoded(l, r).bid < Pow2(l.bankBits)
    ensures Homed(Arrive(Decoded(l, r)), a => Decode(l, a).bank)
  {
    XorBound(PlainBank(l, r.addr), XorBits(l, r.addr), l.bankBits);
  }

  /** Bank mixing flips a bit of the plain bank number exactly when the bit as far above the shift is set. */
  lemma MixedBank(l: Layout, addr: nat, s: nat, i: nat)
    requires l.Valid() && l.xorShift == Some(s) && i < l.bankBits
    ensures Bit(Decode(l, addr).bank, i) == (Bit(Div(Div(addr, Pow2(l.rowBits)), l.numMc), i) + Bit(addr, s + i)) % 2
  {
    var plain, bits := PlainBank(l, addr), XorBits(l, addr);
    XorBit(plain, bits, l.bankBits, i);
    LowBits(Quotient(l, addr), l.bankBits, i);
    LowBits(Div(addr, Pow2(s)), l.bankBits, i);
    HighBits(addr, s, i);
    hide Bit;
    hide Xor;
    hide Pow2;
  }

  // ---------- the row assertion ----------

  lemma WideRowIs(l: Layout, addr: nat)
    requires l.Valid()
    ensures l.RowSpan() > 0 && WideRow(l, addr) == addr / l.RowSpan()
  {
    DivSplit(addr, Pow2(l.rowBits), l.numMc);
    DivSplit(addr, Pow2(l.rowBits) * l.numMc, Pow2(l.bankBits));
  }

  lemma DivLess(a: nat, d: nat, n: nat)
    requires d > 0
    ensures a < n * d <==> a / d < n
  {
    assert a == d * (a / d) + a % d;
    if a / d < n { Mul(d, a / d + 1, n); } else { Mul(d, n, a / d); }
  }

  /** The assertion `rid >= 0` holds of every address below `limit` exactly when the rows below
      `limit` fit in 31 bits. */
  lemma RowAssertion(l: Layout, limit: nat)
    requires l.Valid()
    ensures (forall addr: nat :: addr < limit ==> Decode(l, addr).row >= 0)
            <==> limit <= 0x8000_0000 * l.RowSpan()
  {
    var n, span := 0x8000_0000, l.RowSpan();
    WideRowIs(l, 0);
    if limit <= n * span {
      forall addr: nat | addr < limit
        ensures Decode(l, addr).row >= 0
      {
        WideRowIs(l, addr);
        DivLess(addr, span, n);
      }
    } else {
      var addr := n * span;
      WideRowIs(l, addr);
      Unique(addr, span, n, 0);
      assert WideRow(l, addr) == n && Decode(l, addr).row < 0;
    }
  }

  /** Past 32-bit rows, different addresses decode to the same place. */
  lemma WideRowsAlias(l: Layout, addr: nat)
    requires l.Valid() && l.xorShift.None?
    ensures Decode(l, addr + 0x1_0000_0000 * l.RowSpan()) == Decode(l, addr)
  {
    var n, m, b := 0x1_0000_0000, l.numMc, Pow2(l.bankBits);
    var far := addr + n * l.RowSpan();
    Regroup(n, Pow2(l.rowBits), m, b);
    Shift(addr, Pow2(l.rowBits), m * (b * n));
    FarDecode(l, addr, far);
  }

  lemma Regroup(n: nat, p: nat, m: nat, b: nat)
    ensures n * (p * m * b) == p * (m * (b * n))
  {
    assert p * m * b * n == p * (m * b * n);
    assert m * b * n == m * (b * n);
  }

  lemma Wraps(x: nat)
    ensures ToInt32(x + 0x1_0000_0000) == ToInt32(x)
  {
  }

  lemma FarDecode(l: Layout, addr: nat, far: nat)
    requires l.Valid() && l.xorShift.None?
    requires Line(l, far) == Line(l, addr) + l.numMc * (Pow2(l.bankBits) * 0x1_0000_0000)
    requires far % Pow2(l.rowBits) == addr % Pow2(l.rowBits)
    ensures Decode(l, far) == Decode(l, addr)
  {
    var m, b, n := l.numMc, Pow2(l.bankBits), 0x1_0000_0000;
    Shift(Line(l, addr), m, b * n);
    Shift(Quotient(l, addr), b, n);
    assert Quotient(l, far) == Quotient(l, addr) + b * n;
    assert WideRow(l, far) == WideRow(l, addr) + n;
    Wraps(WideRow(l, addr));
  }

  // ---------- lossless decoding ----------

  /** The address with the given controller, wide row, plain bank and column. */
  function Compose(l: Layout, mc: nat, row: nat, bank: nat, column: nat): nat {
    ((row * Pow2(l.bankBits) + bank) * l.numMc + mc) * Pow2(l.rowBits) + column
  }

  lemma ComposeDecode(l: Layout, addr: nat)
    requires l.Valid()
    ensures Compose(l, Line(l, addr) % l.numMc, WideRow(l, addr), PlainBank(l, addr),
                    addr % Pow2(l.rowBits)) == addr
  {
    var p, m, b := Pow2(l.rowBits), l.numMc, Pow2(l.bankBits);
    var x := addr / p;
    var q := x / m;
    assert q == (q / b) * b + q % b;
    assert x == q * m + x % m;
    assert addr == x * p + addr % p;
  }

  /** Lines go to the controllers in turn, then to the banks in turn, then to the next row: without bank
      mixing the composed address decodes to what it was composed of. */
  lemma DecodeCompose(l: Layout, mc: nat, row: nat, bank: nat, column: nat)
    requires l.Valid() && l.xorShift.None? && mc < l.numMc && bank < Pow2(l.bankBits) && column < Pow2(l.rowBits)
    requires row < 0x8000_0000
    ensures Decode(l, Compose(l, mc, row, bank, column)) == Location(mc, row, bank, column)
  {
    var p, m, b := Pow2(l.rowBits), l.numMc, Pow2(l.bankBits);
    var q := row * b + bank;
    var x := q * m + mc;
    var addr := Compose(l, mc, row, bank, column);
    assert addr == x * p + column;
    hide Compose;
    hide Decode;
    Parts(addr, p, x, column);
    Parts(x, m, q, mc);
    Parts(q, b, row, bank);
    DecodeParts(l, addr, x, q, Location(mc, row, bank, column));
  }

  lemma Parts(a: nat, d: nat, q: nat, r: nat)
    requires r < d && a == q * d + r
    ensures a / d == q && a % d == r
  {
    Unique(a, d, q, r);
  }

  lemma DecodeParts(l: Layout, addr: nat, x: nat, q: nat, d: Location)
    requires l.Valid() && l.xorShift.None? && 0 <= d.row < 0x8000_0000
    requires addr / Pow2(l.rowBits) == x && addr % Pow2(l.rowBits) == d.column
    requires x / l.numMc == q && x % l.numMc == d.mc && q / Pow2(l.bankBits) == d.row && q % Pow2(l.bankBits) == d.bank
    ensures Decode(l, addr) == d
  {
    hide Pow2;
    hide XorBits;
    hide Xor;
  }

  predicate RowFits(l: Layout, addr: nat)
    requires l.Valid()
  {
    WideRow(l, addr) < 0x8000_0000
  }

  /** Without bank mixing, decoding is lossless for any number of controllers. */
  lemma DecodeLossless(l: Layout, a: nat, b: nat)
    requires l.Valid() && l.xorShift.None? && RowFits(l, a) && RowFits(l, b)
    ensures Decode(l, a) == Decode(l, b) <==> a == b
  {
    if Decode(l, a) == Decode(l, b) {
      ComposeDecode(l, a);
      ComposeDecode(l, b);
      assert WideRow(l, a) == WideRow(l, b);
    }
  }

  /** When the number of controllers is a power of two and the mixed bits lie above the bank
      bits, they are bits of the row. */
  lemma XorBitsFromRow(l: Layout, m: nat, s: nat, addr: nat)
    requires l.Valid() && l.numMc == Pow2(m) && l.xorShift == Some(s)
    requires s >= l.rowBits + m + l.bankBits
    ensures XorBits(l, addr) == (WideRow(l, addr) / Pow2(s - (l.rowBits + m + l.bankBits))) % Pow2(l.bankBits)
  {
    var low := l.rowBits + m + l.bankBits;
    Pow2Add(l.rowBits, m);
    Pow2Add(l.rowBits + m, l.bankBits);
    assert Pow2(low) == l.RowSpan();
    WideRowIs(l, addr);
    Pow2Add(low, s - low);
    DivSplit(addr, Pow2(low), Pow2(s - low));
    assert low + (s - low) == s;
  }

  /** With bank mixing, decoding stays lossless under that condition. */
  lemma XorDecodeLossless(l: Layout, m: nat, s: nat, a: nat, b: nat)
    requires l.Valid() && l.numMc == Pow2(m) && l.xorShift == Some(s)
    requires s >= l.rowBits + m + l.bankBits && RowFits(l, a) && RowFits(l, b)
    ensures Decode(l, a) == Decode(l, b) <==> a == b
  {
    if Decode(l, a) == Decode(l, b) {
      assert WideRow(l, a) == WideRow(l, b);
      XorBitsFromRow(l, m, s, a);
      XorBitsFromRow(l, m, s, b);
      XorUndo(PlainBank(l, a), XorBits(l, a), l.bankBits);
      XorUndo(PlainBank(l, b), XorBits(l, b), l.bankBits);
      ComposeDecode(l, a);
      ComposeDecode(l, b);
    }
  }

  // ---------- bank mixing and the number of controllers ----------

  /** Addresses whose rows fit are told apart by what they decode to. */
  ghost predicate Lossless(l: Layout)
    requires l.Valid()
  {
    forall a: nat, b: nat :: RowFits(l, a) && RowFits(l, b) && Decode(l, a) == Decode(l, b) ==> a == b
  }

  ghost predicate IsPow2(n: nat) { exists m: nat :: n == Pow2(m) }

  /** Only powers of two divide powers of two. */
  lemma {:induction false} PowDivisor(n: nat, k: nat, z: nat)
    requires Pow2(k) == n * z
    ensures IsPow2(n)
  {
    if k == 0 {
      if n > 1 && z > 0 { Mul(n, 1, z); }
      assert n == Pow2(0);
    } else if n % 2 == 0 {
      var half := n / 2;
      assert Pow2(k - 1) == half * z by { assert 2 * Pow2(k - 1) == 2 * half * z; }
      PowDivisor(half, k - 1, z);
      var m: nat :| half == Pow2(m);
      assert n == Pow2(m + 1);
    } else {
      OddFactor(Pow2(k - 1), n, z);
      PowDivisor(n, k - 1, z / 2);
    }
  }

  lemma OddFactor(y: nat, n: nat, z: nat)
    requires 2 * y == n * z && n % 2 == 1
    ensures y == n * (z / 2)
  {
    var h, r, t := n / 2, z % 2, z / 2;
    assert n * z == (2 * h + 1) * (2 * t + r) == 2 * (h * (2 * t + r) + t) + r;
  }

  lemma EvenMod(q: nat, h: nat)
    requires q % 2 == 0 && h > 0
    ensures (q + 1) % (2 * h) == q % (2 * h) + 1 && (q + 1) / (2 * h) == q / (2 * h) && (q % (2 * h)) % 2 == 0
  {
    var g, r, t := q / 2, q / 2 / h, q / 2 % h;
    Doubled(g, h, r, t);
    Unique(q, 2 * h, r, 2 * t);
    Unique(q + 1, 2 * h, r, 2 * t + 1);
  }

  lemma Doubled(g: nat, h: nat, r: nat, t: nat)
    requires h > 0 && r == g / h && t == g % h
    ensures 2 * g == 2 * h * r + 2 * t && 2 * t + 1 < 2 * h
  {
    assert g == h * r + t;
  }

  lemma XorEven(a: nat, k: nat)
    requires a % 2 == 0 && k > 0
    ensures Xor(a, 0, k) == Xor(a + 1, 1, k)
  {
  }

  /** Decoding the first address of line `x`, where the mixed bits begin at line `top`. */
  lemma LineDecode(l: Layout, s: nat, top: nat, x: nat)
    requires l.Valid() && l.xorShift == Some(s) && Pow2(s) == Pow2(l.rowBits) * top && top > 0
    ensures var b := Pow2(l.bankBits); var a := Pow2(l.rowBits) * x;
            && Quotient(l, a) == x / l.numMc && WideRow(l, a) == x / l.numMc / b
            && Decode(l, a) == Location(x % l.numMc, ToInt32(x / l.numMc / b),
                                        Xor(x / l.numMc % b, x / top % b, l.bankBits), 0)
  {
    var p := Pow2(l.rowBits);
    Unique(p * x, p, x, 0);
    DivSplit(p * x, p, top);
  }

  /** Lines `x`, below the mixed bits, and `y`, above them, of neighbouring quotients on one controller. */
  lemma Neighbours(l: Layout, s: nat, top: nat, x: nat, q: nat, c: nat)
    requires l.Valid() && l.xorShift == Some(s) && l.bankBits >= 1 && Pow2(s) == Pow2(l.rowBits) * top && top > 0
    requires c < l.numMc && q % 2 == 0 && x == l.numMc * q + c && x < top <= x + l.numMc < 2 * top
    ensures var a, b := Pow2(l.rowBits) * x, Pow2(l.rowBits) * (x + l.numMc);
            Decode(l, a) == Decode(l, b) && WideRow(l, a) == WideRow(l, b)
  {
    var n := l.numMc;
    var y := x + n;
    LineDecode(l, s, top, x);
    LineDecode(l, s, top, y);
    assert y == n * (q + 1) + c;
    Unique(x, n, q, c);
    Unique(y, n, q + 1, c);
    Unique(x, top, 0, x);
    Unique(y, top, 1, y - top);
    var h := Pow2(l.bankBits - 1);
    assert Pow2(l.bankBits) == 2 * h;
    EvenMod(q, h);
    XorEven(q % (2 * h), l.bankBits);
    One(2 * h);
  }

  lemma One(d: nat)
    requires d >= 2
    ensures 0 % d == 0 && 1 % d == 1
  {
  }

  /** The quotient and the controller of a line just below the mixed bits whose neighbour is above them. */
  lemma Straddle(n: nat, top: nat) returns (x: nat, q: nat, c: nat)
    requires n > 0 && top / n >= 2 && top % n > 0
    ensures c < n && q % 2 == 0 && x == n * q + c && x < top <= x + n < 2 * top
  {
    var u, v := top / n, top % n;
    assert top == n * u + v;
    Mul(n, 2, u);
    if u % 2 == 0 {
      q, c := u, 0;
    } else {
      q, c := u - 1, v;
      assert n * (u - 1) == n * u - n;
    }
    x := n * q + c;
  }

  /** With a number of controllers that is no power of two, two addresses whose rows fit decode alike. */
  lemma XorAlias(l: Layout, s: nat) returns (a: nat, b: nat)
    requires l.Valid() && l.xorShift == Some(s) && l.bankBits >= 1 && !IsPow2(l.numMc)
    requires l.RowSpan() <= Pow2(s) < 0x8000_0000 * l.RowSpan() && s >= l.rowBits
    ensures a != b && RowFits(l, a) && RowFits(l, b) && Decode(l, a) == Decode(l, b)
  {
    var top := Pow2(s - l.rowBits);
    Pow2Add(l.rowBits, s - l.rowBits);
    TopLarge(l, top);
    NotDivided(l.numMc, s - l.rowBits);
    hide Pow2;
    hide IsPow2;
    hide Decode;
    hide WideRow;
    var x, q, c := Straddle(l.numMc, top);
    a, b := AliasAt(l, s, top, x, q, c);
    BelowFits(l, a);
  }

  lemma AliasAt(l: Layout, s: nat, top: nat, x: nat, q: nat, c: nat) returns (a: nat, b: nat)
    requires l.Valid() && l.xorShift == Some(s) && l.bankBits >= 1 && Pow2(s) == Pow2(l.rowBits) * top && top > 0
    requires c < l.numMc && q % 2 == 0 && x == l.numMc * q + c && x < top <= x + l.numMc < 2 * top
    ensures a != b && a < Pow2(s) && Decode(l, a) == Decode(l, b) && WideRow(l, a) == WideRow(l, b)
  {
    Neighbours(l, s, top, x, q, c);
    a, b := Pow2(l.rowBits) * x, Pow2(l.rowBits) * (x + l.numMc);
    hide Decode;
    hide WideRow;
    hide Pow2;
    Apart(Pow2(l.rowBits), x, l.numMc, top);
  }

  lemma Apart(p: nat, x: nat, n: nat, top: nat)
    requires p > 0 && n > 0 && x < top
    ensures p * x < p * top && p * x != p * (x + n)
  {
    Mul(p, x + 1, top);
    assert p * (x + 1) == p * x + p;
    Mul(p, x + 1, x + n);
  }

  lemma NotDivided(n: nat, k: nat)
    requires n > 0 && !IsPow2(n)
    ensures Pow2(k) % n > 0
  {
    assert Pow2(k) == n * (Pow2(k) / n) + Pow2(k) % n;
    if Pow2(k) % n == 0 { PowDivisor(n, k, Pow2(k) / n); }
  }

  lemma MulCancel(p: nat, x: nat, y: nat)
    requires p > 0 && p * x <= p * y
    ensures x <= y
  {
    assert p * (y + 1) == p * y + p;
    if x > y { Mul(p, y + 1, x); }
  }

  lemma TopLarge(l: Layout, top: nat)
    requires l.Valid() && l.bankBits >= 1 && l.RowSpan() <= Pow2(l.rowBits) * top
    ensures top / l.numMc >= 2
  {
    var n, p, b := l.numMc, Pow2(l.rowBits), Pow2(l.bankBits);
    assert b == 2 * Pow2(l.bankBits - 1) && b >= 2;
    TwoLines(p, n, b, top);
    TwoFit(n, top);
  }

  lemma TwoLines(p: nat, n: nat, b: nat, top: nat)
    requires p > 0 && b >= 2 && p * n * b <= p * top
    ensures 2 * n <= top
  {
    assert p * n * b == p * (n * b);
    MulCancel(p, n * b, top);
    Mul(n, 2, b);
  }

  lemma TwoFit(n: nat, top: nat)
    requires n > 0 && 2 * n <= top
    ensures top / n >= 2
  {
    var u := top / n;
    assert top == n * u + top % n;
    assert n * (u + 1) == n * u + n;
    MulCancel2(n, u);
  }

  lemma MulCancel2(n: nat, u: nat)
    requires n > 0 && n * (u + 1) > 2 * n
    ensures u >= 2
  {
    if u < 2 { Mul(n, u + 1, 2); }
  }

  lemma BelowFits(l: Layout, a: nat)
    requires l.Valid() && a < 0x8000_0000 * l.RowSpan()
    ensures RowFits(l, a)
  {
    WideRowIs(l, a);
    DivLess(a, l.RowSpan(), 0x8000_0000);
  }

  /** When no address whose row fits has a mixed bit, or there is only one bank, mixing does nothing. */
  lemma NoMixing(l: Layout, s: nat, a: nat)
    requires l.Valid() && l.xorShift == Some(s) && RowFits(l, a)
    requires l.bankBits == 0 || Pow2(s) >= 0x8000_0000 * l.RowSpan()
    ensures XorBits(l, a) == 0
  {
    if l.bankBits == 0 { OneBank(l, a); } else { FitsBelow(l, a); HighMixing(l, s, a); }
  }

  lemma OneBank(l: Layout, a: nat)
    requires l.bankBits == 0
    ensures XorBits(l, a) == 0
  {
    assert Pow2(l.bankBits) == 1;
  }

  lemma FitsBelow(l: Layout, a: nat)
    requires l.Valid() && RowFits(l, a)
    ensures a < 0x8000_0000 * l.RowSpan()
  {
    WideRowIs(l, a);
    DivLess(a, l.RowSpan(), 0x8000_0000);
  }

  lemma HighMixing(l: Layout, s: nat, a: nat)
    requires l.xorShift == Some(s) && a < Pow2(s)
    ensures XorBits(l, a) == 0
  {
    Unique(a, Pow2(s), 0, a);
    assert Div(a, Pow2(s)) == 0;
  }

  lemma SameMixing(l: Layout, a: nat, b: nat)
    requires l.Valid() && l.xorShift.Some? && RowFits(l, a) && RowFits(l, b) && XorBits(l, a) == XorBits(l, b)
    requires Decode(l, a) == Decode(l, b)
    ensures a == b
  {
    XorUndo(PlainBank(l, a), XorBits(l, a), l.bankBits);
    XorUndo(PlainBank(l, b), XorBits(l, b), l.bankBits);
    ComposeDecode(l, a);
    ComposeDecode(l, b);
    assert WideRow(l, a) == WideRow(l, b);
  }

  /** With the mixed bits above row buffer, controllers and banks, decoding is lossless if and only if the
      number of controllers is a power of two, unless mixing does nothing: with a single bank, or with mixed
      bits above every address whose row fits. */
  lemma XorLosslessIff(l: Layout, s: nat)
    requires l.Valid() && l.xorShift == Some(s) && l.RowSpan() <= Pow2(s) && s >= l.rowBits
    ensures Lossless(l) <==> IsPow2(l.numMc) || l.bankBits == 0 || Pow2(s) >= 0x8000_0000 * l.RowSpan()
  {
    if IsPow2(l.numMc) {
      var m: nat :| l.numMc == Pow2(m);
      ShiftAbove(l, m, s);
      forall a: nat, b: nat | RowFits(l, a) && RowFits(l, b) && Decode(l, a) == Decode(l, b)
        ensures a == b
      {
        XorDecodeLossless(l, m, s, a, b);
      }
    } else if l.bankBits == 0 || Pow2(s) >= 0x8000_0000 * l.RowSpan() {
      forall a: nat, b: nat | RowFits(l, a) && RowFits(l, b) && Decode(l, a) == Decode(l, b)
        ensures a == b
      {
        NoMixing(l, s, a);
        NoMixing(l, s, b);
        SameMixing(l, a, b);
      }
    } else {
      var a, b := XorAlias(l, s);
    }
  }

  lemma ShiftAbove(l: Layout, m: nat, s: nat)
    requires l.Valid() && l.numMc == Pow2(m) && l.RowSpan() <= Pow2(s)
    ensures s >= l.rowBits + m + l.bankBits
  {
    Pow2Add(l.rowBits, m);
    Pow2Add(l.rowBits + m, l.bankBits);
    var low := l.rowBits + m + l.bankBits;
    if s < low { Pow2Grows(s, low); }
  }

  lemma {:induction false} Pow2Grows(a: nat, b: nat)
    requires a < b
    ensures Pow2(a) < Pow2(b)
  {
    if a < b - 1 { Pow2Grows(a, b - 1); }
  }
}
