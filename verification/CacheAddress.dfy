/**
 Indexing of a cache split into tiles: `cache_c::find_tag_and_set` (src/cache.cc) and the tile number
 that `l2_decoupled_network_c::set_cache_id` picks (src/memory.cc) for two or more tiles. The tag and
 the set are the two parts of one number, the index.
 */
module CacheAddress {
  import opened Bits

  /** log2 of the line size, of the interleaving granularity and of the number of sets; the tiles. */
  datatype Tiling = Tiling(lineBits: nat, interBits: nat, setBits: nat, tiles: nat)

  predicate Valid(c: Tiling) { c.tiles >= 1 }

  /** `m_tile_bits`: the logarithm of a power of two, zero for any other number. */
  predicate TileBits(c: Tiling, tileBits: nat) { c.tiles == Pow2(tileBits) }

  function Tile(c: Tiling, addr: nat): nat
    requires Valid(c)
  {
    Div(addr, Pow2(c.interBits)) % c.tiles
  }

  /** The address with the tile number taken out, by division. */
  function Folded(c: Tiling, addr: nat): nat
    requires Valid(c)
  {
    Div(Div(addr, Pow2(c.interBits)), c.tiles) * Pow2(c.interBits) + addr % Pow2(c.interBits)
  }

  /** The same by shifting, when the number of tiles is a power of two. */
  function FoldedByShift(c: Tiling, tileBits: nat, addr: nat): nat {
    Div(addr, Pow2(c.interBits + tileBits)) * Pow2(c.interBits) + addr % Pow2(c.interBits)
  }

  function Index(c: Tiling, addr: nat): nat
    requires Valid(c)
  {
    Div(Folded(c, addr), Pow2(c.lineBits))
  }

  function Set(c: Tiling, addr: nat): nat
    requires Valid(c)
  {
    Index(c, addr) % Pow2(c.setBits)
  }

  /** The index with its set bits cleared. */
  function Tag(c: Tiling, addr: nat): nat
    requires Valid(c)
  {
    Clear(Index(c, addr), Pow2(c.setBits))
  }

  function Clear(x: nat, m: nat): (r: nat)
    requires m > 0
    ensures r == x - x % m
  {
    ClearNat(x, m);
    x - x % m
  }

  lemma ClearNat(x: nat, m: nat)
    requires m > 0
    ensures x % m <= x
  {
    if x < m { Unique(x, m, 0, x); }
  }

  function Line(c: Tiling, addr: nat): nat { Div(addr, Pow2(c.lineBits)) }

  // ---------- the two forms of the index ----------

  /** Shifting and dividing give the same index whenever the number of tiles is a power of two. */
  lemma ShiftIsDivision(c: Tiling, tileBits: nat, addr: nat)
    requires Valid(c) && TileBits(c, tileBits)
    ensures FoldedByShift(c, tileBits, addr) == Folded(c, addr)
  {
    Pow2Add(c.interBits, tileBits);
    DivSplit(addr, Pow2(c.interBits), Pow2(tileBits));
  }

  // ---------- tile, tag and set against the line ----------

  lemma TagAndSet(c: Tiling, a: nat, b: nat)
    requires Valid(c)
    ensures Tag(c, a) == Tag(c, b) && Set(c, a) == Set(c, b) <==> Index(c, a) == Index(c, b)
  {
  }

  /** The index of a line within its tile, and the tile, from the line number; `d` is the number of
      lines interleaved together. */
  function LineTile(line: nat, d: nat, tiles: nat): nat
    requires d > 0 && tiles > 0
  {
    Div(line, d) % tiles
  }

  function LineIndex(line: nat, d: nat, tiles: nat): nat
    requires d > 0 && tiles > 0
  {
    Div(Div(line, d), tiles) * d + line % d
  }

  lemma LineIndexOne(x: nat, y: nat, d: nat, tiles: nat)
    requires d > 0 && tiles > 0
    ensures LineTile(x, d, tiles) == LineTile(y, d, tiles) && LineIndex(x, d, tiles) == LineIndex(y, d, tiles) <==> x == y
  {
    if LineTile(x, d, tiles) == LineTile(y, d, tiles) && LineIndex(x, d, tiles) == LineIndex(y, d, tiles) {
      Unique(LineIndex(x, d, tiles), d, Div(Div(x, d), tiles), x % d);
      Unique(LineIndex(x, d, tiles), d, Div(Div(y, d), tiles), y % d);
      Rebuild(Div(x, d), tiles);
      Rebuild(Div(y, d), tiles);
      Rebuild(x, d);
      Rebuild(y, d);
    }
  }

  lemma Rebuild(x: nat, d: nat)
    requires d > 0
    ensures x == d * Div(x, d) + x % d
  {
  }

  /** The low part of an address, in lines. */
  lemma LowPart(addr: nat, p: nat, d: nat)
    requires p > 0 && d > 0
    ensures p * d > 0 && (addr % (p * d)) / p == (addr / p) % d && addr / (p * d) == addr / p / d
  {
    DivSplit(addr, p, d);
    var line := addr / p;
    var q, u := line / d, line % d;
    assert addr == p * line + addr % p;
    assert line == d * q + u;
    LowRest(p, d, q, u, addr % p);
    Unique(addr, p * d, q, p * u + addr % p);
    Unique(p * u + addr % p, p, u, addr % p);
  }

  lemma LowRest(p: nat, d: nat, q: nat, u: nat, r: nat)
    requires r < p && u < d
    ensures p * (d * q + u) + r == (p * d) * q + (p * u + r) && p * u + r < p * d
  {
    Nest(p, d, q, u, r);
  }

  /** With granularity at least the line size both are functions of the line. */
  lemma FromLine(c: Tiling, addr: nat)
    requires Valid(c) && c.lineBits <= c.interBits
    ensures var d := Pow2(c.interBits - c.lineBits);
            Tile(c, addr) == LineTile(Line(c, addr), d, c.tiles) && Index(c, addr) == LineIndex(Line(c, addr), d, c.tiles)
  {
    var p, d := Pow2(c.lineBits), Pow2(c.interBits - c.lineBits);
    Pow2Add(c.lineBits, c.interBits - c.lineBits);
    assert Pow2(c.interBits) == p * d;
    LowPart(addr, p, d);
    FoldDivides(Div(Div(addr, p * d), c.tiles), p, d, addr % (p * d));
  }

  lemma FoldDivides(q: nat, p: nat, d: nat, r: nat)
    requires p > 0 && d > 0
    ensures (q * (p * d) + r) / p == q * d + r / p
  {
    assert q * (p * d) == p * (q * d);
    Shift(r, p, q * d);
  }

  /** Two addresses on the same line, and only they, have the same tile, tag and set, when the
      granularity is at least the line size. */
  lemma LineFromTile(c: Tiling, a: nat, b: nat)
    requires Valid(c) && c.lineBits <= c.interBits
    ensures Tile(c, a) == Tile(c, b) && Tag(c, a) == Tag(c, b) && Set(c, a) == Set(c, b) <==> Line(c, a) == Line(c, b)
  {
    hide Tile;
    hide Index;
    var d := Pow2(c.interBits - c.lineBits);
    FromLine(c, a);
    FromLine(c, b);
    LineIndexOne(Line(c, a), Line(c, b), d, c.tiles);
    TagAndSet(c, a, b);
  }

  // ---------- where lines go ----------

  /** The set is one of the cache's, and tag and set are the two parts of one number. */
  lemma SetInRange(c: Tiling, addr: nat)
    requires Valid(c)
    ensures Set(c, addr) < Pow2(c.setBits) && Tag(c, addr) % Pow2(c.setBits) == 0
  {
    hide Index;
    Cleared(Index(c, addr), Pow2(c.setBits));
  }

  lemma Cleared(x: nat, m: nat)
    requires m > 0
    ensures Clear(x, m) % m == 0 && x % m < m
  {
    Rebuild(x, m);
    Unique(x - x % m, m, x / m, 0);
  }

  /** With one tile the set is the line number modulo the number of sets, and tag plus set is the line. */
  lemma OneTile(c: Tiling, addr: nat)
    requires c.tiles == 1
    ensures Set(c, addr) == Line(c, addr) % Pow2(c.setBits) && Tag(c, addr) + Set(c, addr) == Line(c, addr)
  {
    var p := Pow2(c.interBits);
    assert Div(Div(addr, p), 1) == addr / p;
    assert addr == p * (addr / p) + addr % p;
    assert Folded(c, addr) == addr;
  }

  /** Lines of one tile are numbered in their order. */
  lemma IndexGrows(x: nat, y: nat, d: nat, tiles: nat)
    requires d > 0 && tiles > 0 && LineTile(x, d, tiles) == LineTile(y, d, tiles) && x < y
    ensures LineIndex(x, d, tiles) < LineIndex(y, d, tiles)
  {
    var (q, u) := (x / d / tiles, y / d / tiles);
    Rebuild(x, d);
    Rebuild(y, d);
    Rebuild(x / d, tiles);
    Rebuild(y / d, tiles);
    Blocks(x, y, d);
    if q == u {
      assert x / d == y / d;
    } else {
      BlocksBelow(x / d, y / d, tiles);
      IndexBelow(q, u, d, x % d);
    }
  }

  lemma Blocks(x: nat, y: nat, d: nat)
    requires d > 0 && x < y
    ensures x / d <= y / d
  {
    assert x == d * (x / d) + x % d && y == d * (y / d) + y % d;
    if x / d > y / d { Mul(d, y / d + 1, x / d); }
  }

  lemma BlocksBelow(a: nat, b: nat, tiles: nat)
    requires tiles > 0 && a <= b && a / tiles != b / tiles
    ensures a / tiles < b / tiles
  {
    assert a < b;
    Blocks(a, b, tiles);
  }

  lemma IndexBelow(q: nat, u: nat, d: nat, r: nat)
    requires q < u && r < d
    ensures q * d + r < u * d
  {
    Mul(d, q + 1, u);
    assert d * (q + 1) == q * d + d;
  }

  /** The next line of the same tile: in the same block of `d` lines, or at the start of the tile's next. */
  function NextLine(x: nat, d: nat, tiles: nat): nat
    requires d > 0
  {
    if x % d + 1 < d then x + 1 else d * (x / d + tiles)
  }

  lemma NextLineNext(x: nat, d: nat, tiles: nat)
    requires d > 0 && tiles > 0
    ensures var y := NextLine(x, d, tiles);
            x < y && LineTile(y, d, tiles) == LineTile(x, d, tiles) && LineIndex(y, d, tiles) == LineIndex(x, d, tiles) + 1
  {
    Rebuild(x, d);
    if x % d + 1 < d {
      Unique(x + 1, d, x / d, x % d + 1);
    } else {
      Unique(d * (x / d + tiles), d, x / d + tiles, 0);
      Shift(x / d, tiles, 1);
      Mul(d, x / d + 1, x / d + tiles);
      assert d * (x / d + 1) == d * (x / d) + d;
      NextBlock(x / d / tiles, d, x % d);
    }
  }

  lemma NextBlock(q: nat, d: nat, r: nat)
    requires r + 1 == d
    ensures (q + 1) * d == q * d + r + 1
  {
  }

  /** `b` is on the line that follows the line of `a` in their tile. */
  ghost predicate Follows(c: Tiling, a: nat, b: nat)
    requires Valid(c)
  {
    && Tile(c, b) == Tile(c, a) && Line(c, a) < Line(c, b)
    && forall x: nat :: Tile(c, x) == Tile(c, a) ==> !(Line(c, a) < Line(c, x) < Line(c, b))
  }

  lemma FollowsNext(c: Tiling, a: nat, b: nat)
    requires Valid(c) && c.lineBits <= c.interBits && Follows(c, a, b)
    ensures Index(c, b) == Index(c, a) + 1
  {
    var d, p := Pow2(c.interBits - c.lineBits), Pow2(c.lineBits);
    var x, y := Line(c, a), Line(c, b);
    var z := NextLine(x, d, c.tiles);
    NextLineNext(x, d, c.tiles);
    Unique(p * z, p, z, 0);
    assert Line(c, p * z) == z;
    hide Tile;
    hide Index;
    FromLine(c, a);
    FromLine(c, b);
    FromLine(c, p * z);
    assert y <= z;
    IndexGrows(x, y, d, c.tiles);
    if y < z { IndexGrows(y, z, d, c.tiles); }
  }

  /** Consecutive lines of a tile go to consecutive sets, and wrap around. */
  lemma NextLineNextSet(c: Tiling, a: nat, b: nat)
    requires Valid(c) && c.lineBits <= c.interBits && Follows(c, a, b)
    ensures Set(c, b) == if Set(c, a) + 1 == Pow2(c.setBits) then 0 else Set(c, a) + 1
  {
    FollowsNext(c, a, b);
    hide Follows;
    hide Index;
    SuccMod(Index(c, a), Pow2(c.setBits));
  }

  lemma SuccMod(x: nat, m: nat)
    requires m > 0
    ensures (x + 1) % m == if x % m + 1 == m then 0 else x % m + 1
  {
    Rebuild(x, m);
    if x % m + 1 == m {
      assert m * (x / m + 1) == m * (x / m) + m;
      Unique(x + 1, m, x / m + 1, 0);
    } else {
      Unique(x + 1, m, x / m, x % m + 1);
    }
  }

  /** The first line of a tile goes to set 0. */
  lemma FirstLineSet(c: Tiling, a: nat)
    requires Valid(c) && c.lineBits <= c.interBits
    requires forall x: nat :: Tile(c, x) == Tile(c, a) ==> Line(c, a) <= Line(c, x)
    ensures Set(c, a) == 0 && Tag(c, a) == 0
  {
    var d, p := Pow2(c.interBits - c.lineBits), Pow2(c.lineBits);
    var t := Tile(c, a);
    var z := d * t;
    Unique(z, d, t, 0);
    Unique(t, c.tiles, 0, t);
    Unique(p * z, p, z, 0);
    assert Line(c, p * z) == z && LineTile(z, d, c.tiles) == t && LineIndex(z, d, c.tiles) == 0;
    hide Tile;
    hide Index;
    FromLine(c, a);
    FromLine(c, p * z);
    if Line(c, a) < z { IndexGrows(Line(c, a), z, d, c.tiles); }
    assert Index(c, a) == 0;
    Unique(0, Pow2(c.setBits), 0, 0);
  }

  /** With a finer granularity and two or more tiles two lines of one tile share tag and set. */
  lemma FineTilesAlias(c: Tiling) returns (a: nat, b: nat)
    requires c.tiles >= 2 && c.interBits < c.lineBits
    ensures Tile(c, a) == Tile(c, b) && Tag(c, a) == Tag(c, b) && Set(c, a) == Set(c, b) && Line(c, a) != Line(c, b)
  {
    var p, k := Pow2(c.interBits), Pow2(c.lineBits - c.interBits);
    Pow2Add(c.interBits, c.lineBits - c.interBits);
    assert k >= 2 by { assert k == 2 * Pow2(c.lineBits - c.interBits - 1); }
    a, b := 0, p * (c.tiles * (k - 1));
    FineFolded(c, 0, p, k);
    FineFolded(c, k - 1, p, k);
    assert p * (c.tiles * 0) == 0;
    FarLine(p, k, c.tiles);
    TagAndSet(c, a, b);
    Unique(0, p * k, 0, 0);
  }

  lemma FineFolded(c: Tiling, q: nat, p: nat, k: nat)
    requires Valid(c) && p == Pow2(c.interBits) && q < k && Pow2(c.lineBits) == p * k
    ensures var addr := p * (c.tiles * q); Tile(c, addr) == 0 && Index(c, addr) == 0
  {
    var addr := p * (c.tiles * q);
    Unique(addr, p, c.tiles * q, 0);
    Unique(c.tiles * q, c.tiles, q, 0);
    assert Folded(c, addr) == q * p;
    Small(q, p, k);
    Unique(q * p, p * k, 0, q * p);
  }

  lemma Small(q: nat, p: nat, k: nat)
    requires q < k && p > 0
    ensures q * p < p * k
  {
    Mul(p, q + 1, k);
    assert p * (q + 1) == p * q + p;
  }

  /** The second address lies at least one line away. */
  lemma FarLine(p: nat, k: nat, n: nat)
    requires p > 0 && k >= 2 && n >= 2
    ensures p * k > 0 && (p * (n * (k - 1))) / (p * k) >= 1
  {
    Mul(k - 1, 2, n);
    assert n * (k - 1) >= k;
    Mul(p, k, n * (k - 1));
    var a, d := p * (n * (k - 1)), p * k;
    Mul(p, 1, k);
    AtLeastOne(a, d);
  }

  lemma AtLeastOne(a: nat, d: nat)
    requires 0 < d <= a
    ensures a / d >= 1
  {
    assert a == d * (a / d) + a % d;
  }

  /** So tile, tag and set determine the line exactly when the granularity is at least the line size. */
  lemma TilesDetermineLineIff(c: Tiling)
    requires c.tiles >= 2
    ensures (forall a: nat, b: nat :: Tile(c, a) == Tile(c, b) && Tag(c, a) == Tag(c, b) && Set(c, a) == Set(c, b)
                                      ==> Line(c, a) == Line(c, b))
            <==> c.lineBits <= c.interBits
  {
    hide Tile;
    hide Tag;
    hide Set;
    hide Line;
    if c.lineBits <= c.interBits {
      forall a: nat, b: nat | Tile(c, a) == Tile(c, b) && Tag(c, a) == Tag(c, b) && Set(c, a) == Set(c, b)
        ensures Line(c, a) == Line(c, b)
      {
        LineFromTile(c, a, b);
      }
    } else {
      var a, b := FineTilesAlias(c);
    }
  }
}
