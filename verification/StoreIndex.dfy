/**
 The store index of src/map.cc: a table from quadwords to the last store that began at each of their
 bytes, used to find the store a load depends on. Stores are on the correct path, enter when they are
 fetched and leave in order when they retire.
 */
module StoreIndex {
  import opened Options

  /** A store uop in flight: its object, its number, its address and its size. */
  datatype Store = Store(obj: nat, num: nat, va: nat, size: nat)

  /** `mem_map_entry_c`; a cleared position has no store. */
  datatype Entry = Entry(mask: seq<bool>, stores: seq<Option<Store>>)

  const BLANK := Entry([false, false, false, false, false, false, false, false], [None, None, None, None, None, None, None, None])

  /** `table` is the hash; `flight` the stores in flight, oldest first. */
  datatype Index = Index(table: map<nat, Entry>, flight: seq<Store>)

  predicate EntryShape(e: Entry) {
    |e.mask| == 8 && |e.stores| == 8 && forall b :: 0 <= b < 8 ==> (e.mask[b] <==> e.stores[b].Some?)
  }

  ghost predicate Shape(x: Index) {
    forall k :: k in x.table ==> EntryShape(x.table[k])
  }

  predicate Marked(e: Entry) { exists b :: 0 <= b < |e.mask| && e.mask[b] }

  // ---------- the operations ----------

  function EntryOf(x: Index, k: nat): Entry { if k in x.table then x.table[k] else BLANK }

  /** `update_store_hash`. */
  function Update(x: Index, s: Store): Index
    requires Shape(x)
  {
    var e := EntryOf(x, s.va / 8);
    x.(table := x.table[s.va / 8 := Entry(e.mask[s.va % 8 := true], e.stores[s.va % 8 := Some(s)])],
       flight := x.flight + [s])
  }

  /** `delete_store_hash_entry` of the oldest store: it acts only if the position still points to that
      object, and drops an entry whose mask becomes empty. */
  function Delete(x: Index): Index
    requires Shape(x) && x.flight != []
  {
    var s := x.flight[0];
    var k, b := s.va / 8, s.va % 8;
    var y := x.(flight := x.flight[1..]);
    if k !in x.table || x.table[k].stores[b].None? || x.table[k].stores[b].value.obj != s.obj then y
    else
      var e := Entry(x.table[k].mask[b := false], x.table[k].stores[b := None]);
      if Marked(e) then y.(table := x.table[k := e]) else y.(table := x.table - {k})
  }

  /** `BYTE_OVERLAP`. */
  predicate Overlaps(s: Store, va: nat, size: nat) { !(s.va >= va + size || va >= s.va + s.size) }

  predicate Within(b: nat, va: nat, size: nat) { va <= b < va + size }

  /** Accesses of at least a byte overlap exactly when they share one. */
  lemma OverlapsIff(s: Store, va: nat, size: nat)
    requires s.size > 0 && size > 0
    ensures Overlaps(s, va, size) <==> exists b :: Within(b, s.va, s.size) && Within(b, va, size)
  {
    if Overlaps(s, va, size) {
      var b := if s.va < va then va else s.va;
      assert Within(b, s.va, s.size) && Within(b, va, size);
    }
  }

  const WORD := 0x1_0000_0000

  /** The loop over the first `n` bytes: the position found so far, and its number as an `unsigned`. */
  function Scan(e: Entry, va: nat, size: nat, n: nat): (r: (Option<nat>, nat))
    requires EntryShape(e) && n <= 8
    ensures r.0.Some? ==> r.0.value < n && e.mask[r.0.value] && Overlaps(e.stores[r.0.value].value, va, size)
                          && r.1 == e.stores[r.0.value].value.num % WORD
    ensures r.0.None? ==> r.1 == 0
  {
    if n == 0 then (None, 0)
    else
      var (best, num) := Scan(e, va, size, n - 1);
      if e.mask[n - 1] && Overlaps(e.stores[n - 1].value, va, size) && num < e.stores[n - 1].value.num
      then (Some(n - 1), e.stores[n - 1].value.num % WORD)
      else (best, num)
  }

  predicate OnlyMark(e: Entry, b: nat)
    requires EntryShape(e)
  {
    forall c :: 0 <= c < 8 ==> (e.mask[c] <==> c == b)
  }

  /** What `add_store_deps` returns. */
  function Lookup(x: Index, va: nat, size: nat): Option<Store>
    requires Shape(x)
  {
    if va / 8 !in x.table then None
    else
      var e := x.table[va / 8];
      if OnlyMark(e, va % 8) then e.stores[va % 8]
      else
        match Scan(e, va, size, 8).0
        case None => None
        case Some(b) => e.stores[b]
  }

  // ---------- what the index records ----------

  /** The youngest store in flight that begins at `va`. */
  function Youngest(xs: seq<Store>, va: nat): (r: Option<Store>)
    ensures r.Some? ==> r.value in xs && r.value.va == va
    ensures r.None? ==> forall s :: s in xs ==> s.va != va
  {
    if xs == [] then None else if xs[|xs|-1].va == va then Some(xs[|xs|-1]) else Youngest(xs[..|xs|-1], va)
  }

  function Recorded(x: Index, va: nat): Option<Store>
    requires Shape(x)
  {
    if va / 8 in x.table then x.table[va / 8].stores[va % 8] else None
  }

  predicate InOrder(xs: seq<Store>) {
    forall i, j :: 0 <= i < j < |xs| ==> xs[i].num < xs[j].num && xs[i].obj != xs[j].obj
  }

  /** For every address exactly the youngest store in flight beginning there, and no entry without. */
  ghost predicate Exact(x: Index) {
    && Shape(x) && InOrder(x.flight)
    && (forall va: nat :: Recorded(x, va) == Youngest(x.flight, va))
    && (forall k :: k in x.table ==> Marked(x.table[k]))
  }

  lemma StartExact()
    ensures Exact(Index(map[], []))
  {
  }

  lemma UpdateExact(x: Index, s: Store)
    requires Exact(x) && forall t :: t in x.flight ==> t.num < s.num && t.obj != s.obj
    ensures Exact(Update(x, s))
  {
    var y := Update(x, s);
    var k, b := s.va / 8, s.va % 8;
    assert y.table[k].mask[b];
    forall va: nat
      ensures Recorded(y, va) == Youngest(y.flight, va)
    {
      assert y.flight[..|y.flight|-1] == x.flight;
      assert Recorded(x, va) == Youngest(x.flight, va);
      assert va / 8 == k && va % 8 == b ==> va == s.va;
    }
  }

  lemma {:induction false} YoungestTail(xs: seq<Store>, va: nat)
    requires xs != [] && InOrder(xs)
    ensures Youngest(xs[1..], va) == if Youngest(xs, va) == Some(xs[0]) then None else Youngest(xs, va)
  {
    var n := |xs| - 1;
    if n > 0 && xs[n].va != va {
      YoungestTail(xs[..n], va);
      assert xs[1..][..n - 1] == xs[..n][1..];
    } else if n > 0 {
      assert xs[0].num < xs[n].num;
    }
  }

  lemma DeleteExact(x: Index)
    requires Exact(x) && x.flight != []
    ensures Exact(Delete(x))
  {
    var s, y := x.flight[0], Delete(x);
    var k, b := s.va / 8, s.va % 8;
    assert Recorded(x, s.va) == Youngest(x.flight, s.va);
    forall i, j | 0 <= i < j < |y.flight|
      ensures y.flight[i].num < y.flight[j].num && y.flight[i].obj != y.flight[j].obj
    {
      assert y.flight[i] == x.flight[i + 1] && y.flight[j] == x.flight[j + 1];
    }
    OnlyItself(x);
    forall va: nat
      ensures Recorded(y, va) == Youngest(y.flight, va)
    {
      DeleteAt(x, va);
    }
  }

  /** In flight the object tells the store. */
  lemma OnlyItself(x: Index)
    requires Exact(x) && x.flight != []
    ensures var s := x.flight[0]; var r := Recorded(x, s.va);
            r.Some? ==> (r.value.obj == s.obj <==> r.value == s)
  {
    var s := x.flight[0];
    var r := Recorded(x, s.va);
    assert r == Youngest(x.flight, s.va);
    if r.Some? {
      var i :| 0 <= i < |x.flight| && x.flight[i] == r.value;
      if i > 0 { assert x.flight[0].obj != x.flight[i].obj; }
    }
  }

  lemma DeleteAt(x: Index, va: nat)
    requires Exact(x) && x.flight != []
    requires var s := x.flight[0]; var r := Recorded(x, s.va); r.Some? ==> (r.value.obj == s.obj <==> r.value == s)
    ensures Shape(Delete(x)) && Recorded(Delete(x), va) == Youngest(Delete(x).flight, va)
  {
    var s, y := x.flight[0], Delete(x);
    YoungestTail(x.flight, va);
    assert Recorded(x, va) == Youngest(x.flight, va);
    assert Recorded(x, s.va) == Youngest(x.flight, s.va);
    var k, b := s.va / 8, s.va % 8;
    assert va / 8 == k && va % 8 == b ==> va == s.va;
    if va != s.va {
      assert Youngest(x.flight, va) != Some(s);
      if va / 8 == k && k in x.table {
        var e := Entry(x.table[k].mask[b := false], x.table[k].stores[b := None]);
        assert EntryShape(x.table[k]) && e.mask[va % 8] == x.table[k].mask[va % 8];
        assert !Marked(e) ==> !e.mask[va % 8];
      }
    }
  }

  // ---------- runs ----------

  datatype Op = Enter(s: Store) | Leave

  predicate OpOk(x: Index, op: Op) {
    match op
    case Enter(s) => s.size > 0 && forall t :: t in x.flight ==> t.num < s.num && t.obj != s.obj
    case Leave => x.flight != []
  }

  function Step(x: Index, op: Op): Index
    requires Shape(x) && OpOk(x, op)
  {
    match op
    case Enter(s) => Update(x, s)
    case Leave => Delete(x)
  }

  ghost predicate IsRun(states: seq<Index>, ops: seq<Op>) {
    && |states| == |ops| + 1 && states[0] == Index(map[], [])
    && forall i :: 0 <= i < |ops| ==> Shape(states[i]) && OpOk(states[i], ops[i]) && states[i + 1] == Step(states[i], ops[i])
  }

  predicate Sized(x: Index) { forall s :: s in x.flight ==> s.size > 0 }

  /** In every run the index records for each byte address exactly the youngest store in flight that
      begins there, and has an entry for a quadword only if such a store exists. */
  lemma {:induction false} RunExact(states: seq<Index>, ops: seq<Op>, i: nat)
    requires IsRun(states, ops) && i < |states|
    ensures Exact(states[i]) && Sized(states[i])
  {
    if i == 0 {
      StartExact();
    } else {
      RunExact(states, ops, i - 1);
      match ops[i - 1]
      case Enter(s) => UpdateExact(states[i - 1], s);
      case Leave => DeleteExact(states[i - 1]);
    }
  }

  // ---------- lookups ----------

  /** Recorded at byte `b` and overlapping the load. */
  predicate Hit(e: Entry, va: nat, size: nat, b: nat)
    requires EntryShape(e) && b < 8
  {
    e.mask[b] && Overlaps(e.stores[b].value, va, size)
  }

  /** `b` holds the youngest recorded store of the quadword that overlaps the load. */
  predicate Best(e: Entry, va: nat, size: nat, b: nat)
    requires EntryShape(e) && b < 8
  {
    Hit(e, va, size, b) && forall c :: 0 <= c < 8 && Hit(e, va, size, c) ==> e.stores[c].value.num <= e.stores[b].value.num
  }

  predicate DistinctNums(e: Entry)
    requires EntryShape(e)
  {
    forall b, c :: 0 <= b < c < 8 && e.mask[b] && e.mask[c] ==> e.stores[b].value.num != e.stores[c].value.num
  }

  lemma {:induction false} ScanBelow(e: Entry, va: nat, size: nat, n: nat, y: nat)
    requires EntryShape(e) && DistinctNums(e) && y < 8 && Best(e, va, size, y) && n <= y
    ensures Scan(e, va, size, n).1 < e.stores[y].value.num || Scan(e, va, size, n) == (None, 0)
  {
    if n > 0 { ScanBelow(e, va, size, n - 1, y); }
  }

  /** What must hold for the loop to end at the youngest, `y`: its number is not zero, and no later byte
      has an older store whose number exceeds the 32 bits kept of it. */
  predicate Keeps(e: Entry, va: nat, size: nat, y: nat, n: nat)
    requires EntryShape(e) && y < 8 && n <= 8 && e.mask[y]
  {
    e.stores[y].value.num > 0
    && forall c :: y < c < n && Hit(e, va, size, c) ==> e.stores[c].value.num <= e.stores[y].value.num % WORD
  }

  lemma {:induction false} ScanAfter(e: Entry, va: nat, size: nat, n: nat, y: nat)
    requires EntryShape(e) && DistinctNums(e) && y < n <= 8 && Best(e, va, size, y)
    ensures Scan(e, va, size, n).0 == Some(y) <==> Keeps(e, va, size, y, n)
    decreases n
  {
    if n == y + 1 {
      ScanBelow(e, va, size, y, y);
    } else {
      ScanAfter(e, va, size, n - 1, y);
    }
  }

  /** The loop finds the youngest recorded overlapping store exactly under that condition. */
  lemma ScanExact(e: Entry, va: nat, size: nat, y: nat)
    requires EntryShape(e) && DistinctNums(e) && y < 8 && Best(e, va, size, y)
    ensures Scan(e, va, size, 8).0 == Some(y) <==> Keeps(e, va, size, y, 8)
  {
    ScanAfter(e, va, size, 8, y);
  }

  /** The answer a load needs: the youngest recorded store of its quadword that overlaps it. */
  ghost predicate Right(x: Index, va: nat, size: nat, r: Option<Store>)
    requires Shape(x)
  {
    match r
    case None => forall b :: 0 <= b < 8 && va / 8 in x.table ==> !Hit(x.table[va / 8], va, size, b)
    case Some(s) => va / 8 in x.table && exists b :: 0 <= b < 8 && Best(x.table[va / 8], va, size, b) && x.table[va / 8].stores[b] == r
  }

  lemma StoreAt(x: Index, k: nat, b: nat)
    requires Exact(x) && k in x.table && b < 8 && x.table[k].mask[b]
    ensures var s := x.table[k].stores[b].value; s.va == 8 * k + b && s in x.flight
  {
    assert (8 * k + b) / 8 == k && (8 * k + b) % 8 == b;
    assert Recorded(x, 8 * k + b) == Youngest(x.flight, 8 * k + b);
  }

  lemma NumsDistinct(x: Index, k: nat)
    requires Exact(x) && k in x.table
    ensures DistinctNums(x.table[k])
  {
    var e := x.table[k];
    forall b, c | 0 <= b < c < 8 && e.mask[b] && e.mask[c]
      ensures e.stores[b].value.num != e.stores[c].value.num
    {
      StoreAt(x, k, b);
      StoreAt(x, k, c);
      var s, t := e.stores[b].value, e.stores[c].value;
      var i :| 0 <= i < |x.flight| && x.flight[i] == s;
      var j :| 0 <= j < |x.flight| && x.flight[j] == t;
      if i < j { assert x.flight[i].num < x.flight[j].num; } else { assert x.flight[j].num < x.flight[i].num; }
    }
  }

  /** When only the load's own start byte is marked, that store is the answer. */
  lemma OnlyMarkRight(x: Index, va: nat, size: nat)
    requires Exact(x) && Sized(x) && size > 0 && va / 8 in x.table && OnlyMark(x.table[va / 8], va % 8)
    ensures Right(x, va, size, Lookup(x, va, size))
  {
    var e := x.table[va / 8];
    StoreAt(x, va / 8, va % 8);
    assert Best(e, va, size, va % 8);
  }

  predicate AnyHit(e: Entry, va: nat, size: nat)
    requires EntryShape(e)
  {
    exists b :: 0 <= b < 8 && Hit(e, va, size, b)
  }

  /** Some byte holds the youngest overlapping store, if any overlaps. */
  lemma {:induction false} SomeBest(e: Entry, va: nat, size: nat, n: nat) returns (y: nat)
    requires EntryShape(e) && n <= 8 && exists b :: 0 <= b < n && Hit(e, va, size, b)
    ensures y < n && Hit(e, va, size, y)
    ensures forall c :: 0 <= c < n && Hit(e, va, size, c) ==> e.stores[c].value.num <= e.stores[y].value.num
    decreases n
  {
    if exists b :: 0 <= b < n - 1 && Hit(e, va, size, b) {
      y := SomeBest(e, va, size, n - 1);
      if Hit(e, va, size, n - 1) && e.stores[y].value.num < e.stores[n - 1].value.num { y := n - 1; }
    } else {
      y := n - 1;
    }
  }

  /** `add_store_deps` returns the youngest recorded store of the quadword that overlaps the load, or
      none if there is none, exactly when no store overlaps, or the load's start byte is the only one
      marked, or the youngest overlapping store is not numbered zero and its truncated number is not
      exceeded by an overlapping store at a later byte. */
  lemma LookupRightIff(x: Index, va: nat, size: nat)
    requires Exact(x) && Sized(x) && size > 0
    ensures Right(x, va, size, Lookup(x, va, size)) <==>
              va / 8 !in x.table || !AnyHit(x.table[va / 8], va, size) || OnlyMark(x.table[va / 8], va % 8)
              || exists y :: 0 <= y < 8 && Best(x.table[va / 8], va, size, y) && Keeps(x.table[va / 8], va, size, y, 8)
  {
    if va / 8 in x.table {
      var e := x.table[va / 8];
      NumsDistinct(x, va / 8);
      if OnlyMark(e, va % 8) {
        OnlyMarkRight(x, va, size);
      } else if AnyHit(e, va, size) {
        var y := SomeBest(e, va, size, 8);
        ScanExact(e, va, size, y);
        UniqueBest(e, va, size, y);
      }
    }
  }

  lemma UniqueBest(e: Entry, va: nat, size: nat, y: nat)
    requires EntryShape(e) && DistinctNums(e) && y < 8 && Best(e, va, size, y)
    ensures forall c :: 0 <= c < 8 && Best(e, va, size, c) ==> c == y
    ensures forall c :: 0 <= c < 8 && e.mask[c] && e.stores[c] == e.stores[y] ==> c == y
  {
    forall c | 0 <= c < 8 && e.mask[c] && e.stores[c].value.num == e.stores[y].value.num
      ensures c == y
    {
    }
  }

  /** In particular it does when numbers in flight lie between 1 and 2^32 - 1. */
  lemma LookupRight(x: Index, va: nat, size: nat)
    requires Exact(x) && Sized(x) && size > 0 && forall s :: s in x.flight ==> 0 < s.num < WORD
    ensures Right(x, va, size, Lookup(x, va, size))
  {
    LookupRightIff(x, va, size);
    if va / 8 in x.table && AnyHit(x.table[va / 8], va, size) {
      var e := x.table[va / 8];
      var y := SomeBest(e, va, size, 8);
      StoreAt(x, va / 8, y);
      assert e.stores[y].value.num % WORD == e.stores[y].value.num;
      assert Best(e, va, size, y) && Keeps(e, va, size, y, 8);
    }
  }

  /** A thread's first store, numbered zero, is missed by a load that starts at another byte. */
  lemma FirstStoreMissed()
    ensures var x := Update(Index(map[], []), Store(0, 0, 0, 8));
            Exact(x) && Sized(x) && Lookup(x, 4, 4) == None && !Right(x, 4, 4, None)
  {
    StartExact();
    var s := Store(0, 0, 0, 8);
    UpdateExact(Index(map[], []), s);
    var x := Update(Index(map[], []), s);
    var e := x.table[0];
    assert e.mask[0] && forall b :: 1 <= b < 8 ==> !e.mask[b];
    assert Hit(e, 4, 4, 0);
    assert Best(e, 4, 4, 0);
    NumsDistinct(x, 0);
    ScanExact(e, 4, 4, 0);
    NothingElse(e, 4, 4, 8);
  }

  lemma {:induction false} NothingElse(e: Entry, va: nat, size: nat, n: nat)
    requires EntryShape(e) && n <= 8 && (forall b :: 1 <= b < 8 ==> !e.mask[b]) && e.mask[0] && e.stores[0].value.num == 0
    ensures Scan(e, va, size, n) == (None, 0)
  {
    if n > 0 { NothingElse(e, va, size, n - 1); }
  }

  /** The youngest store in flight that overlaps the load, recorded or not. */
  predicate Dependence(x: Index, va: nat, size: nat, t: Store) {
    t in x.flight && Overlaps(t, va, size) && forall s :: s in x.flight && Overlaps(s, va, size) ==> s.num <= t.num
  }

  /** With numbers in that range a load is told of the youngest overlapping store in flight if and only if
      that store begins in the load's quadword and none younger begins at the same byte. */
  lemma DependenceFoundIff(x: Index, va: nat, size: nat, t: Store)
    requires Exact(x) && Sized(x) && size > 0 && (forall s :: s in x.flight ==> 0 < s.num < WORD)
    requires Dependence(x, va, size, t)
    ensures Lookup(x, va, size) == Some(t) <==> t.va / 8 == va / 8 && Youngest(x.flight, t.va) == Some(t)
  {
    var k, r := va / 8, Lookup(x, va, size);
    LookupRight(x, va, size);
    assert Recorded(x, t.va) == Youngest(x.flight, t.va);
    if t.va / 8 == k && Youngest(x.flight, t.va) == Some(t) {
      var e, y := x.table[k], t.va % 8;
      RecordedBest(x, va, size, t);
      NumsDistinct(x, k);
      UniqueBest(e, va, size, y);
      assert Hit(e, va, size, y);
      assert r.Some?;
    } else if r == Some(t) {
      var b :| 0 <= b < 8 && Best(x.table[k], va, size, b) && x.table[k].stores[b] == r;
      StoreAt(x, k, b);
    }
  }

  lemma RecordedBest(x: Index, va: nat, size: nat, t: Store)
    requires Exact(x) && Dependence(x, va, size, t) && t.va / 8 == va / 8 && Youngest(x.flight, t.va) == Some(t)
    ensures va / 8 in x.table && x.table[va / 8].stores[t.va % 8] == Some(t) && Best(x.table[va / 8], va, size, t.va % 8)
  {
    assert Recorded(x, t.va) == Youngest(x.flight, t.va);
    var e := x.table[va / 8];
    forall c | 0 <= c < 8 && Hit(e, va, size, c)
      ensures e.stores[c].value.num <= t.num
    {
      StoreAt(x, va / 8, c);
    }
  }

  /** And it is told of none when no store in flight overlaps it. */
  lemma NoDependence(x: Index, va: nat, size: nat)
    requires Exact(x) && Sized(x) && size > 0 && (forall s :: s in x.flight ==> 0 < s.num < WORD)
    requires forall s :: s in x.flight ==> !Overlaps(s, va, size)
    ensures Lookup(x, va, size) == None
  {
    LookupRight(x, va, size);
    if Lookup(x, va, size).Some? {
      var b :| 0 <= b < 8 && Best(x.table[va / 8], va, size, b) && x.table[va / 8].stores[b] == Lookup(x, va, size);
      StoreAt(x, va / 8, b);
    }
  }

  /** Only the load's own quadword is searched: a store that begins before it is not found. */
  lemma SpillMissed()
    ensures var x := Update(Index(map[], []), Store(0, 1, 4, 8));
            Exact(x) && Overlaps(Store(0, 1, 4, 8), 8, 4) && Lookup(x, 8, 4) == None
  {
    StartExact();
    UpdateExact(Index(map[], []), Store(0, 1, 4, 8));
  }

  // ---------- the table in place ----------

  class StoreHash {
    var table: map<nat, Entry>
    ghost var flight: seq<Store>

    ghost function View(): Index
      reads this
    {
      Index(table, flight)
    }

    constructor ()
      ensures Exact(View()) && flight == []
    {
      table, flight := map[], [];
      new;
      StartExact();
    }

    method UpdateStoreHash(s: Store)
      requires Exact(View()) && OpOk(View(), Enter(s))
      modifies this
      ensures Exact(View()) && View() == Update(old(View()), s)
    {
      UpdateExact(View(), s);
      var k, b := s.va / 8, s.va % 8;
      var e := if k in table then table[k] else BLANK;
      table := table[k := Entry(e.mask[b := true], e.stores[b := Some(s)])];
      flight := flight + [s];
    }

    method AddStoreDeps(va: nat, size: nat) returns (r: Option<Store>)
      requires Exact(View()) && Sized(View()) && size > 0
      ensures r == Lookup(View(), va, size)
      ensures (forall s :: s in flight ==> 0 < s.num < WORD) ==> Right(View(), va, size, r)
    {
      if forall s :: s in flight ==> 0 < s.num < WORD { LookupRight(View(), va, size); }
      if va / 8 !in table { return None; }
      var e := table[va / 8];
      if OnlyMark(e, va % 8) { return e.stores[va % 8]; }
      var first: Option<nat> := None;
      var firstNum := 0;
      var i := 0;
      while i < 8
        invariant i <= 8 && (first, firstNum) == Scan(e, va, size, i)
      {
        if e.mask[i] && Overlaps(e.stores[i].value, va, size) && firstNum < e.stores[i].value.num {
          first := Some(i);
          firstNum := e.stores[i].value.num % WORD;
        }
        i := i + 1;
      }
      if first.None? { return None; }
      return e.stores[first.value];
    }

    method DeleteStoreHashEntry(s: Store)
      requires Exact(View()) && flight != [] && flight[0] == s
      modifies this
      ensures Exact(View()) && View() == Delete(old(View()))
    {
      DeleteExact(View());
      var k, b := s.va / 8, s.va % 8;
      flight := flight[1..];
      if k !in table || table[k].stores[b].None? || table[k].stores[b].value.obj != s.obj { return; }
      var e := Entry(table[k].mask[b := false], table[k].stores[b := None]);
      if Marked(e) { table := table[k := e]; } else { table := table - {k}; }
    }
  }
}
