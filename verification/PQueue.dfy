/**
 The latency queue of src/pqueue.h: a ring of `latency + 1` buckets kept in priority order. Entries
 join the last bucket and are taken from the current one. As a value the ring is the list of its
 buckets from the current one on (`lanes`); the class is the ring itself.
 */
module PQueues {
  import opened Options

  datatype Item<T> = Item(priority: int, data: T)

  type Lanes<T> = seq<seq<Item<T>>>

  /** Where `enqueue` puts an entry: before the first one of lower priority. */
  function Ranked<T>(xs: seq<Item<T>>, x: Item<T>): (ys: seq<Item<T>>)
    ensures |ys| == |xs| + 1
  {
    if xs == [] then [x]
    else if xs[0].priority < x.priority then [x] + xs
    else [xs[0]] + Ranked(xs[1..], x)
  }

  function Enqueue<T>(ls: Lanes<T>, x: Item<T>): (r: Lanes<T>)
    requires ls != []
    ensures |r| == |ls|
  {
    ls[..|ls|-1] + [Ranked(ls[|ls|-1], x)]
  }

  predicate Ready<T>(ls: Lanes<T>) { ls != [] && ls[0] != [] }

  function Dequeue<T>(ls: Lanes<T>): (r: Lanes<T>)
    requires Ready(ls)
    ensures |r| == |ls|
  {
    [ls[0][1..]] + ls[1..]
  }

  function Count<T>(ls: Lanes<T>): nat { if ls == [] then 0 else |ls[0]| + Count(ls[1..]) }

  /** The buckets turn when the current one is empty and another is not. */
  predicate Turns<T>(ls: Lanes<T>) { ls != [] && ls[0] == [] && Count(ls) > 0 }

  function Advance<T>(ls: Lanes<T>): (r: Lanes<T>)
    requires ls != []
    ensures |r| == |ls|
  {
    if Turns(ls) then ls[1..] + [[]] else ls
  }

  /** All entries in the order `peek` numbers them. */
  function Flat<T>(ls: Lanes<T>): seq<Item<T>> { if ls == [] then [] else ls[0] + Flat(ls[1..]) }

  function Empty<T>(n: nat): (ls: Lanes<T>)
    ensures |ls| == n && (forall i :: 0 <= i < n ==> ls[i] == [])
  {
    seq(n, _ => [])
  }

  lemma {:induction false} FlatCount<T>(ls: Lanes<T>)
    ensures |Flat(ls)| == Count(ls)
  {
    if ls != [] { FlatCount(ls[1..]); }
  }

  lemma {:induction false} FlatCat<T>(a: Lanes<T>, b: Lanes<T>)
    ensures Flat(a + b) == Flat(a) + Flat(b)
  {
    if a == [] {
      assert a + b == b;
    } else {
      FlatCat(a[1..], b);
      assert (a + b)[1..] == a[1..] + b && (a + b)[0] == a[0];
      FlatHead(a);
      FlatHead(a + b);
      hide Flat;
      assert a[0] + (Flat(a[1..]) + Flat(b)) == (a[0] + Flat(a[1..])) + Flat(b);
    }
  }

  lemma FlatHead<T>(ls: Lanes<T>)
    requires ls != []
    ensures Flat(ls) == ls[0] + Flat(ls[1..])
  {
  }

  lemma {:induction false} FlatEmpty<T>(n: nat)
    ensures Flat(Empty<T>(n)) == []
  {
    if n > 0 {
      FlatEmpty<T>(n - 1);
      assert Empty<T>(n)[1..] == Empty<T>(n - 1);
    }
  }

  // ---------- order ----------

  predicate Sorted<T>(xs: seq<Item<T>>) {
    forall i, j :: 0 <= i < j < |xs| ==> xs[i].priority >= xs[j].priority
  }

  /** The number of entries that stay ahead of `x`. */
  function Spot<T>(xs: seq<Item<T>>, x: Item<T>): (k: nat)
    ensures k <= |xs|
  {
    if xs == [] || xs[0].priority < x.priority then 0 else 1 + Spot(xs[1..], x)
  }

  lemma {:induction false} RankedAtSpot<T>(xs: seq<Item<T>>, x: Item<T>)
    ensures var k := Spot(xs, x);
            && Ranked(xs, x) == xs[..k] + [x] + xs[k..]
            && (forall i :: 0 <= i < k ==> xs[i].priority >= x.priority)
            && (k < |xs| ==> xs[k].priority < x.priority)
  {
    var k := Spot(xs, x);
    if k > 0 {
      RankedAtSpot(xs[1..], x);
      assert [xs[0]] + (xs[1..][..k - 1] + [x] + xs[1..][k - 1..]) == xs[..k] + [x] + xs[k..];
      forall i | 0 <= i < k
        ensures xs[i].priority >= x.priority
      {
        if i > 0 { assert xs[i] == xs[1..][i - 1]; }
      }
    }
  }

  /** Priority order is kept, and an entry goes behind those of equal priority. */
  lemma RankedSorted<T>(xs: seq<Item<T>>, x: Item<T>)
    requires Sorted(xs)
    ensures Sorted(Ranked(xs, x)) && Ranked(xs, x)[Spot(xs, x)] == x
    ensures forall i :: 0 <= i < |xs| ==> (i < Spot(xs, x) <==> xs[i].priority >= x.priority)
  {
    RankedAtSpot(xs, x);
  }

  predicate Level<T>(xs: seq<Item<T>>, p: int) { forall i :: 0 <= i < |xs| ==> xs[i].priority == p }

  lemma {:induction false} RankedLevel<T>(xs: seq<Item<T>>, x: Item<T>)
    requires Level(xs, x.priority)
    ensures Ranked(xs, x) == xs + [x]
  {
    if xs != [] {
      assert xs[0].priority == x.priority;
      RankedLevel(xs[1..], x);
    }
  }

  /** With equal priorities the queue is a FIFO: an entry joins at the end, ... */
  lemma EnqueueFifo<T>(ls: Lanes<T>, x: Item<T>)
    requires ls != [] && Level(Flat(ls), x.priority)
    ensures Flat(Enqueue(ls, x)) == Flat(ls) + [x]
  {
    var n := |ls| - 1;
    FlatCat(ls[..n], [ls[n]]);
    FlatCat(ls[..n], [Ranked(ls[n], x)]);
    assert ls == ls[..n] + [ls[n]];
    assert Flat([ls[n]]) == ls[n] && Flat([Ranked(ls[n], x)]) == Ranked(ls[n], x);
    forall i | 0 <= i < |ls[n]|
      ensures ls[n][i].priority == x.priority
    {
      assert Flat(ls)[|Flat(ls[..n])| + i] == ls[n][i];
    }
    RankedLevel(ls[n], x);
  }

  /** ... leaves from the front, ... */
  lemma DequeueFifo<T>(ls: Lanes<T>)
    requires Ready(ls)
    ensures Flat(ls) == [ls[0][0]] + Flat(Dequeue(ls))
  {
    assert Dequeue(ls)[1..] == ls[1..];
    assert ls[0] == [ls[0][0]] + ls[0][1..];
  }

  /** ... and aging reorders nothing. */
  lemma AdvanceFifo<T>(ls: Lanes<T>)
    requires ls != []
    ensures Flat(Advance(ls)) == Flat(ls)
  {
    if Turns(ls) {
      FlatCat(ls[1..], [[]]);
      FlatEmpty<T>(1);
      assert Empty<T>(1) == [[]];
    }
  }

  // ---------- delay ----------

  datatype Action<T> = Joins(x: Item<T>) | Leaves | Ages

  function Apply<T>(ls: Lanes<T>, op: Action<T>): (r: Lanes<T>)
    requires ls != [] && (op.Leaves? ==> Ready(ls))
    ensures |r| == |ls|
  {
    match op
    case Joins(x) => Enqueue(ls, x)
    case Leaves => Dequeue(ls)
    case Ages => Advance(ls)
  }

  predicate In<T(==)>(ls: Lanes<T>, k: nat, x: Item<T>) { k < |ls| && x in ls[k] }

  function AgeCount<T>(ops: seq<Action<T>>): nat {
    if ops == [] then 0 else AgeCount(ops[..|ops|-1]) + (if ops[|ops|-1].Ages? then 1 else 0)
  }

  ghost predicate IsHistory<T>(states: seq<Lanes<T>>, ops: seq<Action<T>>) {
    && |states| == |ops| + 1 && states[0] != []
    && forall i :: 0 <= i < |ops| ==>
         states[i] != [] && (ops[i].Leaves? ==> Ready(states[i])) && states[i + 1] == Apply(states[i], ops[i])
  }

  lemma {:induction false} RankedIn<T>(xs: seq<Item<T>>, x: Item<T>)
    ensures forall y :: y in Ranked(xs, x) <==> y in xs || y == x
  {
    if xs != [] && !(xs[0].priority < x.priority) {
      RankedIn(xs[1..], x);
      assert xs == [xs[0]] + xs[1..];
    }
  }

  /** No entry is ever closer to the front than its latency less the agings since it came: an entry
      absent at first is in lane `k` only if `latency - k` agings have gone by. */
  lemma {:induction false} AtLeastLatency<T>(states: seq<Lanes<T>>, ops: seq<Action<T>>, i: nat, k: nat, x: Item<T>)
    requires IsHistory(states, ops) && i < |states| && k < |states[0]|
    requires forall j :: 0 <= j < |states[0]| ==> !In(states[0], j, x)
    ensures |states[i]| == |states[0]|
    ensures In(states[i], k, x) ==> k + AgeCount(ops[..i]) >= |states[0]| - 1
  {
    if i > 0 {
      AtLeastLatency(states, ops, i - 1, k, x);
      var s, t, op := states[i - 1], states[i], ops[i - 1];
      assert ops[..i][..i - 1] == ops[..i - 1];
      if In(t, k, x) {
        match op
        case Joins(y) => RankedIn(s[|s|-1], y);
        case Leaves => assert t[0] == s[0][1..];
        case Ages =>
          if Turns(s) && k + 1 < |s| {
            AtLeastLatency(states, ops, i - 1, k + 1, x);
            assert t[k] == s[k + 1];
          }
      }
    }
  }

  // ---------- aging ----------

  /** `k` agings in a row. */
  function Aged<T>(ls: Lanes<T>, k: nat): (r: Lanes<T>)
    requires ls != []
    ensures |r| == |ls|
  {
    if k == 0 then ls else Advance(Aged(ls, k - 1))
  }

  /** The first bucket that has an entry. */
  function FirstFull<T>(ls: Lanes<T>): (k: nat)
    ensures k <= |ls|
    ensures forall i :: 0 <= i < k ==> ls[i] == []
    ensures k < |ls| ==> ls[k] != []
  {
    if ls == [] || ls[0] != [] then 0 else 1 + FirstFull(ls[1..])
  }

  lemma {:induction false} SomeFull<T>(ls: Lanes<T>)
    ensures Count(ls) > 0 <==> FirstFull(ls) < |ls|
  {
    if ls != [] { SomeFull(ls[1..]); }
  }

  lemma {:induction false} CountLast<T>(ls: Lanes<T>)
    ensures Count(ls + [[]]) == Count(ls)
  {
    if ls != [] {
      CountLast(ls[1..]);
      assert (ls + [[]])[1..] == ls[1..] + [[]];
    } else {
      assert ls + [[]] == [[]];
      assert [[]][1..] == ls;
    }
  }

  lemma {:induction false} AgedTurns<T>(ls: Lanes<T>, k: nat)
    requires ls != [] && Count(ls) > 0 && k <= FirstFull(ls)
    ensures Count(Aged(ls, k)) == Count(ls) && FirstFull(Aged(ls, k)) == FirstFull(ls) - k
    ensures forall i :: 0 <= i < |ls| - k ==> Aged(ls, k)[i] == ls[k + i]
  {
    if k > 0 {
      AgedTurns(ls, k - 1);
      var r := Aged(ls, k - 1);
      SomeFull(r);
      assert r[0] == [];
      assert Advance(r) == r[1..] + [[]];
      CountLast(r[1..]);
      var j := FirstFull(r);
      assert r[j] != [] && Advance(r)[j - 1] == r[j];
      FirstAt(Advance(r), j - 1);
    }
  }

  lemma {:induction false} FirstAt<T>(ls: Lanes<T>, k: nat)
    requires k < |ls| && ls[k] != [] && forall i :: 0 <= i < k ==> ls[i] == []
    ensures FirstFull(ls) == k
  {
  }

  /** A queue with an entry is ready after as many agings as buckets stand before its first entry, at most
      the latency, and no sooner. */
  lemma ReadyInTime<T>(ls: Lanes<T>)
    requires ls != [] && Count(ls) > 0
    ensures var k := FirstFull(ls);
            && k <= |ls| - 1 && Ready(Aged(ls, k)) && Aged(ls, k)[0] == ls[k]
            && forall j :: 0 <= j < k ==> !Ready(Aged(ls, j))
  {
    SomeFull(ls);
    var k := FirstFull(ls);
    AgedTurns(ls, k);
    forall j | 0 <= j < k
      ensures !Ready(Aged(ls, j))
    {
      AgedTurns(ls, j);
    }
  }

  /** Aging a ready queue changes nothing. */
  lemma ReadyStays<T>(ls: Lanes<T>)
    requires Ready(ls)
    ensures Advance(ls) == ls
  {
  }

  // ---------- the ring ----------

  /** Positions wrap around by comparison as they do by remainder. */
  function Wrap(x: nat, n: nat): nat { if x >= n then x - n else x }

  lemma WrapIsMod(x: nat, n: nat)
    requires x < 2 * n
    ensures n > 0 && Wrap(x, n) == x % n
  {
    if x >= n { assert x == n * 1 + (x - n); } else { assert x == n * 0 + x; }
  }

  /** The buckets from the current one on. */
  function Turned<T>(buckets: seq<seq<Item<T>>>, current: nat): (ls: Lanes<T>)
    requires current <= |buckets|
    ensures |ls| == |buckets|
  {
    buckets[current..] + buckets[..current]
  }

  class PQueue<T> {
    const capacity: nat
    const size: nat
    var buckets: seq<seq<Item<T>>>
    var current: nat
    var last: nat
    var num: nat

    ghost function View(): (ls: Lanes<T>)
      requires current <= |buckets|
      reads this
    {
      Turned(buckets, current)
    }

    ghost predicate Valid()
      reads this
    {
      && size > 0 && |buckets| == size && current < size && last == (if current == 0 then size - 1 else current - 1)
      && num == Count(View())
    }

    constructor (capacity_: nat, latency: nat)
      ensures Valid() && capacity == capacity_ && View() == Empty(latency + 1)
    {
      capacity := capacity_;
      size := latency + 1;
      buckets := Empty(latency + 1);
      current, last, num := 0, latency, 0;
      new;
      assert View() == Empty(latency + 1);
      FlatEmpty<T>(latency + 1);
      FlatCount(View());
    }

    method IsReady() returns (r: bool)
      requires Valid()
      ensures r == Ready(View())
    {
      r := buckets[current] != [];
      assert View()[0] == buckets[current];
    }

    /** The insertion loop stops at the first entry of lower priority. */
    method Insert(xs: seq<Item<T>>, x: Item<T>) returns (ys: seq<Item<T>>)
      ensures ys == Ranked(xs, x)
    {
      var k := 0;
      while k < |xs| && !(xs[k].priority < x.priority)
        invariant k <= |xs| && Spot(xs, x) == k + Spot(xs[k..], x)
      {
        assert xs[k..][1..] == xs[k + 1..];
        k := k + 1;
      }
      ys := xs[..k] + [x] + xs[k..];
      RankedAtSpot(xs, x);
    }

    method Put(x: Item<T>)
      requires Valid() && num < capacity
      modifies this
      ensures Valid() && View() == Enqueue(old(View()), x)
    {
      ghost var was := View();
      var ys := Insert(buckets[last], x);
      assert was[size - 1] == buckets[last];
      buckets := buckets[last := ys];
      num := num + 1;
      assert View() == Enqueue(was, x);
      CountEnqueue(was, x);
    }

    method Take() returns (data: T)
      requires Valid() && Ready(View())
      modifies this
      ensures Valid() && data == old(View())[0][0].data && View() == Dequeue(old(View()))
    {
      ghost var was := View();
      assert was[0] == buckets[current];
      data := buckets[current][0].data;
      buckets := buckets[current := buckets[current][1..]];
      num := num - 1;
      assert View() == Dequeue(was);
      DequeueFifo(was);
      FlatCount(was);
      FlatCount(View());
    }

    method Age()
      requires Valid()
      modifies this
      ensures Valid() && View() == Advance(old(View()))
    {
      ghost var was := View();
      assert was[0] == buckets[current];
      if num == 0 { return; }
      if buckets[current] != [] { return; }
      last := current;
      WrapIsMod(current + 1, size);
      current := (current + 1) % size;
      assert View() == was[1..] + [[]];
      AdvanceFifo(was);
      FlatCount(was);
      FlatCount(View());
    }

    /** The `entry`-th entry in the order of service. The count goes on after a match, so no later
        bucket matches; one past the last entry the result is not set. */
    method Peek(entry: nat) returns (data: Option<T>)
      requires Valid() && entry <= num
      ensures data == Nth(View(), entry) && (data.Some? <==> entry < num)
    {
      FlatCount(View());
      data := None;
      var count, i := 0, 0;
      while i < size
        invariant i <= size && Seen(View()[..i], entry, count, data)
      {
        WrapIsMod(current + i, size);
        var xs := buckets[(current + i) % size];
        assert xs == View()[i];
        FlatSnoc(View(), i);
        count, data := PeekIn(Flat(View()[..i]), xs, entry, count, data);
        i := i + 1;
      }
      assert View()[..size] == View();
    }

    /** The inner loop, over one bucket; `before` are the entries of earlier ones. */
    method PeekIn(ghost before: seq<Item<T>>, xs: seq<Item<T>>, entry: nat, start: nat, found: Option<T>)
      returns (count: nat, data: Option<T>)
      requires SeenIn(before, entry, start, found)
      ensures SeenIn(before + xs, entry, count, data)
    {
      count, data := start, found;
      var k := 0;
      while k < |xs|
        invariant k <= |xs| && SeenIn(before + xs[..k], entry, count, data)
      {
        assert before + xs[..k + 1] == before + xs[..k] + [xs[k]];
        count := count + 1;
        if count - 1 == entry {
          data := Some(xs[k].data);
          assert (before + xs)[entry] == xs[k];
          return;
        }
        k := k + 1;
      }
      assert xs[..k] == xs;
    }
  }

  function Nth<T>(ls: Lanes<T>, k: nat): Option<T> { if k < |Flat(ls)| then Some(Flat(ls)[k].data) else None }

  /** What `peek` knows after the entries `xs`. */
  ghost predicate SeenIn<T>(xs: seq<Item<T>>, entry: nat, count: nat, data: Option<T>) {
    match data
    case None => count == |xs| <= entry
    case Some(d) => entry < |xs| && xs[entry].data == d && entry < count
  }

  ghost predicate Seen<T>(ls: Lanes<T>, entry: nat, count: nat, data: Option<T>) {
    SeenIn(Flat(ls), entry, count, data)
  }

  lemma FlatSnoc<T>(ls: Lanes<T>, i: nat)
    requires i < |ls|
    ensures Flat(ls[..i + 1]) == Flat(ls[..i]) + ls[i]
  {
    assert ls[..i + 1] == ls[..i] + [ls[i]];
    FlatCat(ls[..i], [ls[i]]);
    assert Flat([ls[i]]) == ls[i] + Flat([]);
  }

  lemma CountEnqueue<T>(ls: Lanes<T>, x: Item<T>)
    requires ls != []
    ensures Count(Enqueue(ls, x)) == Count(ls) + 1
  {
    var n := |ls| - 1;
    assert ls == ls[..n] + [ls[n]];
    FlatCat(ls[..n], [ls[n]]);
    FlatCat(ls[..n], [Ranked(ls[n], x)]);
    assert Flat([ls[n]]) == ls[n] && Flat([Ranked(ls[n], x)]) == Ranked(ls[n], x);
    FlatCount(ls);
    FlatCount(Enqueue(ls, x));
  }
}
