/**
 One set of a cache (src/cache.cc): lookup, LRU replacement, replacement within the CPU or GPU share
 of a partitioned cache, insertion and the per-set line counts. A set is its list of ways. Access
 times are the cycle of the last access; lines are inserted only after a miss and never invalidated.
 */
module CacheSets {
  import opened Options

  datatype Line = Line(valid: bool, tag: nat, time: nat, gpu: bool)

  /** The ways, and `m_num_cpu_line` and `m_num_gpu_line`. */
  datatype CSet = CSet(lines: seq<Line>, cpu: int, gpu: int)

  const MAX_INT := 0x7fff_ffff
  const ULLONG_MAX := 0xffff_ffff_ffff_ffff

  function Fresh(assoc: nat): CSet { CSet(seq(assoc, _ => Line(false, 0, 0, false)), 0, 0) }

  predicate Holds(l: Line, tag: nat) { l.valid && l.tag == tag }

  // ---------- lookup ----------

  /** The walk of `access_cache` over the first `n` ways. */
  function Find(lines: seq<Line>, tag: nat, n: nat): (r: Option<nat>)
    requires n <= |lines|
    ensures r.Some? ==> r.value < n && Holds(lines[r.value], tag)
    ensures r.None? ==> forall i :: 0 <= i < n ==> !Holds(lines[i], tag)
  {
    if n == 0 then None
    else
      var r := Find(lines, tag, n - 1);
      if r.Some? then r else if Holds(lines[n - 1], tag) then Some(n - 1) else None
  }

  function Access(s: CSet, tag: nat, time: nat, update: bool): (CSet, bool) {
    match Find(s.lines, tag, |s.lines|)
    case None => (s, false)
    case Some(i) =>
      (if update then s.(lines := s.lines[i := s.lines[i].(time := time)]) else s, true)
  }

  // ---------- replacement ----------

  function FirstFree(lines: seq<Line>, n: nat): (r: Option<nat>)
    requires n <= |lines|
    ensures r.Some? ==> r.value < n && !lines[r.value].valid
    ensures r.None? ==> forall i :: 0 <= i < n ==> lines[i].valid
  {
    if n == 0 then None
    else
      var r := FirstFree(lines, n - 1);
      if r.Some? then r else if !lines[n - 1].valid then Some(n - 1) else None
  }

  /** The index and time the search has after `n` ways: it starts at way 0 and MAX_INT. */
  function Oldest(lines: seq<Line>, n: nat): (r: (nat, nat))
    requires n <= |lines|
    ensures r.0 < n || r == (0, MAX_INT)
  {
    if n == 0 then (0, MAX_INT)
    else
      var r := Oldest(lines, n - 1);
      if lines[n - 1].time < r.1 then (n - 1, lines[n - 1].time) else r
  }

  /** `find_replacement_line`. */
  function Victim(lines: seq<Line>): nat {
    match FirstFree(lines, |lines|)
    case Some(i) => i
    case None => Oldest(lines, |lines|).0
  }

  /** The search within one type after `n` ways, until a free way that the quota allows. */
  function OldestOfType(lines: seq<Line>, gpu: bool, n: nat): (r: (Option<nat>, nat))
    requires n <= |lines|
    ensures r.0.Some? ==> r.0.value < n && lines[r.0.value].valid && lines[r.0.value].gpu == gpu
                          && r.1 == lines[r.0.value].time
    ensures r.0.None? ==> r.1 == ULLONG_MAX
  {
    if n == 0 then (None, ULLONG_MAX)
    else
      var r := OldestOfType(lines, gpu, n - 1);
      if lines[n - 1].valid && lines[n - 1].gpu == gpu && lines[n - 1].time < r.1
      then (Some(n - 1), lines[n - 1].time) else r
  }

  function Quota(assoc: nat, cpuWays: nat, gpu: bool): int { if gpu then assoc - cpuWays else cpuWays }

  function CountOf(s: CSet, gpu: bool): int { if gpu then s.gpu else s.cpu }

  /** `find_replacement_line_from_same_type`; none is where the source asserts. */
  function VictimOfType(s: CSet, cpuWays: nat, gpu: bool): Option<nat> {
    if CountOf(s, gpu) < Quota(|s.lines|, cpuWays, gpu) && FirstFree(s.lines, |s.lines|).Some?
    then FirstFree(s.lines, |s.lines|)
    else OldestOfType(s.lines, gpu, |s.lines|).0
  }

  /** `update_set_on_replacement` and `initialize_cache_line` of way `i`. */
  function Fill(s: CSet, i: nat, tag: nat, time: nat, gpu: bool): CSet
    requires i < |s.lines|
  {
    var was := s.lines[i];
    CSet(s.lines[i := Line(true, tag, time, gpu)],
         s.cpu - (if was.valid && !was.gpu then 1 else 0) + (if gpu then 0 else 1),
         s.gpu - (if was.valid && was.gpu then 1 else 0) + (if gpu then 1 else 0))
  }

  /** `insert_cache` without and with partitioning. */
  function Insert(s: CSet, tag: nat, time: nat, gpu: bool): CSet
    requires s.lines != []
  {
    Fill(s, Victim(s.lines), tag, time, gpu)
  }

  function InsertPartitioned(s: CSet, cpuWays: nat, tag: nat, time: nat, gpu: bool): CSet {
    match VictimOfType(s, cpuWays, gpu)
    case None => s
    case Some(i) => Fill(s, i, tag, time, gpu)
  }

  // ---------- the LRU stack ----------

  function Without(xs: seq<nat>, x: nat): (ys: seq<nat>) {
    if xs == [] then [] else (if xs[0] == x then [] else [xs[0]]) + Without(xs[1..], x)
  }

  /** The distinct lines touched, most recent first. */
  function Stack(touched: seq<nat>): seq<nat> {
    if touched == [] then []
    else [touched[|touched|-1]] + Without(Stack(touched[..|touched|-1]), touched[|touched|-1])
  }

  function Top(xs: seq<nat>, n: nat): seq<nat> { if |xs| <= n then xs else xs[..n] }

  predicate Distinct(xs: seq<nat>) { forall i, j :: 0 <= i < j < |xs| ==> xs[i] != xs[j] }

  lemma {:induction false} WithoutIn(xs: seq<nat>, x: nat)
    ensures forall y :: y in Without(xs, x) <==> y in xs && y != x
    ensures Distinct(xs) ==> Distinct(Without(xs, x))
    ensures x !in xs ==> Without(xs, x) == xs
  {
    if xs != [] {
      WithoutIn(xs[1..], x);
      assert xs == [xs[0]] + xs[1..];
      if Distinct(xs) {
        var ys := Without(xs[1..], x);
        assert forall i, j :: 0 <= i < j < |xs[1..]| ==> xs[1..][i] == xs[i + 1] && xs[1..][j] == xs[j + 1];
        assert Distinct(xs[1..]);
        assert xs[0] !in xs[1..];
      }
    }
  }

  lemma {:induction false} StackDistinct(touched: seq<nat>)
    ensures Distinct(Stack(touched))
    ensures forall x :: x in Stack(touched) <==> x in touched
  {
    if touched != [] {
      var n := |touched| - 1;
      StackDistinct(touched[..n]);
      WithoutIn(Stack(touched[..n]), touched[n]);
      assert touched == touched[..n] + [touched[n]];
    }
  }

  /** Touching a line of a list with distinct elements moves it to the front of its beginning. */
  lemma {:induction false} WithoutSplit(xs: seq<nat>, k: nat)
    requires Distinct(xs) && k < |xs|
    ensures Without(xs, xs[k]) == xs[..k] + xs[k + 1..]
  {
    if k == 0 {
      WithoutIn(xs[1..], xs[0]);
      assert xs[0] !in xs[1..];
    } else {
      assert forall i, j :: 0 <= i < j < |xs[1..]| ==> xs[1..][i] == xs[i + 1] && xs[1..][j] == xs[j + 1];
      WithoutSplit(xs[1..], k - 1);
      assert xs[..k] + xs[k + 1..] == [xs[0]] + (xs[1..][..k - 1] + xs[1..][k..]);
    }
  }

  // ---------- residency ----------

  predicate Resident(s: CSet, tag: nat) { exists i :: 0 <= i < |s.lines| && Holds(s.lines[i], tag) }

  function TimeOf(s: CSet, tag: nat): nat {
    match Find(s.lines, tag, |s.lines|)
    case None => 0
    case Some(i) => s.lines[i].time
  }

  predicate TagsDistinct(lines: seq<Line>) {
    forall i, j :: 0 <= i < j < |lines| && lines[i].valid && lines[j].valid ==> lines[i].tag != lines[j].tag
  }

  function NumValid(lines: seq<Line>): (n: nat)
    ensures n <= |lines|
  {
    if lines == [] then 0 else NumValid(lines[..|lines|-1]) + if lines[|lines|-1].valid then 1 else 0
  }

  lemma {:induction false} ValidUpdate(lines: seq<Line>, i: nat, l: Line)
    requires i < |lines|
    ensures NumValid(lines[i := l]) == NumValid(lines) - (if lines[i].valid then 1 else 0) + if l.valid then 1 else 0
  {
    var n := |lines| - 1;
    if i == n {
      assert lines[i := l][..n] == lines[..n];
    } else {
      ValidUpdate(lines[..n], i, l);
      assert lines[i := l][..n] == lines[..n][i := l];
    }
  }

  lemma {:induction false} FreeIffFewer(lines: seq<Line>)
    ensures FirstFree(lines, |lines|).Some? <==> NumValid(lines) < |lines|
    ensures FirstFree(lines, |lines|).None? ==> forall i :: 0 <= i < |lines| ==> lines[i].valid
  {
    if lines != [] {
      var n := |lines| - 1;
      FreeIffFewer(lines[..n]);
      FreePrefix(lines, n);
    }
  }

  lemma {:induction false} FreePrefix(lines: seq<Line>, n: nat)
    requires n <= |lines|
    ensures FirstFree(lines[..n], n) == FirstFree(lines, n)
    decreases n
  {
    if n > 0 {
      FreePrefix(lines, n - 1);
      FreePrefix(lines[..n], n - 1);
      assert lines[..n][..n - 1] == lines[..n - 1];
    }
  }

  /** The resident lines are the top of the stack, in order of their times. */
  ghost predicate LruOk(s: CSet, touched: seq<nat>, now: nat) {
    var top := Top(Stack(touched), |s.lines|);
    && TagsDistinct(s.lines)
    && (forall tag :: Resident(s, tag) <==> tag in top)
    && (forall i, j :: 0 <= i < j < |top| ==> TimeOf(s, top[i]) > TimeOf(s, top[j]))
    && (forall i :: 0 <= i < |s.lines| && s.lines[i].valid ==> s.lines[i].time < now)
    && NumValid(s.lines) == |top|
  }

  lemma FindWay(s: CSet, i: nat)
    requires TagsDistinct(s.lines) && i < |s.lines| && s.lines[i].valid
    ensures Find(s.lines, s.lines[i].tag, |s.lines|) == Some(i) && TimeOf(s, s.lines[i].tag) == s.lines[i].time
  {
  }

  /** A line at position `k` of the list moves to the front: within the top, the top keeps its lines;
      beyond it, or new, it pushes the last one out of a full top. */
  lemma TopMoved(xs: seq<nat>, k: nat, n: nat)
    requires Distinct(xs) && k < |xs| && n > 0
    ensures var top, top' := Top(xs, n), Top([xs[k]] + Without(xs, xs[k]), n);
            if k < n then top' == [xs[k]] + top[..k] + top[k + 1..] else top' == [xs[k]] + top[..n - 1]
  {
    hide Without;
    hide Distinct;
    WithoutSplit(xs, k);
    var ys := [xs[k]] + (xs[..k] + xs[k + 1..]);
    assert [xs[k]] + Without(xs, xs[k]) == ys && |ys| == |xs|;
    if |xs| <= n {
      assert ys == [xs[k]] + xs[..k] + xs[k + 1..];
    } else if k < n {
      CutWithin(xs, k, n);
    } else {
      CutBeyond(xs, k, n);
    }
  }

  lemma CutWithin(xs: seq<nat>, k: nat, n: nat)
    requires k < n < |xs|
    ensures ([xs[k]] + (xs[..k] + xs[k + 1..]))[..n] == [xs[k]] + xs[..n][..k] + xs[..n][k + 1..]
  {
    var head := [xs[k]] + xs[..n][..k] + xs[..n][k + 1..];
    assert [xs[k]] + (xs[..k] + xs[k + 1..]) == head + xs[n..];
    assert |head| == n;
  }

  lemma CutBeyond(xs: seq<nat>, k: nat, n: nat)
    requires 0 < n <= k < |xs|
    ensures ([xs[k]] + (xs[..k] + xs[k + 1..]))[..n] == [xs[k]] + xs[..n][..n - 1]
  {
    var head := [xs[k]] + xs[..n][..n - 1];
    assert [xs[k]] + (xs[..k] + xs[k + 1..]) == head + (xs[n - 1..k] + xs[k + 1..]);
    assert |head| == n;
  }

  lemma TopNew(xs: seq<nat>, tag: nat, n: nat)
    requires tag !in xs && n > 0
    ensures var top, top' := Top(xs, n), Top([tag] + Without(xs, tag), n);
            top' == [tag] + if |top| < n then top else top[..n - 1]
  {
    WithoutIn(xs, tag);
    hide Without;
    var ys := [tag] + xs;
    if |xs| >= n { assert ys[..n] == [tag] + xs[..n][..n - 1]; }
  }

  lemma StackTouched(touched: seq<nat>, tag: nat)
    ensures Stack(touched + [tag]) == [tag] + Without(Stack(touched), tag)
  {
    assert (touched + [tag])[..|touched|] == touched;
  }

  lemma TopDistinct(touched: seq<nat>, n: nat)
    ensures Distinct(Stack(touched)) && Distinct(Top(Stack(touched), n))
  {
    StackDistinct(touched);
  }

  // ---------- touches ----------

  /** The update of way `i` to hold `tag` at `time`, and what it does to lookups. */
  lemma TouchedWay(s: CSet, t: CSet, i: nat, tag: nat, time: nat)
    requires TagsDistinct(s.lines) && i < |s.lines| && |t.lines| == |s.lines|
    requires t.lines[i].valid && t.lines[i].tag == tag && t.lines[i].time == time
    requires forall j :: 0 <= j < |s.lines| && j != i ==> t.lines[j] == s.lines[j]
    requires forall j :: 0 <= j < |s.lines| && j != i ==> !Holds(s.lines[j], tag)
    ensures TagsDistinct(t.lines) && TimeOf(t, tag) == time
    ensures forall x :: Resident(t, x) <==> x == tag || (Resident(s, x) && !Holds(s.lines[i], x))
    ensures forall x :: x != tag && Resident(t, x) ==> TimeOf(t, x) == TimeOf(s, x)
  {
    assert Holds(t.lines[i], tag);
    FindWay(t, i);
    forall x
      ensures Resident(t, x) <==> x == tag || (Resident(s, x) && !Holds(s.lines[i], x))
      ensures x != tag && Resident(t, x) ==> TimeOf(t, x) == TimeOf(s, x)
    {
      if Resident(s, x) && !Holds(s.lines[i], x) {
        var j :| 0 <= j < |s.lines| && Holds(s.lines[j], x);
        assert Holds(t.lines[j], x);
      }
      if x != tag && Resident(t, x) {
        var j :| 0 <= j < |t.lines| && Holds(t.lines[j], x);
        assert Holds(s.lines[j], x);
        FindWay(t, j);
        FindWay(s, j);
      }
    }
  }

  predicate Falling(s: CSet, xs: seq<nat>) {
    forall i, j :: 0 <= i < j < |xs| ==> TimeOf(s, xs[i]) > TimeOf(s, xs[j])
  }

  /** The touched line is the youngest, and the others keep their order. */
  lemma FallingTouched(s: CSet, t: CSet, rest: seq<nat>, tag: nat, time: nat)
    requires Falling(s, rest) && TimeOf(t, tag) == time
    requires forall x :: x in rest ==> TimeOf(t, x) == TimeOf(s, x) && TimeOf(s, x) < time
    ensures Falling(t, [tag] + rest)
  {
    var xs := [tag] + rest;
    forall i, j | 0 <= i < j < |xs|
      ensures TimeOf(t, xs[i]) > TimeOf(t, xs[j])
    {
      assert xs[j] == rest[j - 1] && rest[j - 1] in rest;
      if i > 0 { assert xs[i] == rest[i - 1] && rest[i - 1] in rest; }
    }
  }

  lemma FallingSkips(s: CSet, top: seq<nat>, k: nat)
    requires Falling(s, top) && k < |top|
    ensures Falling(s, top[..k] + top[k + 1..])
  {
    var xs := top[..k] + top[k + 1..];
    forall i, j | 0 <= i < j < |xs|
      ensures TimeOf(s, xs[i]) > TimeOf(s, xs[j])
    {
      var a, b := if i < k then i else i + 1, if j < k then j else j + 1;
      assert xs[i] == top[a] && xs[j] == top[b];
    }
  }

  lemma ResidentTime(s: CSet, now: nat, x: nat)
    requires TagsDistinct(s.lines) && Resident(s, x)
    requires forall i :: 0 <= i < |s.lines| && s.lines[i].valid ==> s.lines[i].time < now
    ensures TimeOf(s, x) < now
  {
    var w :| 0 <= w < |s.lines| && Holds(s.lines[w], x);
    FindWay(s, w);
  }

  /** The invariant after a touch, from what the touch does to the way and to the top. */
  lemma TouchKeepsLru(s: CSet, t: CSet, touched: seq<nat>, now: nat, tag: nat, time: nat, i: nat, rest: seq<nat>)
    requires LruOk(s, touched, now) && now <= time && i < |s.lines| && |t.lines| == |s.lines|
    requires t.lines == s.lines[i := t.lines[i]] && t.lines[i].valid && t.lines[i].tag == tag && t.lines[i].time == time
    requires forall j :: 0 <= j < |s.lines| && j != i ==> !Holds(s.lines[j], tag)
    requires Top(Stack(touched + [tag]), |s.lines|) == [tag] + rest && Falling(s, rest) && tag !in rest
    requires forall x :: x in rest <==> x in Top(Stack(touched), |s.lines|) && x != tag && !Holds(s.lines[i], x)
    requires NumValid(t.lines) == 1 + |rest|
    ensures LruOk(t, touched + [tag], time + 1)
  {
    hide Stack;
    hide Find;
    TouchedWay(s, t, i, tag, time);
    forall x | x in rest
      ensures TimeOf(t, x) == TimeOf(s, x) && TimeOf(s, x) < time
    {
      ResidentTime(s, now, x);
    }
    FallingTouched(s, t, rest, tag, time);
    assert Falling(t, [tag] + rest);
  }

  lemma LruFalls(s: CSet, touched: seq<nat>, now: nat)
    requires LruOk(s, touched, now)
    ensures Falling(s, Top(Stack(touched), |s.lines|)) && NumValid(s.lines) == |Top(Stack(touched), |s.lines|)|
  {
  }

  lemma HitKeepsLru(s: CSet, touched: seq<nat>, now: nat, tag: nat, time: nat)
    requires LruOk(s, touched, now) && Resident(s, tag) && now <= time
    ensures LruOk(Access(s, tag, time, true).0, touched + [tag], time + 1)
  {
    hide Stack;
    hide Without;
    hide Falling;
    hide Distinct;
    hide NumValid;
    var t := Access(s, tag, time, true).0;
    var i := Find(s.lines, tag, |s.lines|).value;
    var rest := HitRest(s, touched, now, tag, i);
    ValidUpdate(s.lines, i, t.lines[i]);
    LruFalls(s, touched, now);
    hide LruOk;
    hide Top;
    TouchKeepsLru(s, t, touched, now, tag, time, i, rest);
  }

  /** The other lines that stay in the top of the stack when one of them is touched again. */
  lemma HitRest(s: CSet, touched: seq<nat>, now: nat, tag: nat, i: nat) returns (rest: seq<nat>)
    requires LruOk(s, touched, now) && i < |s.lines| && Holds(s.lines[i], tag) && Resident(s, tag)
    ensures var top := Top(Stack(touched), |s.lines|);
            && Top(Stack(touched + [tag]), |s.lines|) == [tag] + rest && Falling(s, rest) && tag !in rest
            && (forall x :: x in rest <==> x in top && x != tag && !Holds(s.lines[i], x)) && |top| == 1 + |rest|
    ensures forall j :: 0 <= j < |s.lines| && j != i ==> !Holds(s.lines[j], tag)
  {
    hide Stack;
    hide Without;
    hide Falling;
    hide Distinct;
    hide NumValid;
    var n, xs := |s.lines|, Stack(touched);
    var top := Top(xs, n);
    LruFalls(s, touched, now);
    assert tag in top;
    var k :| 0 <= k < |top| && top[k] == tag;
    TopDistinct(touched, n);
    StackTouched(touched, tag);
    TopMoved(xs, k, n);
    FallingSkips(s, top, k);
    rest := top[..k] + top[k + 1..];
    assert [tag] + rest == [tag] + top[..k] + top[k + 1..];
    RestOf(s, top, k, rest, i, tag);
  }

  lemma RestOf(s: CSet, top: seq<nat>, k: nat, rest: seq<nat>, i: nat, tag: nat)
    requires Distinct(top) && k < |top| && top[k] == tag && rest == top[..k] + top[k + 1..]
    requires TagsDistinct(s.lines) && i < |s.lines| && Holds(s.lines[i], tag)
    ensures forall x :: x in rest <==> x in top && x != tag && !Holds(s.lines[i], x)
    ensures forall j :: 0 <= j < |s.lines| && j != i ==> !Holds(s.lines[j], tag)
  {
    forall x
      ensures x in rest <==> x in top && x != tag
    {
      if x in top && x != tag {
        var j :| 0 <= j < |top| && top[j] == x;
        assert rest[if j < k then j else j - 1] == x;
      }
      if x in rest {
        var j :| 0 <= j < |rest| && rest[j] == x;
        assert rest[j] == top[if j < k then j else j + 1];
      }
    }
  }

  // ---------- insertions ----------

  /** With every way valid and some time below MAX_INT the search ends at the oldest way. */
  lemma {:induction false} OldestMin(lines: seq<Line>, n: nat)
    requires n <= |lines|
    ensures var (i, time) := Oldest(lines, n);
            && (forall j :: 0 <= j < n ==> time <= lines[j].time) && time <= MAX_INT
            && (time < MAX_INT ==> i < n && lines[i].time == time)
            && (time == MAX_INT ==> i == 0)
  {
    if n > 0 { OldestMin(lines, n - 1); }
  }

  /** The replacement search returns the least recently used way exactly when a way is free, or some
      way's time is below MAX_INT, or way 0 happens to be that way. */
  lemma VictimIsLruIff(lines: seq<Line>)
    requires lines != []
    ensures var v := Victim(lines);
            v < |lines| && ((!lines[v].valid || forall j :: 0 <= j < |lines| ==> lines[v].time <= lines[j].time) <==>
            ((exists j :: 0 <= j < |lines| && (!lines[j].valid || lines[j].time < MAX_INT))
             || forall j :: 0 <= j < |lines| ==> lines[0].time <= lines[j].time))
  {
    OldestMin(lines, |lines|);
  }

  /** When all times have reached MAX_INT the search takes way 0, though another is older. */
  lemma VictimNotOldest()
    ensures var lines := [Line(true, 1, MAX_INT + 1, false), Line(true, 2, MAX_INT, false)];
            Victim(lines) == 0 && lines[1].time < lines[0].time
  {
    var lines := [Line(true, 1, MAX_INT + 1, false), Line(true, 2, MAX_INT, false)];
    OldestMin(lines, 2);
    assert FirstFree(lines, 2).None?;
  }

  lemma FillFreeKeepsLru(s: CSet, touched: seq<nat>, now: nat, tag: nat, time: nat, gpu: bool)
    requires LruOk(s, touched, now) && !Resident(s, tag) && now <= time && NumValid(s.lines) < |s.lines|
    ensures s.lines != [] && LruOk(Insert(s, tag, time, gpu), touched + [tag], time + 1)
  {
    var n, xs := |s.lines|, Stack(touched);
    var top := Top(xs, n);
    FreeIffFewer(s.lines);
    var t, i := Insert(s, tag, time, gpu), Victim(s.lines);
    StackTouched(touched, tag);
    TopNew(xs, tag, n);
    ValidUpdate(s.lines, i, t.lines[i]);
    TouchKeepsLru(s, t, touched, now, tag, time, i, top);
  }

  /** The oldest way holds the last line of the top. */
  lemma OldestIsLast(s: CSet, top: seq<nat>, i: nat)
    requires TagsDistinct(s.lines) && i < |s.lines| && |top| == |s.lines| && Falling(s, top)
    requires (forall j :: 0 <= j < |s.lines| ==> s.lines[j].valid && s.lines[i].time <= s.lines[j].time)
    requires forall x :: Resident(s, x) <==> x in top
    ensures s.lines[i].tag == top[|top| - 1]
  {
    var x, y := s.lines[i].tag, top[|top| - 1];
    FindWay(s, i);
    assert Holds(s.lines[i], x) && Resident(s, x) && x in top;
    var k :| 0 <= k < |top| && top[k] == x;
    assert y in top && Resident(s, y);
    var w :| 0 <= w < |s.lines| && Holds(s.lines[w], y);
    FindWay(s, w);
    FallingLast(s, top, k);
  }

  lemma FallingLast(s: CSet, top: seq<nat>, k: nat)
    requires Falling(s, top) && k < |top|
    ensures k < |top| - 1 ==> TimeOf(s, top[k]) > TimeOf(s, top[|top| - 1])
  {
  }

  lemma EvictKeepsLru(s: CSet, touched: seq<nat>, now: nat, tag: nat, time: nat, gpu: bool)
    requires LruOk(s, touched, now) && !Resident(s, tag) && now <= time && now <= MAX_INT
    requires NumValid(s.lines) == |s.lines| > 0
    ensures LruOk(Insert(s, tag, time, gpu), touched + [tag], time + 1)
  {
    var n, xs := |s.lines|, Stack(touched);
    var top := Top(xs, n);
    FreeIffFewer(s.lines);
    OldestMin(s.lines, n);
    var t, i := Insert(s, tag, time, gpu), Victim(s.lines);
    assert s.lines[0].time < MAX_INT;
    OldestIsLast(s, top, i);
    StackTouched(touched, tag);
    TopDistinct(touched, n);
    var rest := top[..n - 1];
    PushedTop(xs, tag, n);
    ValidUpdate(s.lines, i, t.lines[i]);
    LastOut(s, top, rest, i, tag);
    TouchKeepsLru(s, t, touched, now, tag, time, i, rest);
  }

  lemma PushedTop(xs: seq<nat>, tag: nat, n: nat)
    requires Distinct(xs) && n > 0 && |xs| >= n && tag !in Top(xs, n)
    ensures Top([tag] + Without(xs, tag), n) == [tag] + Top(xs, n)[..n - 1]
  {
    if tag in xs {
      var k :| 0 <= k < |xs| && xs[k] == tag;
      forall j | 0 <= j < n
        ensures xs[j] != tag
      {
        assert Top(xs, n)[j] == xs[j] && Top(xs, n)[j] in Top(xs, n);
      }
      TopMoved(xs, k, n);
    } else {
      TopNew(xs, tag, n);
    }
  }

  lemma LastOut(s: CSet, top: seq<nat>, rest: seq<nat>, i: nat, tag: nat)
    requires Distinct(top) && top != [] && rest == top[..|top| - 1] && i < |s.lines| && tag !in top
    requires s.lines[i].valid && s.lines[i].tag == top[|top| - 1] && Falling(s, top)
    ensures forall x :: x in rest <==> x in top && x != tag && !Holds(s.lines[i], x)
    ensures Falling(s, rest)
  {
    forall x
      ensures x in rest <==> x in top && x != top[|top| - 1]
    {
      if x in rest {
        var j :| 0 <= j < |rest| && rest[j] == x;
        assert top[j] == x;
      }
    }
    forall a, b | 0 <= a < b < |rest|
      ensures TimeOf(s, rest[a]) > TimeOf(s, rest[b])
    {
      assert rest[a] == top[a] && rest[b] == top[b];
    }
  }

  // ---------- runs of one set ----------

  datatype Op = Look(tag: nat, update: bool) | Put(tag: nat, gpu: bool)

  /** An operation at its cycle. */
  datatype Step = Step(op: Op, time: nat)

  function Exec(s: CSet, st: Step): CSet
    requires s.lines != []
  {
    match st.op
    case Look(tag, update) => Access(s, tag, st.time, update).0
    case Put(tag, gpu) => Insert(s, tag, st.time, gpu)
  }

  /** Insertions follow misses; cycles grow strictly and stay below MAX_INT. */
  ghost predicate IsRun(assoc: nat, states: seq<CSet>, steps: seq<Step>) {
    && assoc > 0 && |states| == |steps| + 1 && states[0] == Fresh(assoc)
    && (forall i, j :: 0 <= i < j < |steps| ==> steps[i].time < steps[j].time)
    && (forall i :: 0 <= i < |steps| ==>
          && steps[i].time < MAX_INT && states[i].lines != [] && states[i + 1] == Exec(states[i], steps[i])
          && (steps[i].op.Put? ==> !Resident(states[i], steps[i].op.tag)))
  }

  /** The lines touched by the first `n` steps: hits that update, and insertions. */
  function Touches(states: seq<CSet>, steps: seq<Step>, n: nat): seq<nat>
    requires n <= |steps| <= |states|
  {
    if n == 0 then []
    else
      var t := Touches(states, steps, n - 1);
      var op := steps[n - 1].op;
      if op.Put? || (op.update && Resident(states[n - 1], op.tag)) then t + [op.tag] else t
  }

  lemma FreshLru(assoc: nat)
    ensures LruOk(Fresh(assoc), [], 0)
  {
    NoneValid(assoc);
  }

  lemma {:induction false} NoneValid(assoc: nat)
    ensures NumValid(Fresh(assoc).lines) == 0
  {
    if assoc > 0 {
      NoneValid(assoc - 1);
      assert Fresh(assoc).lines[..assoc - 1] == Fresh(assoc - 1).lines;
    }
  }

  lemma LaterLru(s: CSet, touched: seq<nat>, now: nat, later: nat)
    requires LruOk(s, touched, now) && now <= later
    ensures LruOk(s, touched, later)
  {
  }

  lemma StepKeepsLru(s: CSet, touched: seq<nat>, now: nat, st: Step)
    requires LruOk(s, touched, now) && now <= st.time < MAX_INT && s.lines != []
    requires st.op.Put? ==> !Resident(s, st.op.tag)
    ensures var touch := st.op.Put? || (st.op.update && Resident(s, st.op.tag));
            LruOk(Exec(s, st), if touch then touched + [st.op.tag] else touched, st.time + 1)
    ensures |Exec(s, st).lines| == |s.lines|
  {
    LaterLru(s, touched, now, st.time + 1);
    match st.op
    case Look(tag, update) =>
      if Resident(s, tag) && update { HitKeepsLru(s, touched, now, tag, st.time); }
    case Put(tag, gpu) =>
      if NumValid(s.lines) < |s.lines| { FillFreeKeepsLru(s, touched, now, tag, st.time, gpu); }
      else { EvictKeepsLru(s, touched, now, tag, st.time, gpu); }
  }

  function NextTime(steps: seq<Step>, n: nat): nat
    requires n <= |steps|
  {
    if n == 0 then 0 else steps[n - 1].time + 1
  }

  lemma {:induction false} RunLru(assoc: nat, states: seq<CSet>, steps: seq<Step>, n: nat)
    requires IsRun(assoc, states, steps) && n < |states|
    ensures LruOk(states[n], Touches(states, steps, n), NextTime(steps, n)) && |states[n].lines| == assoc
  {
    if n == 0 {
      FreshLru(assoc);
    } else {
      RunLru(assoc, states, steps, n - 1);
      if n >= 2 { assert steps[n - 2].time < steps[n - 1].time; }
      StepKeepsLru(states[n - 1], Touches(states, steps, n - 1), NextTime(steps, n - 1), steps[n - 1]);
    }
  }

  /** After any run the lines resident are exactly the `assoc` most recently touched distinct ones,
      valid tags are distinct, and a lookup hits exactly when its line is resident. */
  lemma LruResidents(assoc: nat, states: seq<CSet>, steps: seq<Step>, n: nat, tag: nat, time: nat, update: bool)
    requires IsRun(assoc, states, steps) && n < |states|
    ensures var s, stack := states[n], Stack(Touches(states, steps, n));
            && Distinct(stack) && TagsDistinct(s.lines)
            && (Resident(s, tag) <==> tag in Top(stack, assoc))
            && (Access(s, tag, time, update).1 <==> tag in Top(stack, assoc))
  {
    RunLru(assoc, states, steps, n);
    StackDistinct(Touches(states, steps, n));
  }
}
