/** Completions, and requests leaving the miss buffers. */
module MemRelease {
  import opened MemLists
  import opened MemModel
  import opened MemInvariant
  import opened MemSteps
  import opened Options

  // ---------- the effect of a completion ----------

  lemma EffectsAppend(xs: seq<int>, x: int, u: int)
    ensures Effects(xs + [x], u) == Effects(xs, u) + (if x == u then 1 else 0)
  {
    assert (xs + [x])[..|xs|] == xs;
  }

  lemma ReleasesAppend(xs: seq<Freed>, x: Freed, u: int)
    ensures Releases(xs + [x], u) == Releases(xs, u) + (if x.uid == u then 1 else 0)
  {
    assert (xs + [x])[..|xs|] == xs;
  }

  lemma {:induction false} ReleasedOnce(xs: seq<Freed>, i: nat)
    requires i < |xs|
    ensures Releases(xs, xs[i].uid) > 0
  {
    if i < |xs| - 1 { ReleasedOnce(xs[..|xs|-1], i); }
  }

  lemma CallsAppend(xs: seq<Call>, c: Call, u: int)
    ensures Oks(xs + [c], u) == Oks(xs, u) + (if c.uid == u && c.ok then 1 else 0)
    ensures Taken(xs + [c], u) == Taken(xs, u) + (if c.uid == u && Takes(c) then 1 else 0)
  {
    assert (xs + [c])[..|xs|] == xs;
  }

  lemma {:induction false} NoOks(xs: seq<Call>, u: int)
    requires Oks(xs, u) == 0
    ensures forall i :: 0 <= i < |xs| && xs[i].uid == u ==> !xs[i].ok
  {
    if xs != [] { NoOks(xs[..|xs|-1], u); }
  }

  /** What one call of a callback records: it takes effect if it succeeds, or if it is the instruction
      cache's. */
  predicate Attempted(s: Mem, t: Mem, id: Id, ok: bool) {
    t == Called(if ok || At(s, id).fill == IFill then Effect(s, id) else s, id, ok)
  }

  lemma CallLogged(cfg: Config, s: Mem, t: Mem, served: seq<Id>, id: Id, ok: bool)
    requires Pools(cfg, s) && Logged(s, served) && Alive(s, id) && id !in served && !At(s, id).done
    requires At(s, id).fill != NoFill && Attempted(s, t, id, ok)
    ensures Logged(t, if ok then served + [id] else served)
  {
    assert LiveLog(s, served, id) && EntryOk(cfg, s, id);
    CallsLogged(s, t, id, ok);
    forall x | Alive(t, x)
      ensures LiveLog(t, if ok then served + [id] else served, x)
    {
      assert LiveLog(s, served, x);
      CallLive(s, t, served, id, ok, x);
    }
    forall i | 0 <= i < |t.freed|
      ensures FreedLog(t, t.freed[i])
    {
      assert FreedLog(s, s.freed[i]);
      ReleasedOnce(s.freed, i);
      CallFreed(s, t, id, ok, s.freed[i]);
    }
    hide LiveLog;
    hide FreedLog;
    forall v | 0 <= v < t.next
      ensures Issued(t, v)
    {
      SameIssued(s, t, v);
    }
  }

  lemma CallCounts(s: Mem, t: Mem, id: Id, ok: bool, v: int)
    requires Attempted(s, t, id, ok)
    ensures Oks(t.calls, v) == Oks(s.calls, v) + (if At(s, id).uid == v && ok then 1 else 0)
    ensures Effects(t.effects, v) == Effects(s.effects, v) + (if At(s, id).uid == v && (ok || At(s, id).fill == IFill) then 1 else 0)
  {
    EffectsAppend(s.effects, At(s, id).uid, v);
    CallsAppend(s.calls, Call(At(s, id).uid, At(s, id).fill, ok), v);
  }

  lemma CallLive(s: Mem, t: Mem, served: seq<Id>, id: Id, ok: bool, x: Id)
    requires Attempted(s, t, id, ok) && Alive(s, x) && LiveLog(s, served, x) && LiveLog(s, served, id)
    requires id !in served && !At(s, id).done && At(s, id).fill != NoFill && (x != id ==> At(s, x).uid != At(s, id).uid)
    ensures LiveLog(t, if ok then served + [id] else served, x)
  {
    CallCounts(s, t, id, ok, At(s, x).uid);
    assert At(t, x) == At(s, x);
    hide Effects;
    hide Oks;
    hide Attempted;
  }

  lemma CallFreed(s: Mem, t: Mem, id: Id, ok: bool, f: Freed)
    requires Attempted(s, t, id, ok) && FreedLog(s, f) && f.uid != At(s, id).uid
    ensures FreedLog(t, f)
  {
    CallCounts(s, t, id, ok, f.uid);
    hide Effects;
    hide Oks;
  }

  lemma CallsLogged(s: Mem, t: Mem, id: Id, ok: bool)
    requires LastOk(s.calls) && Oks(s.calls, At(s, id).uid) == 0 && Attempted(s, t, id, ok)
    requires forall u :: Effects(s.effects, u) == Taken(s.calls, u)
    ensures LastOk(t.calls) && forall u :: Effects(t.effects, u) == Taken(t.calls, u)
  {
    var c := Call(At(s, id).uid, At(s, id).fill, ok);
    assert t.calls == s.calls + [c];
    NoOks(s.calls, c.uid);
    forall u
      ensures Effects(t.effects, u) == Taken(t.calls, u)
    {
      EffectsAppend(s.effects, c.uid, u);
      CallsAppend(s.calls, c, u);
    }
  }

  lemma SameIssued(s: Mem, t: Mem, v: int)
    requires Issued(s, v) && t.freed == s.freed
    requires forall x :: Alive(s, x) ==> Alive(t, x) && At(t, x).uid == At(s, x).uid
    ensures Issued(t, v)
  {
    if Releases(t.freed, v) != 1 {
      var id :| Alive(s, id) && At(s, id).uid == v;
      assert Alive(t, id) && At(t, id).uid == v;
    }
  }

  lemma CallKeeps(cfg: Config, s: Mem, t: Mem, hole: Place, gone: seq<Id>, served: seq<Id>, id: Id, ok: bool)
    requires Inv(cfg, s, hole, gone, served) && Alive(s, id) && id !in served && !At(s, id).done
    requires At(s, id).fill != NoFill && Attempted(s, t, id, ok)
    ensures Inv(cfg, t, hole, gone, if ok then served + [id] else served)
  {
    CallLogged(cfg, s, t, served, id, ok);
    hide Logged;
    assert Pools(cfg, t) by { SameTable(cfg, s, t); }
    assert Forest(t) by { SameTable(cfg, s, t); }
    assert Placed(t, hole, gone) by { StayPlaced(s, t, hole, gone); }
  }

  lemma SameTable(cfg: Config, s: Mem, t: Mem)
    requires Pools(cfg, s) && Forest(s)
    requires t.reqs == s.reqs && t.live == s.live && t.free == s.free && t.next == s.next && t.heap == s.heap
    ensures Pools(cfg, t) && Forest(t)
  {
    SamePools(cfg, s, t);
    forall id | Alive(t, id)
      ensures TreeOk(t, id)
    {
      assert TreeOk(s, id);
    }
  }

  // ---------- leaving the miss buffers ----------

  /** The other requests only lose `id` from their merge lists. */
  predicate Unmerged(s: Mem, t: Mem, id: Id, x: Id) {
    (x in t.reqs <==> x in s.reqs) && At(t, x) == At(s, x).(merge := Without(At(s, x).merge, id))
  }

  /** `t` is `s` without request `id`, which leads no others. */
  ghost predicate Removed(s: Mem, t: Mem, id: Id) {
    var r := At(s, id);
    && id in s.reqs && r.uid >= 0 && r.merge == []
    && (forall x :: x != id ==> Unmerged(s, t, id, x))
    && (if r.kind == WriteBack then id !in t.reqs && t.live == s.live && t.free == s.free
        else
          && id in t.reqs && At(t, id) == r.(addr := 0, uid := -1)
          && (forall c: nat :: Live(t, c) == if c == r.core then Without(Live(s, c), id) else Live(s, c))
          && (forall c: nat :: Free(t, c) == if c == r.core then Free(s, c) + [id] else Free(s, c)))
    && t.next == s.next && t.heap == s.heap && t.effects == s.effects && t.calls == s.calls
    && t.freed == s.freed + [Freed(r.uid, r.kind, r.fill)] && t.queues == s.queues
  }

  lemma ReleaseRemoves(s: Mem, id: Id)
    requires Alive(s, id) && At(s, id).merge == [] && forall x :: x in s.reqs ==> id !in At(s, x).merge
    ensures Removed(s, Release(s, id), id)
  {
    var t := Release(s, id);
    forall x | x != id
      ensures Unmerged(s, t, id, x)
    {
      WithoutAbsent(At(s, x).merge, id);
    }
  }

  lemma UnmergeRemoves(s: Mem, leader: Id, id: Id)
    requires Alive(s, id) && At(s, id).merge == [] && leader != id && leader in s.reqs
    requires forall x :: x in s.reqs && x != leader ==> id !in At(s, x).merge
    ensures Removed(s, Release(Unmerge(s, leader, id), id), id)
  {
    var t := Release(Unmerge(s, leader, id), id);
    forall x | x != id
      ensures Unmerged(s, t, id, x)
    {
      if x != leader { WithoutAbsent(At(s, x).merge, id); }
    }
  }

  lemma {:induction false} WithoutIncreasing(s: Mem, t: Mem, xs: seq<Id>, id: Id)
    requires Increasing(s, xs) && forall x :: x in xs && x != id ==> At(t, x).uid == At(s, x).uid
    ensures Increasing(t, Without(xs, id))
  {
    if xs != [] {
      var n := |xs| - 1;
      WithoutIncreasing(s, t, xs[..n], id);
      WithoutIn(xs[..n], id);
      var ys := Without(xs[..n], id);
      var zs := Without(xs, id);
      forall i, j | 0 <= i < j < |zs|
        ensures At(t, zs[i]).uid < At(t, zs[j]).uid
      {
        if j == |ys| {
          assert ys[i] in ys && zs[i] == ys[i];
          var k :| 0 <= k < n && xs[k] == ys[i];
          assert xs[n] in xs && xs[k] in xs;
        }
      }
    }
  }

  /** A list sorted by id has no repetitions. */
  lemma {:induction false} IncreasingDistinct(s: Mem, xs: seq<Id>)
    requires Increasing(s, xs)
    ensures Distinct(xs)
  {
    if xs != [] {
      var n := |xs| - 1;
      IncreasingDistinct(s, xs[..n]);
      assert xs[n] !in xs[..n];
      AppendDistinct(xs[..n], xs[n]);
      assert xs == xs[..n] + [xs[n]];
    }
  }

  lemma RemovedElsewhere(cfg: Config, s: Mem, t: Mem, id: Id, c: nat)
    requires CoreOk(cfg, s, c) && Removed(s, t, id) && (At(s, id).kind == WriteBack || c != At(s, id).core)
    ensures CoreOk(cfg, t, c)
  {
    hide Distinct;
    assert Live(t, c) == Live(s, c) && Free(t, c) == Free(s, c);
    assert id !in Live(s, c) && id !in Free(s, c);
    forall x | x in Live(s, c) || x in Free(s, c)
      ensures x in t.reqs && At(t, x).uid == At(s, x).uid && At(t, x).core == c && At(t, x).kind == At(s, x).kind
    {
      assert Unmerged(s, t, id, x);
    }
  }

  lemma RemovedHome(cfg: Config, s: Mem, t: Mem, id: Id)
    requires CoreOk(cfg, s, At(s, id).core) && EntryOk(cfg, s, id) && Removed(s, t, id)
    requires At(s, id).kind != WriteBack
    ensures CoreOk(cfg, t, At(s, id).core)
  {
    hide Distinct;
    hide Without;
    var c := At(s, id).core;
    var live, free := Live(s, c), Free(s, c);
    forall x | (x in live || x in free) && x != id
      ensures x in t.reqs && At(t, x).uid == At(s, x).uid && At(t, x).core == c && At(t, x).kind == At(s, x).kind
    {
      assert Unmerged(s, t, id, x);
    }
    WithoutIncreasing(s, t, live, id);
    WithoutIn(live, id);
    IncreasingDistinct(s, live);
    WithoutOne(live, id);
    AppendDistinct(free, id);
    assert Live(t, c) == Without(live, id) && Free(t, c) == free + [id];
  }

  lemma RemovedPools(cfg: Config, s: Mem, t: Mem, id: Id)
    requires Pools(cfg, s) && Removed(s, t, id)
    ensures Pools(cfg, t)
  {
    forall x | x in t.reqs
      ensures EntryOk(cfg, t, x)
    {
      assert x != id ==> Unmerged(s, t, id, x);
      assert EntryOk(cfg, s, x);
      WithoutIn(Live(s, At(s, x).core), id);
    }
    forall c: nat
      ensures CoreOk(cfg, t, c)
    {
      assert CoreOk(cfg, s, c) && EntryOk(cfg, s, id);
      if At(s, id).kind == WriteBack || c != At(s, id).core { RemovedElsewhere(cfg, s, t, id, c); }
      else { RemovedHome(cfg, s, t, id); }
    }
    forall a, b | Alive(t, a) && Alive(t, b) && a != b
      ensures At(t, a).uid != At(t, b).uid
    {
      assert Unmerged(s, t, id, a) && Unmerged(s, t, id, b);
      assert Alive(s, a) && Alive(s, b);
    }
  }

  lemma RemovedForest(s: Mem, t: Mem, id: Id)
    requires Forest(s) && Removed(s, t, id)
    ensures Forest(t)
  {
    assert TreeOk(s, id);
    forall x: Id | Alive(t, x)
      ensures TreeOk(t, x)
    {
      assert Unmerged(s, t, id, x) && TreeOk(s, x);
      WithoutIn(At(s, x).merge, id);
      forall m: Id | m in At(t, x).merge
        ensures Alive(t, m) && At(t, m).leader == Some(x)
      {
        assert Unmerged(s, t, id, m);
      }
      if At(s, x).leader.Some? {
        var l := At(s, x).leader.value;
        assert l != id ==> Unmerged(s, t, id, l);
        assert Follows(s, x, l) && TreeOk(s, l);
        WithoutIn(At(s, l).merge, id);
        assert Without([], id) == [];
      }
    }
  }

  lemma RemovedPlaced(s: Mem, t: Mem, id: Id, hole: Place, gone: seq<Id>)
    requires Forest(s) && Placed(s, hole, gone) && Removed(s, t, id)
    requires id !in gone && forall p :: id !in Q(s, p)
    ensures Placed(t, hole, gone)
  {
    hide Without;
    hide Count;
    hide Distinct;
    forall q, x | x in Q(t, q)
      ensures (q == hole && x in gone) || Sits(t, q, x)
    {
      assert x in Q(s, q) && Unmerged(s, t, id, x);
      if !(q == hole && x in gone) { assert Sits(s, q, x); }
    }
    forall x | Travels(t, x)
      ensures Loc(At(t, x)).Some? && x in Q(t, Loc(At(t, x)).value)
    {
      assert x != id && Unmerged(s, t, id, x);
      assert Travels(s, x);
    }
    forall x | x in gone
      ensures Handled(t, hole, x)
    {
      assert Unmerged(s, t, id, x);
      assert Handled(s, hole, x);
    }
    forall x | Alive(t, x) && At(t, x).done
      ensures x in gone
    {
      assert x != id && Unmerged(s, t, id, x);
    }
    forall q
      ensures Distinct(Q(t, q))
    {
      assert Q(t, q) == Q(s, q);
    }
  }

  /** What the account must say about a request when it is freed. */
  predicate MayGo(s: Mem, served: seq<Id>, id: Id) {
    At(s, id).done || id in served || !CanLead(At(s, id).kind)
  }

  lemma RemovedLogged(cfg: Config, s: Mem, t: Mem, id: Id, served: seq<Id>, rest: seq<Id>)
    requires Pools(cfg, s) && Forest(s) && Logged(s, served) && Removed(s, t, id) && MayGo(s, served, id)
    requires forall x :: x != id ==> (x in served <==> x in rest)
    ensures Logged(t, rest)
  {
    var r := At(s, id);
    assert EntryOk(cfg, s, id) && LiveLog(s, served, id) && TreeOk(s, id);
    var f := Freed(r.uid, r.kind, r.fill);
    forall x | Alive(t, x)
      ensures LiveLog(t, rest, x)
    {
      assert x != id && Unmerged(s, t, id, x);
      assert LiveLog(s, served, x);
      ReleasesAppend(s.freed, f, At(s, x).uid);
    }
    forall i | 0 <= i < |t.freed|
      ensures FreedLog(t, t.freed[i]) && 0 <= t.freed[i].uid < t.next
    {
      if i < |s.freed| {
        assert t.freed[i] == s.freed[i];
        assert FreedLog(s, s.freed[i]);
      }
    }
    forall v | 0 <= v < t.next
      ensures Issued(t, v)
    {
      assert Issued(s, v);
      ReleasesAppend(s.freed, f, v);
      if v != r.uid && Releases(s.freed, v) != 1 {
        var x :| Alive(s, x) && At(s, x).uid == v;
        assert Unmerged(s, t, id, x);
        assert Alive(t, x) && At(t, x).uid == v;
      }
    }
  }

  lemma RemovedKeeps(cfg: Config, s: Mem, t: Mem, id: Id, hole: Place, gone: seq<Id>, served: seq<Id>, rest: seq<Id>)
    requires Inv(cfg, s, hole, gone, served) && Removed(s, t, id) && MayGo(s, served, id)
    requires id !in gone && (forall p :: id !in Q(s, p))
    requires forall x :: x != id ==> (x in served <==> x in rest)
    ensures Inv(cfg, t, hole, gone, rest)
  {
    RemovedPools(cfg, s, t, id);
    RemovedForest(s, t, id);
    RemovedPlaced(s, t, id, hole, gone);
    RemovedLogged(cfg, s, t, id, served, rest);
  }
}
