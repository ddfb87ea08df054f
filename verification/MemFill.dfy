/**
 The completion callbacks under arbitrary failures and retries: what one attempt of
 `dcache_fill_line_wrapper` or `icache_fill_line_wrapper` does to the leader and to the requests
 merged under it.
 */
module MemFill {
  import opened MemLists
  import opened MemModel
  import opened MemInvariant
  import opened MemSteps
  import opened MemRelease
  import opened Options

  function Uids(s: Mem, xs: seq<Id>): seq<int> {
    if xs == [] then [] else Uids(s, xs[..|xs|-1]) + [At(s, xs[|xs|-1]).uid]
  }

  lemma GrownTrans(s: Mem, t: Mem, u: Mem)
    requires Grown(s, t) && Grown(t, u)
    ensures Grown(s, u)
  {
  }

  lemma GrownCall(s: Mem, t: Mem, id: Id, ok: bool)
    requires Attempted(s, t, id, ok)
    ensures Grown(s, t)
  {
  }

  lemma DcuDoneKeeps(cfg: Config, env: Env, s: Mem, id: Id, hole: Place, gone: seq<Id>, served: seq<Id>)
    requires Inv(cfg, s, hole, gone, served) && Alive(s, id) && At(s, id).fill == DFill
    requires id !in served && !At(s, id).done
    ensures var (t, ok) := DcuDone(cfg, env, s, id);
            && Grown(s, t) && Inv(cfg, t, hole, gone, if ok then served + [id] else served)
            && t.effects == s.effects + (if ok then [At(s, id).uid] else [])
  {
    var u := L1(At(s, id).core);
    var (t, ok) := DcuDone(cfg, env, s, id);
    var e := if ok && !cfg.cache(u).disable then Evict(cfg, s, u, env(id).victim) else s;
    if ok && !cfg.cache(u).disable { EvictKeeps(cfg, s, u, env(id).victim, hole, gone, served); }
    hide Inv;
    hide Evict;
    assert Grown(s, e) && At(e, id) == At(s, id) && Alive(e, id);
    assert Attempted(e, t, id, ok);
    CallKeeps(cfg, e, t, hole, gone, served, id, ok);
    GrownCall(e, t, id, ok);
    GrownTrans(s, e, t);
  }

  /** A request that can wait for leader `id`. */
  predicate Waits(s: Mem, id: Id, m: Id) {
    var r := At(s, m);
    Alive(s, m) && r.leader == Some(id) && r.merge == [] && CanLead(r.kind) && r.fill != NoFill && !r.done
  }

  lemma MergedWaits(s: Mem, id: Id, m: Id)
    requires Forest(s) && Alive(s, id) && m in At(s, id).merge
    ensures Waits(s, id, m) && m != id && At(s, id).leader.None?
  {
    assert TreeOk(s, id) && TreeOk(s, m);
  }

  lemma ServeKeeps(cfg: Config, env: Env, s: Mem, id: Id, m: Id, hole: Place, gone: seq<Id>, served: seq<Id>)
    requires Inv(cfg, s, hole, gone, served) && Waits(s, id, m) && m !in served
    ensures var (t, ok) := Serve(cfg, env, s, m);
            && Grown(s, t) && Inv(cfg, t, hole, gone, if ok then served + [m] else served)
            && t.effects == s.effects + (if ok then [At(s, m).uid] else [])
  {
    if At(s, m).fill == DFill {
      DcuDoneKeeps(cfg, env, s, m, hole, gone, served);
    } else {
      var t := Serve(cfg, env, s, m).0;
      assert Attempted(s, t, m, true);
      CallKeeps(cfg, s, t, hole, gone, served, m, true);
      GrownCall(s, t, m, true);
    }
  }

  /** The served requests, in order, among the merged ones. */
  ghost predicate Among(ds: seq<Id>, ms: seq<Id>) {
    && Distinct(ds) && (forall m :: m in ds ==> m in ms)
    && |ds| <= |ms| && (|ds| == |ms| ==> ds == ms)
  }

  lemma AmongNext(ds: seq<Id>, ms: seq<Id>, m: Id, ok: bool)
    requires Among(ds, ms) && Distinct(ms + [m])
    ensures m !in ds && Among(if ok then ds + [m] else ds, ms + [m])
  {
    InitDistinct(ms, m);
    if ok { AppendDistinct(ds, m); }
  }

  lemma {:induction false} ServeEachKeeps(cfg: Config, env: Env, s: Mem, id: Id, ms: seq<Id>, hole: Place,
                                          gone: seq<Id>)
    requires Inv(cfg, s, hole, gone, []) && Distinct(ms) && forall m :: m in ms ==> Waits(s, id, m)
    ensures var (t, ds) := ServeEach(cfg, env, s, ms);
            && Grown(s, t) && Inv(cfg, t, hole, gone, ds) && Among(ds, ms)
            && t.effects == s.effects + Uids(s, ds)
  {
    hide Inv;
    hide Serve;
    hide Distinct;
    hide Waits;
    hide Grown;
    hide Among;
    if ms == [] {
      NoneServed(s);
    } else {
      var n := |ms| - 1;
      var m := ms[n];
      assert ms == ms[..n] + [m];
      InitDistinct(ms[..n], m);
      ServeEachKeeps(cfg, env, s, id, ms[..n], hole, gone);
      var (t, ds) := ServeEach(cfg, env, s, ms[..n]);
      var ok := Serve(cfg, env, t, m).1;
      AmongNext(ds, ms[..n], m, ok);
      WaitsGrown(s, t, id, m);
      ServeKeeps(cfg, env, t, id, m, hole, gone, ds);
      GrownTrans(s, t, Serve(cfg, env, t, m).0);
      UidsNext(s, ds, m);
    }
  }

  lemma NoneServed(s: Mem)
    ensures Among([], []) && Grown(s, s)
  {
  }

  lemma WaitsGrown(s: Mem, t: Mem, id: Id, m: Id)
    requires Waits(s, id, m) && Grown(s, t)
    ensures Waits(t, id, m) && At(t, m) == At(s, m)
  {
  }

  lemma UidsNext(s: Mem, ds: seq<Id>, m: Id)
    ensures Uids(s, ds + [m]) == Uids(s, ds) + [At(s, m).uid]
  {
    assert (ds + [m])[..|ds|] == ds;
  }

  // ---------- freeing the served ones ----------

  /** Requests other than the leader and those that went are untouched. */
  ghost predicate Dropped(s: Mem, t: Mem, id: Id, ds: seq<Id>) {
    && (forall x :: x != id && x !in ds ==> (x in t.reqs <==> x in s.reqs) && At(t, x) == At(s, x))
    && id in t.reqs && At(t, id) == At(s, id).(merge := At(t, id).merge)
    && (forall m :: m in At(t, id).merge <==> m in At(s, id).merge && m !in ds)
    && (forall m :: m in ds ==> m in t.reqs && At(t, m).uid == -1)
    && t.queues == s.queues && t.effects == s.effects && t.calls == s.calls && t.next == s.next
    && |t.freed| == |s.freed| + |ds| && t.freed[..|s.freed|] == s.freed
    && forall i :: 0 <= i < |ds| ==>
         t.freed[|s.freed| + i] == Freed(At(s, ds[i]).uid, At(s, ds[i]).kind, At(s, ds[i]).fill)
  }

  lemma DropOne(cfg: Config, s: Mem, id: Id, m: Id, hole: Place, gone: seq<Id>, served: seq<Id>)
    requires Inv(cfg, s, hole, gone, served) && Alive(s, id) && m in At(s, id).merge
    requires served != [] && served[0] == m && Distinct(served)
    ensures var t := Release(Unmerge(s, id, m), m);
            && Inv(cfg, t, hole, gone, served[1..]) && Removed(s, t, m) && Alive(t, id)
  {
    var t := Release(Unmerge(s, id, m), m);
    MergedWaits(s, id, m);
    forall x | x in s.reqs && x != id
      ensures m !in At(s, x).merge
    {
      OnlyLeader(cfg, s, x, m, id);
    }
    UnmergeRemoves(s, id, m);
    assert Unmerged(s, t, m, id);
    HeadGone(served);
    forall p
      ensures m !in Q(s, p)
    {
      NotQueued(s, hole, gone, p, m);
    }
    assert m in gone ==> Handled(s, hole, m);
    RemovedKeeps(cfg, s, t, m, hole, gone, served, served[1..]);
  }

  lemma OnlyLeader(cfg: Config, s: Mem, x: Id, m: Id, id: Id)
    requires Pools(cfg, s) && Forest(s) && x in s.reqs && x != id && At(s, m).leader == Some(id)
    ensures m !in At(s, x).merge
  {
    assert EntryOk(cfg, s, x);
    assert Alive(s, x) ==> TreeOk(s, x);
  }

  /** Merged requests are in no queue. */
  lemma NotQueued(s: Mem, hole: Place, gone: seq<Id>, p: Place, m: Id)
    requires Placed(s, hole, gone) && At(s, m).leader.Some?
    ensures m !in Q(s, p) && m !in gone
  {
    assert m in Q(s, p) ==> (p == hole && m in gone) || Sits(s, p, m);
    assert m in gone ==> Handled(s, hole, m);
  }

  lemma DropOneFrame(s: Mem, id: Id, m: Id)
    requires Alive(s, id) && m in At(s, id).merge && m != id && m in s.reqs && At(s, m).kind != WriteBack
    ensures Dropped(s, Release(Unmerge(s, id, m), m), id, [m])
  {
    WithoutIn(At(s, id).merge, m);
  }

  lemma DroppedTrans(s: Mem, t: Mem, u: Mem, id: Id, ds: seq<Id>, m: Id)
    requires Dropped(s, t, id, ds) && Dropped(t, u, id, [m]) && m !in ds && m != id
    ensures Dropped(s, u, id, ds + [m])
  {
    forall i | 0 <= i < |ds| + 1
      ensures var d := (ds + [m])[i]; u.freed[|s.freed| + i] == Freed(At(s, d).uid, At(s, d).kind, At(s, d).fill)
    {
      if i < |ds| { assert u.freed[..|t.freed|][|s.freed| + i] == t.freed[|s.freed| + i]; }
    }
    assert u.freed[..|s.freed|] == u.freed[..|t.freed|][..|s.freed|];
  }

  lemma {:induction false} DropEachKeeps(cfg: Config, s: Mem, id: Id, ds: seq<Id>, rest: seq<Id>, hole: Place,
                                         gone: seq<Id>)
    requires Inv(cfg, s, hole, gone, ds + rest) && Alive(s, id) && Distinct(ds + rest)
    requires forall m :: m in ds + rest ==> m in At(s, id).merge
    ensures var t := DropEach(s, id, ds); Inv(cfg, t, hole, gone, rest) && Dropped(s, t, id, ds)
  {
    hide Inv;
    if ds == [] {
      assert ds + rest == rest;
    } else {
      var n := |ds| - 1;
      var m := ds[n];
      assert ds[..n] + ([m] + rest) == ds + rest;
      assert ds == ds[..n] + [m];
      DropEachKeeps(cfg, s, id, ds[..n], [m] + rest, hole, gone);
      var t := DropEach(s, id, ds[..n]);
      DistinctParts(ds[..n], [m] + rest);
      assert ([m] + rest)[1..] == rest;
      assert m in At(t, id).merge;
      MergedKind(cfg, t, id, m, hole, gone, [m] + rest);
      DropOne(cfg, t, id, m, hole, gone, [m] + rest);
      DropOneFrame(t, id, m);
      DroppedTrans(s, t, DropEach(s, id, ds), id, ds[..n], m);
    }
  }

  lemma MergedKind(cfg: Config, s: Mem, id: Id, m: Id, hole: Place, gone: seq<Id>, served: seq<Id>)
    requires Inv(cfg, s, hole, gone, served) && Alive(s, id) && m in At(s, id).merge
    ensures m != id && m in s.reqs && At(s, m).kind != WriteBack
  {
    MergedWaits(s, id, m);
  }

  lemma DistinctParts(xs: seq<Id>, ys: seq<Id>)
    requires Distinct(xs + ys)
    ensures Distinct(xs) && Distinct(ys) && forall v :: v in ys ==> v !in xs
  {
    forall v: Id
      ensures Count(xs, v) <= 1 && Count(ys, v) <= 1 && (v in ys ==> v !in xs)
    {
      CountCat(xs, ys, v);
      assert Count(xs + ys, v) <= 1;
      CountIn(xs, v);
      CountIn(ys, v);
    }
  }

  // ---------- one attempt of the wrappers ----------

  /** What draining the merge list of `id` leaves alone. */
  ghost predicate Drained(s: Mem, t: Mem, id: Id) {
    && Alive(t, id) && At(t, id) == At(s, id).(merge := At(t, id).merge)
    && (forall p: Place :: !p.WbQ? ==> Q(t, p) == Q(s, p))
    && (forall p, x :: x in Q(s, p) ==> x in Q(t, p))
    && (forall x :: x in s.reqs && x != id && x !in At(s, id).merge ==> x in t.reqs && At(t, x) == At(s, x))
  }

  /** Of the merged requests, those still merged are as before and the others were freed. */
  ghost predicate Settled(s: Mem, t: Mem, id: Id) {
    && (forall m :: m in At(t, id).merge ==> m in At(s, id).merge)
    && forall m :: m in At(s, id).merge ==> SettledOne(s, t, id, m)
  }

  predicate SettledOne(s: Mem, t: Mem, id: Id, m: Id) {
    && m in t.reqs
    && if m in At(t, id).merge then At(t, m) == At(s, m)
       else !Alive(t, m) && Freed(At(s, m).uid, At(s, m).kind, At(s, m).fill) in t.freed
  }

  lemma ShrunkMerge(ms: seq<Id>, rest: seq<Id>, ds: seq<Id>)
    requires Among(ds, ms) && Distinct(ms) && forall m :: m in rest <==> m in ms && m !in ds
    ensures |ds| == |ms| <==> rest == []
  {
    SomeMember(rest);
    if |ds| == |ms| {
    } else if forall m :: m in ms ==> m in ds {
      Pigeonhole(ms, ds);
    } else {
      var m :| m in ms && m !in ds;
      assert m in rest;
    }
  }

  lemma AllWait(cfg: Config, s: Mem, id: Id, hole: Place, gone: seq<Id>)
    requires Inv(cfg, s, hole, gone, []) && Alive(s, id)
    ensures Distinct(At(s, id).merge) && forall m :: m in At(s, id).merge ==> Waits(s, id, m) && m in s.reqs && m != id
    ensures forall m :: m in At(s, id).merge ==> At(s, m).uid != At(s, id).uid
  {
    assert TreeOk(s, id);
    forall m | m in At(s, id).merge
      ensures Waits(s, id, m) && m in s.reqs && m != id
    {
      MergedWaits(s, id, m);
    }
  }

  lemma DrainKeeps(cfg: Config, env: Env, s: Mem, id: Id, hole: Place, gone: seq<Id>)
    requires Inv(cfg, s, hole, gone, []) && Alive(s, id)
    ensures var (t, all) := Drain(cfg, env, s, id);
            && Inv(cfg, t, hole, gone, []) && Drained(s, t, id) && (all <==> At(t, id).merge == [])
            && Settled(s, t, id)
  {
    hide Inv;
    hide ServeEach;
    hide Distinct;
    hide DropEach;
    var ms := At(s, id).merge;
    AllWait(cfg, s, id, hole, gone);
    ServeEachKeeps(cfg, env, s, id, ms, hole, gone);
    var (u, ds) := ServeEach(cfg, env, s, ms);
    assert At(u, id) == At(s, id) && Alive(u, id) && ds + [] == ds;
    DropEachKeeps(cfg, u, id, ds, [], hole, gone);
    var t := DropEach(u, id, ds);
    ShrunkMerge(ms, At(t, id).merge, ds);
    DroppedDrained(s, u, t, id, ds);
    DroppedSettled(s, u, t, id, ds);
  }

  lemma DroppedSettled(s: Mem, u: Mem, t: Mem, id: Id, ds: seq<Id>)
    requires Grown(s, u) && Dropped(u, t, id, ds) && Alive(s, id) && forall m :: m in ds ==> m in At(s, id).merge
    requires forall m :: m in At(s, id).merge ==> m in s.reqs && m != id
    ensures Settled(s, t, id)
  {
    forall m | m in At(s, id).merge
      ensures SettledOne(s, t, id, m)
    {
      if m in ds {
        var i :| 0 <= i < |ds| && ds[i] == m;
        assert t.freed[|u.freed| + i] == Freed(At(u, m).uid, At(u, m).kind, At(u, m).fill);
      }
    }
  }

  lemma DroppedDrained(s: Mem, u: Mem, t: Mem, id: Id, ds: seq<Id>)
    requires Grown(s, u) && Dropped(u, t, id, ds) && Alive(s, id) && forall m :: m in ds ==> m in At(s, id).merge
    ensures Drained(s, t, id)
  {
  }

  lemma DrainedGrown(s: Mem, t: Mem, u: Mem, id: Id)
    requires Drained(s, t, id) && Grown(t, u)
    ensures Drained(s, u, id)
  {
  }

  /** One attempt of a request's own callback: success means that it is drained and has taken
      effect; failure leaves an invariant state to retry from. */
  lemma CallbackKeeps(cfg: Config, env: Env, s: Mem, id: Id, hole: Place, gone: seq<Id>)
    requires Inv(cfg, s, hole, gone, []) && Alive(s, id) && !At(s, id).done
    ensures var (t, ok) := Callback(cfg, env, s, id);
            && Drained(s, t, id)
            && Inv(cfg, t, hole, gone, if ok && At(s, id).fill != NoFill then [id] else [])
            && (ok ==> At(t, id).merge == [])
  {
    match At(s, id).fill
    case NoFill => NoMerges(s, id);
    case DFill => DcacheKeeps(cfg, env, s, id, hole, gone);
    case IFill => IcacheKeeps(cfg, env, s, id, hole, gone);
  }

  lemma DcacheKeeps(cfg: Config, env: Env, s: Mem, id: Id, hole: Place, gone: seq<Id>)
    requires Inv(cfg, s, hole, gone, []) && Alive(s, id) && !At(s, id).done && At(s, id).fill == DFill
    ensures var (t, ok) := DcacheFill(cfg, env, s, id);
            && Drained(s, t, id) && Inv(cfg, t, hole, gone, if ok then [id] else [])
            && (ok ==> At(t, id).merge == []) && Settled(s, t, id)
  {
    hide Drain;
    hide Inv;
    hide Settled;
    DrainKeeps(cfg, env, s, id, hole, gone);
    var (t, all) := Drain(cfg, env, s, id);
    assert [] + [id] == [id];
    if all {
      DcuDoneKeeps(cfg, env, t, id, hole, gone, []);
      hide DcuDone;
      DrainedGrown(s, t, DcuDone(cfg, env, t, id).0, id);
      SettledGrown(s, t, DcuDone(cfg, env, t, id).0, id);
    } else {
      var u := Called(t, id, false);
      assert Attempted(t, u, id, false);
      CallKeeps(cfg, t, u, hole, gone, [], id, false);
      GrownCall(t, u, id, false);
      DrainedGrown(s, t, u, id);
      SettledGrown(s, t, u, id);
    }
  }

  lemma SettledGrown(s: Mem, t: Mem, u: Mem, id: Id)
    requires Settled(s, t, id) && Grown(t, u) && id in t.reqs
    ensures Settled(s, u, id)
  {
    forall m | m in At(s, id).merge
      ensures SettledOne(s, u, id, m)
    {
      assert SettledOne(s, t, id, m);
    }
  }

  lemma IcacheKeeps(cfg: Config, env: Env, s: Mem, id: Id, hole: Place, gone: seq<Id>)
    requires Inv(cfg, s, hole, gone, []) && Alive(s, id) && !At(s, id).done && At(s, id).fill == IFill
    ensures var (t, ok) := IcacheFill(cfg, env, s, id);
            && Drained(s, t, id) && Inv(cfg, t, hole, gone, if ok then [id] else [])
            && (ok ==> At(t, id).merge == [])
  {
    hide Drain;
    hide Inv;
    hide Settled;
    DrainKeeps(cfg, env, s, id, hole, gone);
    var (t, all) := Drain(cfg, env, s, id);
    var u := Called(Effect(t, id), id, all);
    assert Attempted(t, u, id, all);
    CallKeeps(cfg, t, u, hole, gone, [], id, all);
    assert [] + [id] == [id];
    GrownCall(t, u, id, all);
    DrainedGrown(s, t, u, id);
    hide Drained;
    hide Attempted;
  }

  /** Prefetches and write-backs never have merged requests. */
  lemma NoMerges(s: Mem, id: Id)
    requires Forest(s) && Alive(s, id) && (!CanLead(At(s, id).kind) || At(s, id).fill == NoFill)
    ensures At(s, id).merge == []
  {
    assert TreeOk(s, id);
    forall m: Id
      ensures m !in At(s, id).merge
    {
      assert m in At(s, id).merge ==> TreeOk(s, m);
    }
    SomeMember(At(s, id).merge);
  }

  /** A successful callback marks the request complete. */
  lemma FinishKeeps(cfg: Config, env: Env, s: Mem, id: Id, hole: Place, gone: seq<Id>)
    requires Inv(cfg, s, hole, gone, []) && id in Q(s, hole) && id !in gone
    ensures var (t, ok) := Finish(cfg, env, s, id);
            Inv(cfg, t, hole, if ok then gone + [id] else gone, []) && (!ok ==> Drained(s, t, id))
  {
    assert Sits(s, hole, id);
    CallbackKeeps(cfg, env, s, id, hole, gone);
    var (t, ok) := Callback(cfg, env, s, id);
    hide Callback;
    hide Inv;
    if ok { MarkKeeps(cfg, t, id, hole, gone, if At(s, id).fill != NoFill then [id] else []); }
  }

  lemma MarkKeeps(cfg: Config, s: Mem, id: Id, hole: Place, gone: seq<Id>, served: seq<Id>)
    requires Inv(cfg, s, hole, gone, served) && id in Q(s, hole) && id !in gone
    requires Alive(s, id) && At(s, id).leader.None? && At(s, id).merge == []
    requires served == if At(s, id).fill != NoFill then [id] else []
    ensures Inv(cfg, MarkDone(s, id), hole, gone + [id], [])
  {
    DonePlaced(s, hole, gone, id);
    MarkForest(s, id);
    MarkLogged(cfg, s, id, served);
    hide Placed;
    hide Forest;
    hide Logged;
    MarkPools(cfg, s, id);
  }

  lemma MarkPools(cfg: Config, s: Mem, id: Id)
    requires Pools(cfg, s) && Alive(s, id)
    ensures Pools(cfg, MarkDone(s, id))
  {
    assert MarkDone(s, id).reqs.Keys == s.reqs.Keys;
    hide EntryOk;
    hide CoreOk;
    SamePools(cfg, s, MarkDone(s, id));
  }

  lemma MarkForest(s: Mem, id: Id)
    requires Forest(s) && Alive(s, id) && At(s, id).leader.None? && At(s, id).merge == []
    ensures Forest(MarkDone(s, id))
  {
    hide Distinct;
    var t := MarkDone(s, id);
    forall x: Id | Alive(t, x)
      ensures TreeOk(t, x)
    {
      assert TreeOk(s, x);
    }
  }

  lemma MarkLogged(cfg: Config, s: Mem, id: Id, served: seq<Id>)
    requires Logged(s, served) && Alive(s, id) && served == if At(s, id).fill != NoFill then [id] else []
    ensures Logged(MarkDone(s, id), [])
  {
    var t := MarkDone(s, id);
    forall x | Alive(t, x)
      ensures LiveLog(t, [], x)
    {
      assert LiveLog(s, served, x);
    }
    forall i | 0 <= i < |t.freed|
      ensures FreedLog(t, t.freed[i])
    {
      assert FreedLog(s, s.freed[i]);
    }
    forall v | 0 <= v < t.next
      ensures Issued(t, v)
    {
      SameIssued(s, t, v);
    }
  }
}
