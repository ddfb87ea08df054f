/**
 No request is completed without its data: over runs, what carries a fill was found in a cache or came back
 from memory before, and a callback is called only for such a request or for one that waits for it.
 */
module MemAnswers {
  import opened MemLists
  import opened MemModel
  import opened MemInvariant
  import opened MemSteps
  import opened MemRelease
  import opened MemFill
  import opened MemVisit
  import opened MemRequest
  import opened MemRun
  import opened MemRoutes
  import opened Options

  /** A request that stands in `p` as `r` brings data up. */
  predicate CarriesFill(p: Place, r: Req) {
    p.FillQ? || (p.OutQ? && r.stage != OutNew) || (p.Noc? && r.dst.ToFill?)
  }

  /** If it does and is no write-back, its number is in `a`. */
  predicate Backed(p: Place, r: Req, a: set<int>) {
    CarriesFill(p, r) && r.kind != WriteBack ==> r.uid in a
  }

  ghost predicate Known(s: Mem, hole: Place, gone: seq<Id>, a: set<int>) {
    forall p, id :: id in Q(s, p) ==> (p == hole && id in gone) || Backed(p, At(s, id), a)
  }

  /** The request, or one that waits for it, is the one called. */
  predicate CallFor(s: Mem, id: Id, c: Call) {
    c.uid == At(s, id).uid || exists m :: m in At(s, id).merge && c.uid == At(s, m).uid
  }

  /** Request `x` keeps its number, and so do those that still wait for it. */
  predicate Same(s: Mem, t: Mem, x: Id) {
    At(t, x).uid == At(s, x).uid && forall m :: m in At(t, x).merge ==> m in At(s, x).merge && At(t, m).uid == At(s, m).uid
  }

  ghost predicate Calm(s: Mem, t: Mem, hole: Place) {
    forall x :: x in Q(s, hole) ==> Same(s, t, x)
  }

  /** The callbacks called from `s` to `t` are for request `id`. */
  ghost predicate CalledFor(s: Mem, t: Mem, id: Id) {
    s.calls <= t.calls && forall k :: |s.calls| <= k < |t.calls| ==> CallFor(s, id, t.calls[k])
  }

  /** What one visit keeps. */
  ghost predicate Kept(s: Mem, v: (Mem, bool), hole: Place, gone: seq<Id>, id: Id, a: set<int>) {
    Known(v.0, hole, if v.1 then gone + [id] else gone, a) && Calm(s, v.0, hole)
  }

  // ---------- moving on ----------

  lemma OnlyHere(s: Mem, hole: Place, gone: seq<Id>, id: Id, q: Place)
    requires Placed(s, hole, gone) && id in Q(s, hole) && id !in gone && id in Q(s, q)
    ensures q == hole
  {
    assert Sits(s, hole, id);
    assert q == hole || Sits(s, q, id);
  }

  lemma JoinKnown(s: Mem, t: Mem, hole: Place, gone: seq<Id>, p: Place, id: Id, a: set<int>)
    requires Placed(s, hole, gone) && id in Q(s, hole) && id !in gone && Joined(s, t, p, id)
    requires Known(s, hole, gone, a) && Backed(p, At(t, id), a)
    ensures Known(t, hole, gone + [id], a)
  {
    forall q, x | x in Q(t, q)
      ensures (q == hole && x in gone + [id]) || Backed(q, At(t, x), a)
    {
      if x == id {
        if q != p { OnlyHere(s, hole, gone, id, q); }
      } else {
        assert x in Q(s, q);
      }
    }
  }

  lemma SentKept(s: Mem, v: (Mem, bool), id: Id, p: Place, g: Stage, n: nat, hole: Place, gone: seq<Id>, a: set<int>)
    requires Placed(s, hole, gone) && id in Q(s, hole) && id !in gone && Known(s, hole, gone, a)
    requires Offered(s, v, id, p, g, n)
    requires Backed(p, At(s, id).(queue := Some(p), stage := g), a)
    ensures Kept(s, v, hole, gone, id, a) && v.0.calls == s.calls
  {
    if v.1 {
      JoinKnown(s, v.0, hole, gone, p, id, a);
      JoinCalm(s, v.0, hole, p, id);
    }
    hide Placed;
  }

  lemma JoinCalm(s: Mem, t: Mem, hole: Place, p: Place, id: Id)
    requires Joined(s, t, p, id) && At(t, id).uid == At(s, id).uid && At(t, id).merge == At(s, id).merge
    ensures Calm(s, t, hole)
  {
    forall x
      ensures Same(s, t, x)
    {
    }
  }

  // ---------- completing ----------

  /** A request in a queue waits for nobody. */
  lemma NotMerged(s: Mem, hole: Place, gone: seq<Id>, id: Id, q: Place, x: Id)
    requires Forest(s) && Placed(s, hole, gone) && Alive(s, id) && x in Q(s, q)
    ensures x in s.reqs && x !in At(s, id).merge
  {
    assert TreeOk(s, id);
    if q == hole && x in gone { assert Handled(s, hole, x); } else { assert Sits(s, q, x); }
  }

  lemma DrainedKept(cfg: Config, s: Mem, t: Mem, ok: bool, hole: Place, gone: seq<Id>, id: Id, a: set<int>)
    requires Inv(cfg, s, hole, gone, []) && id in Q(s, hole) && id !in gone && Known(s, hole, gone, a)
    requires Drained(s, t, id) && !hole.WbQ?
    ensures Known(t, hole, if ok then gone + [id] else gone, a)
  {
    assert Sits(s, hole, id);
    forall q, x | x in Q(t, q)
      ensures (q == hole && x in (if ok then gone + [id] else gone)) || Backed(q, At(t, x), a)
    {
      if !q.WbQ? {
        NotMerged(s, hole, gone, id, q, x);
        if x == id { OnlyHere(s, hole, gone, id, q); }
      }
    }
  }

  /** Those that still wait for `id` are as before, and so is whoever waits for another. */
  lemma DrainCalm(cfg: Config, s: Mem, t: Mem, id: Id, hole: Place, gone: seq<Id>)
    requires Inv(cfg, s, hole, gone, []) && Alive(s, id) && At(s, id).leader.None? && Drained(s, t, id)
    requires forall m :: m in At(t, id).merge ==> m in At(s, id).merge && At(t, m).uid == At(s, m).uid
    ensures Calm(s, t, hole)
  {
    assert TreeOk(s, id);
    forall x | x in Q(s, hole)
      ensures Same(s, t, x)
    {
      NotMerged(s, hole, gone, id, hole, x);
      if x != id {
        assert At(t, x) == At(s, x);
        forall m | m in At(s, x).merge
          ensures At(t, m).uid == At(s, m).uid
        {
          MergedElsewhere(cfg, s, id, x, m, hole, gone);
        }
      }
    }
  }

  lemma MergedElsewhere(cfg: Config, s: Mem, id: Id, x: Id, m: Id, hole: Place, gone: seq<Id>)
    requires Inv(cfg, s, hole, gone, []) && Alive(s, id) && At(s, id).leader.None? && x != id && x in Q(s, hole) && m in At(s, x).merge
    ensures m in s.reqs && m != id && m !in At(s, id).merge
  {
    if x in gone { assert Handled(s, hole, x); } else { assert Sits(s, hole, x); }
    assert TreeOk(s, id) && TreeOk(s, x);
    assert TreeOk(s, m);
  }

  lemma MarkSame(s: Mem, id: Id)
    ensures forall x :: At(MarkDone(s, id), x).uid == At(s, x).uid && At(MarkDone(s, id), x).merge == At(s, x).merge
    ensures forall p :: Q(MarkDone(s, id), p) == Q(s, p)
  {
  }

  /** What completing the request changes, if it succeeds, and what its callback changes in any case. */
  lemma CallbackCalm(cfg: Config, env: Env, s: Mem, id: Id, hole: Place, gone: seq<Id>)
    requires Inv(cfg, s, hole, gone, []) && Alive(s, id) && !At(s, id).done
    ensures var t := Callback(cfg, env, s, id).0;
            forall m :: m in At(t, id).merge ==> m in At(s, id).merge && At(t, m).uid == At(s, m).uid
  {
    hide Inv;
    hide Drain;
    hide DcuDone;
    hide Settled;
    DrainKeeps(cfg, env, s, id, hole, gone);
    var (t, all) := Drain(cfg, env, s, id);
    SettledCalm(s, t, id);
    if At(s, id).fill == DFill { LaterCalm(cfg, env, t, id, hole, gone); }
  }

  lemma SettledCalm(s: Mem, t: Mem, id: Id)
    requires Settled(s, t, id)
    ensures forall m :: m in At(t, id).merge ==> m in At(s, id).merge && At(t, m).uid == At(s, m).uid
  {
    forall m | m in At(t, id).merge
      ensures m in At(s, id).merge && At(t, m).uid == At(s, m).uid
    {
      assert SettledOne(s, t, id, m);
    }
  }

  lemma LaterCalm(cfg: Config, env: Env, s: Mem, id: Id, hole: Place, gone: seq<Id>)
    requires Inv(cfg, s, hole, gone, []) && Alive(s, id) && !At(s, id).done && At(s, id).fill == DFill
    ensures var t := DcuDone(cfg, env, s, id).0;
            At(t, id).merge == At(s, id).merge && forall m :: m in At(s, id).merge ==> At(t, m).uid == At(s, m).uid
  {
    DcuDoneKeeps(cfg, env, s, id, hole, gone, []);
    assert TreeOk(s, id);
    hide Inv;
    hide DcuDone;
  }

  // ---------- who is called ----------

  /** The calls from `s` to `t` are of requests in `ms`, as numbered in `s`. */
  ghost predicate CallsAmong(s: Mem, t: Mem, ms: seq<Id>) {
    s.calls <= t.calls && forall k :: |s.calls| <= k < |t.calls| ==> CallOf(s, ms, t.calls[k])
  }

  predicate CallOf(s: Mem, ms: seq<Id>, c: Call) { exists m :: m in ms && c.uid == At(s, m).uid }

  lemma ServeCalled(cfg: Config, env: Env, s: Mem, m: Id)
    requires m in s.reqs && s.heap != m
    ensures var t := Serve(cfg, env, s, m).0;
            t.calls == s.calls || exists c: Call :: c.uid == At(s, m).uid && t.calls == s.calls + [c]
  {
    DcuDoneCalls(cfg, env, s, m);
    var t := Serve(cfg, env, s, m).0;
    hide DcuDone;
    if t.calls != s.calls { assert t.calls == s.calls + [t.calls[|t.calls|-1]]; }
  }

  lemma AmongNextCall(s: Mem, t: Mem, u: Mem, ms: seq<Id>, m: Id)
    requires CallsAmong(s, t, ms) && At(t, m).uid == At(s, m).uid
    requires u.calls == t.calls || exists c: Call :: c.uid == At(t, m).uid && u.calls == t.calls + [c]
    ensures CallsAmong(s, u, ms + [m])
  {
    forall k | |s.calls| <= k < |u.calls|
      ensures CallOf(s, ms + [m], u.calls[k])
    {
      if k < |t.calls| {
        assert u.calls[k] == t.calls[k] && CallOf(s, ms, t.calls[k]);
        var x :| x in ms && t.calls[k].uid == At(s, x).uid;
        assert x in ms + [m];
      } else {
        assert m in ms + [m];
      }
    }
  }

  lemma {:induction false} ServeEachCalled(cfg: Config, env: Env, s: Mem, id: Id, ms: seq<Id>, hole: Place, gone: seq<Id>)
    requires Inv(cfg, s, hole, gone, []) && Distinct(ms) && forall m :: m in ms ==> Waits(s, id, m)
    ensures CallsAmong(s, ServeEach(cfg, env, s, ms).0, ms)
  {
    hide Inv;
    hide Serve;
    hide Waits;
    hide Grown;
    hide Among;
    hide CallsAmong;
    if ms == [] {
      NoCalls(s);
    } else {
      var n := |ms| - 1;
      var m := ms[n];
      assert ms == ms[..n] + [m];
      InitDistinct(ms[..n], m);
      ServeEachCalled(cfg, env, s, id, ms[..n], hole, gone);
      ServeEachKeeps(cfg, env, s, id, ms[..n], hole, gone);
      var (t, ds) := ServeEach(cfg, env, s, ms[..n]);
      WaitsGrown(s, t, id, m);
      WaiterOld(cfg, t, id, m, hole, gone, ds);
      ServeCalled(cfg, env, t, m);
      AmongNextCall(s, t, Serve(cfg, env, t, m).0, ms[..n], m);
    }
  }

  lemma NoCalls(s: Mem)
    ensures CallsAmong(s, s, [])
  {
  }

  lemma WaiterOld(cfg: Config, s: Mem, id: Id, m: Id, hole: Place, gone: seq<Id>, served: seq<Id>)
    requires Inv(cfg, s, hole, gone, served) && Waits(s, id, m)
    ensures m in s.reqs && s.heap != m
  {
    assert EntryOk(cfg, s, m);
  }

  lemma CallbackCalled(cfg: Config, env: Env, s: Mem, id: Id, hole: Place, gone: seq<Id>)
    requires Inv(cfg, s, hole, gone, []) && Alive(s, id) && !At(s, id).done
    ensures CalledFor(s, Callback(cfg, env, s, id).0, id)
  {
    hide Inv;
    hide ServeEach;
    hide DropEach;
    hide DcuDone;
    hide CallsAmong;
    hide CalledFor;
    hide Settled;
    hide Waits;
    var ms := At(s, id).merge;
    AllWait(cfg, s, id, hole, gone);
    ServeEachCalled(cfg, env, s, id, ms, hole, gone);
    var (u, ds) := ServeEach(cfg, env, s, ms);
    DropEachCalls(u, id, ds);
    CallsMoved(s, u, Drain(cfg, env, s, id).0, ms);
    DrainKeeps(cfg, env, s, id, hole, gone);
    var (t, all) := Drain(cfg, env, s, id);
    HeapIsNew(cfg, t, id, hole, gone);
    DcuDoneCalls(cfg, env, t, id);
    var v := Callback(cfg, env, s, id).0;
    NoneCalled(s, id);
    OwnCall(s, t, v, id);
  }

  lemma CallsMoved(s: Mem, u: Mem, t: Mem, ms: seq<Id>)
    requires CallsAmong(s, u, ms) && t.calls == u.calls
    ensures CallsAmong(s, t, ms)
  {
  }

  lemma NoneCalled(s: Mem, id: Id)
    ensures CalledFor(s, s, id)
  {
  }

  lemma OwnCall(s: Mem, t: Mem, v: Mem, id: Id)
    requires CallsAmong(s, t, At(s, id).merge)
    ensures v.calls == t.calls ==> CalledFor(s, v, id)
    ensures forall c: Call :: c.uid == At(s, id).uid && v.calls == t.calls + [c] ==> CalledFor(s, v, id)
  {
    assert forall c: Call :: CallOf(s, At(s, id).merge, c) ==> CallFor(s, id, c);
  }

  // ---------- visits ----------

  /** One attempt to complete a request of an input or fill queue. */
  lemma FinishKept(cfg: Config, env: Env, s: Mem, id: Id, hole: Place, gone: seq<Id>, a: set<int>)
    requires Inv(cfg, s, hole, gone, []) && id in Q(s, hole) && id !in gone && Known(s, hole, gone, a) && !hole.WbQ?
    ensures Kept(s, Finish(cfg, env, s, id), hole, gone, id, a) && CalledFor(s, Finish(cfg, env, s, id).0, id)
  {
    hide Inv;
    hide Callback;
    hide Known;
    hide Calm;
    hide CalledFor;
    hide Drained;
    SitsHere(cfg, s, hole, gone, id);
    var (t, ok) := Callback(cfg, env, s, id);
    CallbackKeeps(cfg, env, s, id, hole, gone);
    DrainedKept(cfg, s, t, ok, hole, gone, id, a);
    CallbackCalm(cfg, env, s, id, hole, gone);
    DrainCalm(cfg, s, t, id, hole, gone);
    CallbackCalled(cfg, env, s, id, hole, gone);
    MarkKept(s, t, ok, hole, gone, id, a);
  }

  lemma MarkKept(s: Mem, t: Mem, ok: bool, hole: Place, gone: seq<Id>, id: Id, a: set<int>)
    requires Known(t, hole, if ok then gone + [id] else gone, a) && Calm(s, t, hole) && CalledFor(s, t, id)
    ensures Known(MarkDone(t, id), hole, if ok then gone + [id] else gone, a) && Calm(s, MarkDone(t, id), hole)
    ensures CalledFor(s, MarkDone(t, id), id)
  {
    var u := MarkDone(t, id);
    MarkSame(t, id);
    forall q, x | x in Q(u, q)
      ensures (q == hole && x in (if ok then gone + [id] else gone)) || Backed(q, At(u, x), a)
    {
      assert x in Q(t, q);
    }
    forall x | x in Q(s, hole)
      ensures Same(s, u, x)
    {
      assert Same(s, t, x);
    }
  }

  /** A visit that completes nothing calls nobody; one that does calls for the request visited. */
  ghost predicate Answers(s: Mem, v: (Mem, bool), id: Id, found: bool) {
    if found then CalledFor(s, v.0, id) else v.0.calls == s.calls
  }

  lemma VisitInKept(cfg: Config, env: Env, s: Mem, u: Unit, gone: seq<Id>, id: Id, a: set<int>)
    requires Inv(cfg, s, InQ(u), gone, []) && id in Q(s, InQ(u)) && id !in gone && Known(s, InQ(u), gone, a)
    requires var ok := Visit(cfg, env, s, LoopIn, u, id).1; ok && env(id).ready && LineThere(cfg, env, u, id) ==> At(s, id).uid in a
    ensures var v := Visit(cfg, env, s, LoopIn, u, id);
            Kept(s, v, InQ(u), gone, id, a) && Answers(s, v, id, env(id).ready && LineThere(cfg, env, u, id))
  {
    hide Inv;
    hide Finish;
    hide Known;
    hide Calm;
    hide CalledFor;
    hide Offered;
    var r, v := At(s, id), Visit(cfg, env, s, LoopIn, u, id);
    IsPlaced(cfg, s, InQ(u), gone, []);
    Unchanged(s, InQ(u), gone, id, a);
    if env(id).ready {
      if !LineThere(cfg, env, u, id) {
        MissGoesDown(cfg, env, s, u, id);
        if !WiredDown(cfg, u, r) {
          SentKept(s, v, id, OutQ(u), OutNew, 2048, InQ(u), gone, a);
        } else if !u.L3? {
          SentKept(s, v, id, InQ(Next(u, r)), r.stage, 1024, InQ(u), gone, a);
        }
      } else {
        HitKept(cfg, env, s, u, gone, id, a);
      }
    }
  }

  lemma IsPlaced(cfg: Config, s: Mem, hole: Place, gone: seq<Id>, served: seq<Id>)
    requires Inv(cfg, s, hole, gone, served)
    ensures Placed(s, hole, gone)
  {
  }

  lemma Unchanged(s: Mem, hole: Place, gone: seq<Id>, id: Id, a: set<int>)
    requires Known(s, hole, gone, a)
    ensures Kept(s, (s, false), hole, gone, id, a) && CalledFor(s, s, id)
  {
  }

  lemma HitKept(cfg: Config, env: Env, s: Mem, u: Unit, gone: seq<Id>, id: Id, a: set<int>)
    requires Inv(cfg, s, InQ(u), gone, []) && id in Q(s, InQ(u)) && id !in gone && Known(s, InQ(u), gone, a)
    requires env(id).ready && LineThere(cfg, env, u, id) && (Visit(cfg, env, s, LoopIn, u, id).1 ==> At(s, id).uid in a)
    ensures var v := Visit(cfg, env, s, LoopIn, u, id); Kept(s, v, InQ(u), gone, id, a) && CalledFor(s, v.0, id)
  {
    hide Inv;
    hide Finish;
    hide Known;
    hide Calm;
    hide CalledFor;
    hide Offered;
    var r, v := At(s, id), Visit(cfg, env, s, LoopIn, u, id);
    IsPlaced(cfg, s, InQ(u), gone, []);
    Unchanged(s, InQ(u), gone, id, a);
    HitGoesUp(cfg, env, s, u, gone, id);
    if r.kind == WriteBack {
      Unmoved(s, InQ(u), gone, id, a);
      MarkKept(s, s, true, InQ(u), gone, id, a);
    } else if cfg.cache(u).done {
      FinishKept(cfg, env, s, id, InQ(u), gone, a);
    } else if !WiredUp(cfg, u, r) {
      OfferedKept(s, v, id, OutQ(u), OutFill, 2048, InQ(u), gone, a);
    } else if u.L3? {
      OfferedKept(s, v, id, FillQ(L2(r.core)), FillNew, 1024, InQ(u), gone, a);
    }
  }

  lemma Unmoved(s: Mem, hole: Place, gone: seq<Id>, id: Id, a: set<int>)
    requires Known(s, hole, gone, a)
    ensures Known(s, hole, gone + [id], a) && Calm(s, s, hole) && CalledFor(s, s, id)
  {
  }

  lemma OfferedKept(s: Mem, v: (Mem, bool), id: Id, p: Place, g: Stage, n: nat, hole: Place, gone: seq<Id>, a: set<int>)
    requires Placed(s, hole, gone) && id in Q(s, hole) && id !in gone && Known(s, hole, gone, a)
    requires Offered(s, v, id, p, g, n) && (v.1 ==> At(s, id).kind == WriteBack || At(s, id).uid in a)
    ensures Kept(s, v, hole, gone, id, a) && v.0.calls == s.calls && CalledFor(s, v.0, id)
  {
    if v.1 { SentKept(s, v, id, p, g, n, hole, gone, a); } else { Unchanged(s, hole, gone, id, a); }
    hide Known;
    hide Calm;
    hide Placed;
  }

  lemma VisitOutKept(cfg: Config, env: Env, s: Mem, u: Unit, gone: seq<Id>, id: Id, a: set<int>)
    requires Inv(cfg, s, OutQ(u), gone, []) && id in Q(s, OutQ(u)) && id !in gone && Known(s, OutQ(u), gone, a)
    ensures var v := Visit(cfg, env, s, LoopOut, u, id);
            Kept(s, v, OutQ(u), gone, id, a) && v.0.calls == s.calls
  {
    hide Inv;
    hide Known;
    hide Calm;
    hide CalledFor;
    hide Joined;
    hide Placed;
    var r := At(s, id);
    IsPlaced(cfg, s, OutQ(u), gone, []);
    Unchanged(s, OutQ(u), gone, id, a);
    HereBacked(s, OutQ(u), gone, id, a);
    if env(id).ready && env(id).accept && Target(u, r).Some? {
      var d := Target(u, r).value;
      var t := Depart(s, id, d);
      DepartJoins(s, id, d);
      assert Backed(Noc, At(t, id), a);
      JoinKnown(s, t, OutQ(u), gone, Noc, id, a);
      JoinCalm(s, t, OutQ(u), Noc, id);
    }
  }

  lemma HereBacked(s: Mem, hole: Place, gone: seq<Id>, id: Id, a: set<int>)
    requires Known(s, hole, gone, a) && id in Q(s, hole) && id !in gone
    ensures Backed(hole, At(s, id), a)
  {
  }

  lemma VisitWbKept(cfg: Config, env: Env, s: Mem, u: Unit, gone: seq<Id>, id: Id, a: set<int>)
    requires Inv(cfg, s, WbQ(u), gone, []) && id in Q(s, WbQ(u)) && id !in gone && Known(s, WbQ(u), gone, a)
    ensures var v := Visit(cfg, env, s, LoopWb, u, id);
            Kept(s, v, WbQ(u), gone, id, a) && v.0.calls == s.calls
  {
    hide Inv;
    hide Known;
    hide Calm;
    hide CalledFor;
    hide Offered;
    hide Placed;
    var r, v := At(s, id), Visit(cfg, env, s, LoopWb, u, id);
    SitsHere(cfg, s, WbQ(u), gone, id);
    IsPlaced(cfg, s, WbQ(u), gone, []);
    Unchanged(s, WbQ(u), gone, id, a);
    if env(id).ready {
      WriteBackGoesDown(cfg, env, s, u, id);
      if Coupled(cfg, u, r) {
        OfferedKept(s, v, id, FillQ(Next(u, r)), FillNew, 1024, WbQ(u), gone, a);
      } else {
        OfferedKept(s, v, id, OutQ(u), OutWb, 2048, WbQ(u), gone, a);
      }
    }
  }

  /** An eviction only lengthens a write-back queue. */
  lemma GrownKept(cfg: Config, s: Mem, t: Mem, hole: Place, gone: seq<Id>, a: set<int>)
    requires Inv(cfg, s, hole, gone, []) && Grown(s, t) && Known(s, hole, gone, a)
    ensures Known(t, hole, gone, a) && Calm(s, t, hole)
  {
    forall q, x | x in Q(s, q)
      ensures x in s.reqs && (x in gone || Backed(q, At(s, x), a)) && forall m :: m in At(s, x).merge ==> m in s.reqs
    {
      if q == hole && x in gone { assert Handled(s, hole, x); } else { assert Sits(s, q, x); }
      assert TreeOk(s, x);
    }
    forall q, x | x in Q(t, q)
      ensures (q == hole && x in gone) || Backed(q, At(t, x), a)
    {
      if !q.WbQ? { assert x in Q(s, q); }
    }
  }

  /** A request that stays and waits. */
  lemma StagedKept(s: Mem, t: Mem, g: Stage, u: Unit, gone: seq<Id>, id: Id, a: set<int>)
    requires Known(t, FillQ(u), gone, a) && Calm(s, t, FillQ(u)) && id in Q(t, FillQ(u)) && id !in gone
    requires Placed(t, FillQ(u), gone)
    ensures Known(Staged(t, id, g), FillQ(u), gone, a) && Calm(s, Staged(t, id, g), FillQ(u))
  {
    var v := Staged(t, id, g);
    assert forall q :: Q(v, q) == Q(t, q);
    forall q, x | x in Q(v, q)
      ensures (q == FillQ(u) && x in gone) || Backed(q, At(v, x), a)
    {
      assert x in Q(t, q);
      if x == id {
        OnlyHere(t, FillQ(u), gone, id, q);
        HereBacked(t, FillQ(u), gone, id, a);
        assert At(v, id) == At(t, id).(stage := g);
      } else {
        assert At(v, x) == At(t, x);
      }
    }
    forall x | x in Q(s, FillQ(u))
      ensures Same(s, v, x)
    {
      assert Same(s, t, x);
    }
  }

  lemma WaitKept(cfg: Config, s: Mem, v: (Mem, bool), g: Stage, u: Unit, gone: seq<Id>, id: Id, a: set<int>)
    requires Kept(s, v, FillQ(u), gone, id, a) && (!v.1 ==> Placed(v.0, FillQ(u), gone) && id in Q(v.0, FillQ(u)) && id !in gone)
    ensures Kept(s, WaitIf(v, id, g), FillQ(u), gone, id, a) && WaitIf(v, id, g).0.calls == v.0.calls
  {
    hide Known;
    hide Calm;
    hide Placed;
    if !v.1 { StagedKept(s, v.0, g, u, gone, id, a); }
  }

  lemma UpKept(cfg: Config, s: Mem, u: Unit, gone: seq<Id>, id: Id, a: set<int>)
    requires Inv(cfg, s, FillQ(u), gone, []) && id in Q(s, FillQ(u)) && id !in gone && Known(s, FillQ(u), gone, a) && u.L3?
    ensures var v := WaitIf(SendUp(cfg, s, u, id), id, WaitFill);
            Kept(s, v, FillQ(u), gone, id, a) && v.0.calls == s.calls
  {
    hide Inv;
    hide Known;
    hide Calm;
    hide Offered;
    hide Placed;
    hide SendUp;
    hide Kept;
    hide CalledFor;
    var r, v := At(s, id), SendUp(cfg, s, u, id);
    IsPlaced(cfg, s, FillQ(u), gone, []);
    HereBacked(s, FillQ(u), gone, id, a);
    if !WiredUp(cfg, u, r) {
      UpOffers(cfg, s, u, id, OutQ(u), OutFill, 2048);
      OfferedKept(s, v, id, OutQ(u), OutFill, 2048, FillQ(u), gone, a);
    } else {
      UpOffers(cfg, s, u, id, FillQ(L2(r.core)), FillNew, 1024);
      OfferedKept(s, v, id, FillQ(L2(r.core)), FillNew, 1024, FillQ(u), gone, a);
    }
    SendUpRefused(cfg, s, u, id);
    WaitKept(cfg, s, v, WaitFill, u, gone, id, a);
  }

  lemma DoneKept(cfg: Config, env: Env, s: Mem, u: Unit, gone: seq<Id>, id: Id, a: set<int>)
    requires Inv(cfg, s, FillQ(u), gone, []) && id in Q(s, FillQ(u)) && id !in gone && Known(s, FillQ(u), gone, a)
    ensures Kept(s, Finish(cfg, env, s, id), FillQ(u), gone, id, a) && CalledFor(s, Finish(cfg, env, s, id).0, id)
    ensures var v := WaitIf(Finish(cfg, env, s, id), id, WaitDone);
            Kept(s, v, FillQ(u), gone, id, a) && CalledFor(s, v.0, id)
  {
    hide Inv;
    hide Known;
    hide Calm;
    hide Finish;
    hide Kept;
    FinishKept(cfg, env, s, id, FillQ(u), gone, a);
    FinishKeeps(cfg, env, s, id, FillQ(u), gone);
    FinishQueue(cfg, env, s, id, FillQ(u));
    var v := Finish(cfg, env, s, id);
    if !v.1 { IsPlaced(cfg, v.0, FillQ(u), gone, []); }
    hide Placed;
    WaitKept(cfg, s, v, WaitDone, u, gone, id, a);
  }

  lemma FilledKept(cfg: Config, env: Env, s: Mem, u: Unit, gone: seq<Id>, id: Id, a: set<int>)
    requires Wired(cfg) && Inv(cfg, s, FillQ(u), gone, []) && id in Q(s, FillQ(u)) && id !in gone && Known(s, FillQ(u), gone, a)
    ensures var v := Filled(cfg, env, s, u, id); Kept(s, v, FillQ(u), gone, id, a) && CalledFor(s, v.0, id)
  {
    SitsHere(cfg, s, FillQ(u), gone, id);
    hide Inv;
    hide Known;
    hide Calm;
    hide Finish;
    hide SendUp;
    hide CalledFor;
    Unchanged(s, FillQ(u), gone, id, a);
    Unmoved(s, FillQ(u), gone, id, a);
    if u.L2? {
      DoneKept(cfg, env, s, u, gone, id, a);
    } else if At(s, id).kind == WriteBack {
      MarkKept(s, s, true, FillQ(u), gone, id, a);
    } else {
      UpKept(cfg, s, u, gone, id, a);
      SameCallsFor(s, WaitIf(SendUp(cfg, s, u, id), id, WaitFill).0, id);
    }
  }

  lemma SameCallsFor(s: Mem, t: Mem, id: Id)
    requires t.calls == s.calls
    ensures CalledFor(s, t, id)
  {
  }

  lemma VisitFillKept(cfg: Config, env: Env, s: Mem, u: Unit, gone: seq<Id>, id: Id, a: set<int>)
    requires Wired(cfg) && Inv(cfg, s, FillQ(u), gone, []) && id in Q(s, FillQ(u)) && id !in gone && Known(s, FillQ(u), gone, a)
    requires !Full(s, WbQ(u))
    ensures var v := Visit(cfg, env, s, LoopFill, u, id); Kept(s, v, FillQ(u), gone, id, a) && CalledFor(s, v.0, id)
  {
    SitsHere(cfg, s, FillQ(u), gone, id);
    hide Inv;
    hide Known;
    hide Calm;
    hide Finish;
    hide SendUp;
    hide CalledFor;
    hide Evict;
    hide Filled;
    hide Grown;
    Unchanged(s, FillQ(u), gone, id, a);
    if env(id).ready {
      if At(s, id).stage == FillNew {
        FilledKept(cfg, env, s, u, gone, id, a);
        EvictKeeps(cfg, s, u, env(id).victim, FillQ(u), gone, []);
        var e := Evict(cfg, s, u, env(id).victim);
        GrownKept(cfg, s, e, FillQ(u), gone, a);
        GrownSits(s, e, FillQ(u), id);
        EvictCalls(cfg, s, u, env(id).victim);
        FillQueueSame(s, e, u);
        FilledKept(cfg, env, e, u, gone, id, a);
        KeptFrom(s, e, Filled(cfg, env, e, u, id), FillQ(u), gone, id, a);
      } else if At(s, id).stage == WaitDone {
        DoneKept(cfg, env, s, u, gone, id, a);
      } else {
        UpKept(cfg, s, u, gone, id, a);
        SameCallsFor(s, WaitIf(SendUp(cfg, s, u, id), id, WaitFill).0, id);
      }
    }
  }

  lemma FillQueueSame(s: Mem, t: Mem, u: Unit)
    requires Grown(s, t)
    ensures Q(t, FillQ(u)) == Q(s, FillQ(u))
  {
  }

  lemma KeptFrom(s: Mem, e: Mem, v: (Mem, bool), hole: Place, gone: seq<Id>, id: Id, a: set<int>)
    requires Calm(s, e, hole) && Q(e, hole) == Q(s, hole) && id in Q(s, hole) && e.calls == s.calls
    requires Kept(e, v, hole, gone, id, a) && CalledFor(e, v.0, id)
    ensures Kept(s, v, hole, gone, id, a) && CalledFor(s, v.0, id)
  {
    hide Known;
    CalmTrans(s, e, v.0, hole);
    assert Same(s, e, id);
    forall k | |s.calls| <= k < |v.0.calls|
      ensures CallFor(s, id, v.0.calls[k])
    {
      assert CallFor(e, id, v.0.calls[k]);
    }
  }

  lemma CalmTrans(s: Mem, t: Mem, u: Mem, hole: Place)
    requires Calm(s, t, hole) && Calm(t, u, hole) && Q(t, hole) == Q(s, hole)
    ensures Calm(s, u, hole)
  {
    forall x | x in Q(s, hole)
      ensures Same(s, u, x)
    {
      assert Same(s, t, x) && Same(t, u, x);
    }
  }

  // ---------- a whole loop ----------

  /** A visit of `x` may call: it is a fill's, or its lookup finds the line. */
  predicate Responds(cfg: Config, env: Env, l: Loop, u: Unit, x: Id) {
    match l
    case LoopIn => env(x).ready && LineThere(cfg, env, u, x)
    case LoopFill => true
    case _ => false
  }

  ghost predicate Explained(cfg: Config, env: Env, s: Mem, l: Loop, u: Unit, xs: seq<Id>, c: Call) {
    exists x :: x in xs && Responds(cfg, env, l, u, x) && CallFor(s, x, c)
  }

  ghost predicate AllExplained(cfg: Config, env: Env, s: Mem, t: Mem, l: Loop, u: Unit, xs: seq<Id>) {
    s.calls <= t.calls && forall k :: |s.calls| <= k < |t.calls| ==> Explained(cfg, env, s, l, u, xs, t.calls[k])
  }

  lemma VisitKept(cfg: Config, env: Env, s: Mem, l: Loop, u: Unit, gone: seq<Id>, id: Id, a: set<int>)
    requires Wired(cfg) && Inv(cfg, s, QueueOf(l, u), gone, []) && id in Q(s, QueueOf(l, u)) && id !in gone
    requires Known(s, QueueOf(l, u), gone, a) && (l.LoopFill? ==> !Full(s, WbQ(u)))
    requires l.LoopIn? && Visit(cfg, env, s, l, u, id).1 && Responds(cfg, env, l, u, id) ==> At(s, id).uid in a
    ensures var v := Visit(cfg, env, s, l, u, id);
            && Kept(s, v, QueueOf(l, u), gone, id, a) && Answers(s, v, id, Responds(cfg, env, l, u, id))
            && Inv(cfg, v.0, QueueOf(l, u), if v.1 then gone + [id] else gone, []) && Q(v.0, QueueOf(l, u)) == Q(s, QueueOf(l, u))
  {
    hide Inv;
    hide Known;
    hide Kept;
    hide CalledFor;
    hide VisitIn;
    hide VisitOut;
    hide VisitFill;
    hide VisitWb;
    match l
    case LoopIn =>
      VisitInKept(cfg, env, s, u, gone, id, a);
      VisitInKeeps(cfg, env, s, u, gone, id);
    case LoopOut =>
      VisitOutKept(cfg, env, s, u, gone, id, a);
      VisitOutKeeps(cfg, env, s, u, gone, id);
    case LoopFill =>
      VisitFillKept(cfg, env, s, u, gone, id, a);
      VisitFillKeeps(cfg, env, s, u, gone, id);
    case LoopWb =>
      VisitWbKept(cfg, env, s, u, gone, id, a);
      VisitWbKeeps(cfg, env, s, u, gone, id);
  }

  lemma MoreExplained(cfg: Config, env: Env, s: Mem, t: Mem, v: Mem, l: Loop, u: Unit, xs: seq<Id>, x: Id)
    requires AllExplained(cfg, env, s, t, l, u, xs) && Same(s, t, x)
    requires v.calls == t.calls || (Responds(cfg, env, l, u, x) && CalledFor(t, v, x))
    ensures AllExplained(cfg, env, s, v, l, u, xs + [x])
  {
    forall k | |s.calls| <= k < |v.calls|
      ensures Explained(cfg, env, s, l, u, xs + [x], v.calls[k])
    {
      if k < |t.calls| {
        assert v.calls[k] == t.calls[k] && Explained(cfg, env, s, l, u, xs, t.calls[k]);
        var y :| y in xs && Responds(cfg, env, l, u, y) && CallFor(s, y, t.calls[k]);
        assert y in xs + [x];
      } else {
        assert CallFor(t, x, v.calls[k]);
        assert x in xs + [x] && CallFor(s, x, v.calls[k]);
      }
    }
  }

  lemma {:induction false} ScanKept(cfg: Config, env: Env, s: Mem, l: Loop, u: Unit, xs: seq<Id>, a: set<int>)
    requires Wired(cfg) && Inv(cfg, s, QueueOf(l, u), [], []) && Distinct(xs) && Known(s, QueueOf(l, u), [], a)
    requires forall x :: x in xs ==> x in Q(s, QueueOf(l, u))
    requires l.LoopIn? ==> forall x :: x in Scan(cfg, env, s, l, u, xs).1 && Responds(cfg, env, l, u, x) ==> At(s, x).uid in a
    ensures var (t, ds) := Scan(cfg, env, s, l, u, xs);
            Known(t, QueueOf(l, u), ds, a) && Calm(s, t, QueueOf(l, u)) && AllExplained(cfg, env, s, t, l, u, xs)
  {
    hide Inv;
    hide Known;
    hide Calm;
    hide CalledFor;
    hide AllExplained;
    hide Responds;
    hide Visit;
    var hole := QueueOf(l, u);
    if xs == [] {
      Starts(cfg, env, s, l, u, hole);
    } else {
      var n := |xs| - 1;
      var x := xs[n];
      assert xs == xs[..n] + [x];
      InitDistinct(xs[..n], x);
      var (t, ds) := Scan(cfg, env, s, l, u, xs[..n]);
      ScanKept(cfg, env, s, l, u, xs[..n], a);
      ScanKeeps(cfg, env, s, l, u, xs[..n]);
      CalmAt(s, t, hole, x);
      if Stops(t, l, u, ds) {
        MoreExplained(cfg, env, s, t, t, l, u, xs[..n], x);
      } else {
        VisitKept(cfg, env, t, l, u, ds, x, a);
        var v := Visit(cfg, env, t, l, u, x);
        CalmTrans(s, t, v.0, hole);
        MoreExplained(cfg, env, s, t, v.0, l, u, xs[..n], x);
      }
    }
  }

  lemma Starts(cfg: Config, env: Env, s: Mem, l: Loop, u: Unit, hole: Place)
    ensures Calm(s, s, hole) && AllExplained(cfg, env, s, s, l, u, [])
  {
  }

  lemma CalmAt(s: Mem, t: Mem, hole: Place, x: Id)
    requires Calm(s, t, hole) && x in Q(s, hole)
    ensures Same(s, t, x)
  {
  }

  // ---------- leaving ----------

  lemma LeaveIs(cfg: Config, env: Env, s: Mem, l: Loop, u: Unit, gone: seq<Id>)
    requires Inv(cfg, s, QueueOf(l, u), gone, []) && gone != [] && (Completing(l) || NoneDone(s))
    ensures var w := Pop(s, QueueOf(l, u), gone[0]);
            Leave(cfg, env, s, l, u, gone[0]) == if At(s, gone[0]).done then Release(w, gone[0]) else w
  {
    var id, hole := gone[0], QueueOf(l, u);
    assert Handled(s, hole, id);
    if At(s, id).done {
      PopTables(cfg, s, hole, id, []);
      FreeIsRelease(cfg, env, Pop(s, hole, id), id);
    }
  }

  lemma LeaveFrame(cfg: Config, env: Env, s: Mem, l: Loop, u: Unit, gone: seq<Id>)
    requires Inv(cfg, s, QueueOf(l, u), gone, []) && gone != [] && (Completing(l) || NoneDone(s))
    ensures var t, hole := Leave(cfg, env, s, l, u, gone[0]), QueueOf(l, u);
            && t.calls == s.calls && (forall q :: q != hole ==> Q(t, q) == Q(s, q))
            && (forall x :: x in Q(t, hole) <==> x in Q(s, hole) && x != gone[0])
            && (forall x :: x != gone[0] ==> At(t, x) == At(s, x)) && (!At(s, gone[0]).done ==> t.reqs == s.reqs)
  {
    var hole := QueueOf(l, u);
    IsPlaced(cfg, s, hole, gone, []);
    assert Distinct(Q(s, hole));
    hide Inv;
    hide Placed;
    hide Leave;
    hide Distinct;
    hide Pop;
    hide Release;
    LeaveIs(cfg, env, s, l, u, gone);
    PopFrame(s, hole, gone[0]);
    ReleaseFrame(Pop(s, hole, gone[0]), gone[0]);
  }

  lemma PopFrame(s: Mem, p: Place, id: Id)
    requires Distinct(Q(s, p))
    ensures var t := Pop(s, p, id);
            && t.reqs == s.reqs && t.calls == s.calls && (forall q :: q != p ==> Q(t, q) == Q(s, q))
            && forall x :: x in Q(t, p) <==> x in Q(s, p) && x != id
  {
    WithoutIn(Q(s, p), id);
  }

  lemma ReleaseFrame(s: Mem, id: Id)
    ensures var t := Release(s, id);
            t.queues == s.queues && t.calls == s.calls && forall x :: x != id ==> At(t, x) == At(s, x)
  {
  }

  lemma LeaveKept(cfg: Config, env: Env, s: Mem, l: Loop, u: Unit, gone: seq<Id>, a: set<int>)
    requires Inv(cfg, s, QueueOf(l, u), gone, []) && gone != [] && (Completing(l) || NoneDone(s)) && Known(s, QueueOf(l, u), gone, a)
    ensures var t := Leave(cfg, env, s, l, u, gone[0]);
            && Known(t, QueueOf(l, u), gone[1..], a) && t.calls == s.calls
            && forall x :: x in Q(t, QueueOf(l, u)) <==> x in Q(s, QueueOf(l, u)) && x != gone[0]
  {
    var id, hole := gone[0], QueueOf(l, u);
    var t := Leave(cfg, env, s, l, u, id);
    LeaveFrame(cfg, env, s, l, u, gone);
    IsPlaced(cfg, s, hole, gone, []);
    HeadGone(gone);
    hide Inv;
    hide Leave;
    hide Distinct;
    forall q, x | x in Q(t, q)
      ensures (q == hole && x in gone[1..]) || Backed(q, At(t, x), a)
    {
      assert x in Q(s, q);
      if x == id { assert q != hole && Sits(s, q, x); }
    }
  }

  lemma {:induction false} LeaveEachKept(cfg: Config, env: Env, s: Mem, l: Loop, u: Unit, ds: seq<Id>, rest: seq<Id>, a: set<int>)
    requires Inv(cfg, s, QueueOf(l, u), ds + rest, []) && (Completing(l) || NoneDone(s)) && Known(s, QueueOf(l, u), ds + rest, a)
    ensures var t := LeaveEach(cfg, env, s, l, u, ds);
            && Known(t, QueueOf(l, u), rest, a) && t.calls == s.calls
            && forall x :: x in Q(t, QueueOf(l, u)) ==> x !in ds
  {
    hide Inv;
    hide Leave;
    hide Known;
    if ds == [] {
      assert ds + rest == rest;
    } else {
      var n := |ds| - 1;
      assert ds + rest == ds[..n] + ([ds[n]] + rest) && ds == ds[..n] + [ds[n]];
      LeaveEachKept(cfg, env, s, l, u, ds[..n], [ds[n]] + rest, a);
      LeaveEachKeeps(cfg, env, s, l, u, ds[..n], [ds[n]] + rest);
      LeaveKept(cfg, env, LeaveEach(cfg, env, s, l, u, ds[..n]), l, u, [ds[n]] + rest, a);
      assert ([ds[n]] + rest)[1..] == rest;
    }
  }

  // ---------- the other steps ----------

  /** As a request travels. */
  predicate SameRoute(r: Req, q: Req) {
    q.stage == r.stage && q.dst == r.dst && q.uid == r.uid && (r.kind == WriteBack ==> q.kind == WriteBack)
  }

  /** Outside the input queues nothing is added or sent on. */
  ghost predicate Fewer(s: Mem, t: Mem) {
    forall q: Place, x {:trigger x in Q(t, q)} :: x in Q(t, q) && !q.InQ? ==> x in Q(s, q) && SameRoute(At(s, x), At(t, x))
  }

  lemma FewerKnown(s: Mem, t: Mem, a: set<int>)
    requires Fewer(s, t) && Known(s, Noc, [], a)
    ensures Known(t, Noc, [], a)
  {
    forall q, x | x in Q(t, q)
      ensures Backed(q, At(t, x), a)
    {
      if !q.InQ? { assert x in Q(s, q) && SameRoute(At(s, x), At(t, x)); }
    }
  }

  lemma FewerTrans(s: Mem, t: Mem, u: Mem)
    requires Fewer(s, t) && Fewer(t, u)
    ensures Fewer(s, u)
  {
    forall q: Place, x | x in Q(u, q) && !q.InQ?
      ensures x in Q(s, q) && SameRoute(At(s, x), At(u, x))
    {
      assert x in Q(t, q) && SameRoute(At(t, x), At(u, x));
      assert SameRoute(At(s, x), At(t, x));
    }
  }

  lemma FewerRefl(s: Mem)
    ensures Fewer(s, s)
  {
  }

  /** A request that is freed and taken out of its place. */
  lemma TakenFewer(s: Mem, p: Place, id: Id)
    requires Placed(s, Noc, []) && id in Q(s, p)
    ensures Fewer(s, Release(Pop(s, p, id), id)) && Release(Pop(s, p, id), id).calls == s.calls
  {
    var t := Release(Pop(s, p, id), id);
    assert Distinct(Q(s, p));
    WithoutIn(Q(s, p), id);
    forall q: Place, x | x in Q(t, q) && !q.InQ?
      ensures x in Q(s, q) && SameRoute(At(s, x), At(t, x))
    {
      assert x in Q(s, q);
      if x == id {
        OnlyHere(s, p, [], id, q);
        assert false;
      }
    }
  }

  lemma FlushOneFewer(cfg: Config, env: Env, s: Mem, id: Id)
    requires Inv(cfg, s, Noc, [], []) && Alive(s, id) && At(s, id).kind == DPrefetch
    ensures var t := FlushOne(cfg, env, s, id); Fewer(s, t) && t.calls == s.calls
  {
    if At(s, id).queue.Some? {
      var p := At(s, id).queue.value;
      assert TreeOk(s, id) && Travels(s, id);
      FreeIsRelease(cfg, env, s, id);
      assert FlushOne(cfg, env, s, id) == Release(Pop(s, p, id), id);
      hide Fewer;
      TakenFewer(s, p, id);
    }
  }

  lemma {:induction false} FlushEachFewer(cfg: Config, env: Env, s: Mem, ds: seq<Id>)
    requires Inv(cfg, s, Noc, [], []) && Distinct(ds)
    requires forall d :: d in ds ==> Alive(s, d) && At(s, d).kind == DPrefetch
    ensures var t := FlushEach(cfg, env, s, ds); Fewer(s, t) && t.calls == s.calls
  {
    hide Inv;
    hide FlushOne;
    hide Distinct;
    hide Fewer;
    if ds == [] {
      FewerRefl(s);
    } else {
      var n := |ds| - 1;
      assert ds == ds[..n] + [ds[n]];
      InitDistinct(ds[..n], ds[n]);
      FlushEachFewer(cfg, env, s, ds[..n]);
      FlushEachKeeps(cfg, env, s, ds[..n]);
      var t := FlushEach(cfg, env, s, ds[..n]);
      assert Alive(t, ds[n]);
      FlushOneFewer(cfg, env, t, ds[n]);
      FewerTrans(s, t, FlushOne(cfg, env, t, ds[n]));
    }
  }

  lemma FlushIfFewer(cfg: Config, env: Env, s: Mem, c: nat, b: bool)
    requires Inv(cfg, s, Noc, [], [])
    ensures var t := FlushIf(cfg, env, s, c, b); Fewer(s, t) && t.calls == s.calls && Inv(cfg, t, Noc, [], [])
  {
    FewerRefl(s);
    assert CoreOk(cfg, s, c);
    IncreasingDistinct(s, Live(s, c));
    FlushListDistinct(s, Live(s, c));
    FlushEachFewer(cfg, env, s, FlushList(s, Live(s, c)));
    FlushKeeps(cfg, env, s, c);
    hide Inv;
    hide FlushEach;
    hide FlushList;
    hide Fewer;
  }

  lemma EnterFewer(cfg: Config, env: Env, s: Mem, d: Demand, found: Option<Id>)
    requires Inv(cfg, s, Noc, [], []) && d.kind != WriteBack && (found.Some? ==> CanHost(s, d, found.value))
    ensures var t := Enter(cfg, env, s, d, found).0; Fewer(s, t) && t.calls == s.calls
  {
    var f := FlushIf(cfg, env, s, d.core, Free(s, d.core) == []);
    FlushIfFewer(cfg, env, s, d.core, Free(s, d.core) == []);
    FlushIfKeeps(cfg, env, s, d, found, Free(s, d.core) == []);
    hide Inv;
    hide Fewer;
    hide FlushIf;
    hide Allocate;
    hide Merge;
    hide InsertIn;
    if Free(f, d.core) != [] {
      if found.Some? { MergedFewer(cfg, f, d, found.value); } else { QueuedFewer(cfg, f, d); }
      var t := Enter(cfg, env, s, d, found).0;
      if !(Free(s, d.core) == [] && d.kind == DPrefetch) { FewerTrans(s, f, t); }
    }
  }

  lemma MergedFewer(cfg: Config, s: Mem, d: Demand, l: Id)
    requires Inv(cfg, s, Noc, [], []) && d.kind != WriteBack && Free(s, d.core) != [] && Alive(s, l)
    ensures var id := Free(s, d.core)[|Free(s, d.core)|-1];
            var t := Merge(cfg, Allocate(cfg, s, d), l, id);
            Fewer(s, t) && t.calls == s.calls
  {
    var id := Free(s, d.core)[|Free(s, d.core)|-1];
    AddedUnlisted(cfg, s, d, id);
    hide Inv;
    hide Pools;
    hide Allocate;
    hide Merge;
    hide Fewer;
    var t := Merge(cfg, Allocate(cfg, s, d), l, id);
    MergeEnters(cfg, s, d, l);
    forall x | x != id
      ensures SameRoute(At(s, x), At(t, x))
    {
      if x != l { assert At(t, x) == At(s, x); }
    }
    NewFewer(s, t, id);
  }

  lemma QueuedFewer(cfg: Config, s: Mem, d: Demand)
    requires Inv(cfg, s, Noc, [], []) && d.kind != WriteBack && Free(s, d.core) != []
    ensures var id := Free(s, d.core)[|Free(s, d.core)|-1];
            var t := InsertIn(cfg, Allocate(cfg, s, d), L2(d.core), id).0;
            Fewer(s, t) && t.calls == s.calls
  {
    var id, u, p := Free(s, d.core)[|Free(s, d.core)|-1], Allocate(cfg, s, d), InQ(L2(d.core));
    AddedUnlisted(cfg, s, d, id);
    AllocateEnters(cfg, s, d);
    PushOffers(cfg, u, p, id);
    hide Inv;
    hide Pools;
    hide Allocate;
    hide Push;
    hide Fewer;
    var t := Push(cfg, u, p, id).0;
    assert forall q :: Q(u, q) == Q(s, q);
    NewFewer(s, t, id);
  }

  lemma AddedUnlisted(cfg: Config, s: Mem, d: Demand, id: Id)
    requires Inv(cfg, s, Noc, [], []) && Free(s, d.core) != [] && id == Free(s, d.core)[|Free(s, d.core)|-1]
    ensures Pools(cfg, s) && forall q :: id !in Q(s, q)
  {
    AllocateFree(cfg, s, d.core, id);
    forall q
      ensures id !in Q(s, q)
    {
      assert id in Q(s, q) ==> Sits(s, q, id);
    }
  }

  lemma AllocateFree(cfg: Config, s: Mem, c: nat, id: Id)
    requires Pools(cfg, s) && id in Free(s, c)
    ensures !Alive(s, id)
  {
    assert CoreOk(cfg, s, c);
  }

  /** One that stood nowhere was added, to an input queue if to any place. */
  lemma NewFewer(s: Mem, t: Mem, id: Id)
    requires forall q :: id !in Q(s, q)
    requires forall q: Place :: !q.InQ? ==> Q(t, q) == Q(s, q)
    requires forall x :: x != id ==> SameRoute(At(s, x), At(t, x))
    ensures Fewer(s, t)
  {
  }

  lemma AdjustFewer(cfg: Config, s: Mem, id: Id, d: Demand)
    requires At(s, id).kind == DPrefetch
    ensures Fewer(s, Adjust(cfg, s, id, d)) && Adjust(cfg, s, id, d).calls == s.calls
  {
  }

  lemma RequestFewer(cfg: Config, env: Env, s: Mem, d: Demand, stopped: bool)
    requires Inv(cfg, s, Noc, [], []) && OpOk(cfg, s, Request(d, stopped))
    ensures var t := NewReq(cfg, env, s, d, stopped).0; Fewer(s, t) && t.calls == s.calls
  {
    FewerRefl(s);
    SearchFindsUnmerged(cfg, s, d.core, d.addr, d.size);
    var found := Search(s, Live(s, d.core), d.addr, d.size);
    hide Search;
    hide Inv;
    hide Fewer;
    hide Enter;
    hide FlushIf;
    hide Adjust;
    if !(stopped && d.kind == DPrefetch) && !(found.Some? && d.kind == DPrefetch) {
      if found.Some? && At(s, found.value).kind == DPrefetch {
        AdjustFewer(cfg, s, found.value, d);
      } else {
        var b := Full(s, InQ(L2(d.core)));
        var f := FlushIf(cfg, env, s, d.core, b);
        FlushIfFewer(cfg, env, s, d.core, b);
        if found.Some? { HostLeads(s, d, found.value, cfg); }
        FlushIfKeeps(cfg, env, s, d, found, b);
        EnterFewer(cfg, env, f, d, found);
        FewerTrans(s, f, Enter(cfg, env, f, d, found).0);
      }
    }
  }

  lemma HostLeads(s: Mem, d: Demand, l: Id, cfg: Config)
    requires Alive(s, l) && At(s, l).core == d.core && At(s, l).leader.None? && At(s, l).kind != WriteBack
    requires At(s, l).kind != DPrefetch && Covers(At(s, l), d.addr, d.size)
    ensures CanHost(s, d, l)
  {
  }

  // ---------- packets and memory ----------

  /** A handled request leaves the list of its place. */
  lemma PopKnown(s: Mem, p: Place, id: Id, a: set<int>)
    requires Known(s, p, [id], a) && Distinct(Q(s, p))
    ensures Known(Pop(s, p, id), Noc, [], a)
  {
    var t := Pop(s, p, id);
    WithoutIn(Q(s, p), id);
    forall q, x | x in Q(t, q)
      ensures Backed(q, At(t, x), a)
    {
      assert x in Q(s, q) && At(t, x) == At(s, x);
      assert q == p ==> x !in [id];
    }
  }

  /** A request moves from place `hole` to place `p`. */
  lemma MovedOver(s: Mem, t: Mem, hole: Place, p: Place, id: Id, a: set<int>)
    requires Placed(s, Noc, []) && id in Q(s, hole) && p != hole && Joined(s, t, p, id)
    requires Known(s, Noc, [], a) && Backed(p, At(t, id), a)
    ensures Known(Pop(t, hole, id), Noc, [], a)
  {
    HoleFree(s, hole, a);
    assert Distinct(Q(s, hole)) && Q(t, hole) == Q(s, hole);
    JoinKnown(s, t, hole, [], p, id, a);
    assert [] + [id] == [id];
    hide Placed;
    hide Known;
    PopKnown(t, hole, id, a);
  }

  lemma HoleFree(s: Mem, p: Place, a: set<int>)
    requires Placed(s, Noc, []) && Known(s, Noc, [], a)
    ensures Placed(s, p, []) && Known(s, p, [], a)
  {
  }

  lemma DeliverKnown(cfg: Config, env: Env, s: Mem, id: Id, a: set<int>)
    requires Inv(cfg, s, Noc, [], []) && id in Q(s, Noc) && Known(s, Noc, [], a)
    ensures var t := Deliver(cfg, env, s, id); Known(t, Noc, [], a) && t.calls == s.calls
  {
    var r, v := At(s, id), Receive(cfg, env, s, id);
    SitsHere(cfg, s, Noc, [], id);
    IsPlaced(cfg, s, Noc, [], []);
    HereBacked(s, Noc, [], id, a);
    PacketArrives(cfg, env, s, id);
    hide Inv;
    hide Placed;
    hide Known;
    hide Receive;
    hide Joined;
    match r.dst
    case ToFill(w) =>
      if v.1 { MovedOver(s, v.0, Noc, FillQ(w), id, a); }
    case ToIn(w) =>
      if v.1 { MovedOver(s, v.0, Noc, InQ(w), id, a); }
    case ToMc =>
      if env(id).accept {
        MovedOver(s, v.0, Noc, Dram, id, a);
      } else if r.kind == DPrefetch {
        RefusedKnown(cfg, env, s, id, a);
      }
  }

  lemma RefusedKnown(cfg: Config, env: Env, s: Mem, id: Id, a: set<int>)
    requires Inv(cfg, s, Noc, [], []) && id in Q(s, Noc) && Known(s, Noc, [], a)
    requires At(s, id).kind == DPrefetch && At(s, id).dst == ToMc && !env(id).accept
    ensures var t := Deliver(cfg, env, s, id); Known(t, Noc, [], a) && t.calls == s.calls
  {
    SitsHere(cfg, s, Noc, [], id);
    FreeIsRelease(cfg, env, s, id);
    assert Pop(Release(s, id), Noc, id) == Release(Pop(s, Noc, id), id);
    hide Known;
    TakenFewer(s, Noc, id);
    FewerKnown(s, Release(Pop(s, Noc, id), id), a);
  }

  lemma ReplyKnown(cfg: Config, s: Mem, id: Id, a: set<int>)
    requires Inv(cfg, s, Noc, [], []) && id in Q(s, Dram) && Known(s, Noc, [], a) && At(s, id).uid in a
    ensures Known(Reply(s, id), Noc, [], a) && Reply(s, id).calls == s.calls
  {
    var d := ToFill(L3(At(s, id).l3));
    IsPlaced(cfg, s, Noc, [], []);
    hide Inv;
    hide Placed;
    hide Known;
    DepartJoins(s, id, d);
    MovedOver(s, Depart(s, id, d), Dram, Noc, id, a);
  }

  lemma DropKnown(cfg: Config, env: Env, s: Mem, id: Id, a: set<int>)
    requires Inv(cfg, s, Noc, [], []) && OpOk(cfg, s, McDrop(id)) && Known(s, Noc, [], a)
    ensures Known(Drop(cfg, env, s, id), Noc, [], a) && Drop(cfg, env, s, id).calls == s.calls
  {
    assert Sits(s, Dram, id);
    FreeIsRelease(cfg, env, s, id);
    assert Drop(cfg, env, s, id) == Release(Pop(s, Dram, id), id);
    hide Known;
    TakenFewer(s, Dram, id);
    FewerKnown(s, Release(Pop(s, Dram, id), id), a);
  }

  lemma ProcessKnown(cfg: Config, env: Env, s: Mem, l: Loop, u: Unit, a: set<int>)
    requires Wired(cfg) && Inv(cfg, s, Noc, [], []) && Known(s, Noc, [], a)
    requires var p, t := QueueOf(l, u), Process(cfg, env, s, l, u);
             l.LoopIn? ==> forall x :: x in Q(s, p) && x !in Q(t, p) && Responds(cfg, env, l, u, x) ==> At(s, x).uid in a
    ensures var t := Process(cfg, env, s, l, u);
            Known(t, Noc, [], a) && AllExplained(cfg, env, s, t, l, u, Q(s, QueueOf(l, u)))
  {
    var p := QueueOf(l, u);
    var xs := Q(s, p);
    HoleMoves(cfg, s, Noc, p);
    IsPlaced(cfg, s, Noc, [], []);
    HoleFree(s, p, a);
    assert Distinct(xs);
    hide Inv;
    hide Placed;
    hide Visit;
    hide Stops;
    hide Known;
    hide Calm;
    hide Responds;
    ScanKeeps(cfg, env, s, l, u, xs);
    if !Completing(l) { ScanNoneDone(cfg, env, s, l, u, xs); }
    var (t, ds) := Scan(cfg, env, s, l, u, xs);
    ScanLeaves(cfg, env, s, l, u);
    assert ds + [] == ds;
    LeaveEachKeeps(cfg, env, t, l, u, ds, []);
    assert forall x :: x in ds && l.LoopIn? && Responds(cfg, env, l, u, x) ==> At(s, x).uid in a;
    ScanKept(cfg, env, s, l, u, xs, a);
    hide Scan;
    LeaveEachKept(cfg, env, t, l, u, ds, [], a);
    var v := LeaveEach(cfg, env, t, l, u, ds);
    SameExplained(cfg, env, s, t, v, l, u, xs);
    KnownAnywhere(v, p, a);
  }

  lemma SameExplained(cfg: Config, env: Env, s: Mem, t: Mem, v: Mem, l: Loop, u: Unit, xs: seq<Id>)
    requires AllExplained(cfg, env, s, t, l, u, xs) && v.calls == t.calls
    ensures AllExplained(cfg, env, s, v, l, u, xs)
  {
    hide Explained;
  }

  lemma KnownAnywhere(s: Mem, p: Place, a: set<int>)
    requires Known(s, p, [], a)
    ensures Known(s, Noc, [], a)
  {
  }

  /** What the scan handled is no longer in the queue after the loop. */
  lemma ScanLeaves(cfg: Config, env: Env, s: Mem, l: Loop, u: Unit)
    requires Wired(cfg) && Inv(cfg, s, QueueOf(l, u), [], []) && (Completing(l) || NoneDone(s))
    ensures var p := QueueOf(l, u);
            forall x :: x in Scan(cfg, env, s, l, u, Q(s, p)).1 ==> x in Q(s, p) && x !in Q(Process(cfg, env, s, l, u), p)
  {
    var p := QueueOf(l, u);
    var xs := Q(s, p);
    IsPlaced(cfg, s, p, [], []);
    assert Distinct(xs);
    hide Inv;
    hide Placed;
    hide Visit;
    ScanKeeps(cfg, env, s, l, u, xs);
    if !Completing(l) { ScanNoneDone(cfg, env, s, l, u, xs); }
    var (t, ds) := Scan(cfg, env, s, l, u, xs);
    hide Scan;
    assert ds + [] == ds;
    var all := set q, x | q in t.queues && x in Q(t, q) :: At(t, x).uid;
    AllKnown(t, p, ds, all);
    LeaveEachKept(cfg, env, t, l, u, ds, [], all);
  }

  lemma AllKnown(s: Mem, p: Place, gone: seq<Id>, a: set<int>)
    requires a == set q, x | q in s.queues && x in Q(s, q) :: At(s, x).uid
    ensures Known(s, p, gone, a)
  {
  }

  // ---------- runs ----------

  /** The requests that step `step` from `s` to `t` found the data of: those that left an input queue whose
      cache has their line, and the one that memory sends back. */
  ghost function Found(cfg: Config, s: Mem, step: Step, t: Mem): set<int> {
    match step.op
    case Run(LoopIn, u) =>
      set x | x in Q(s, InQ(u)) && x !in Q(t, InQ(u)) && step.env(x).ready && LineThere(cfg, step.env, u, x) :: At(s, x).uid
    case McReply(id) => {At(s, id).uid}
    case _ => {}
  }

  /** Those found in the first `i` steps. */
  ghost function FoundBy(cfg: Config, states: seq<Mem>, steps: seq<Step>, i: nat): set<int>
    requires i <= |steps| < |states|
  {
    if i == 0 then {} else FoundBy(cfg, states, steps, i - 1) + Found(cfg, states[i - 1], steps[i - 1], states[i])
  }

  lemma KnownMore(s: Mem, a: set<int>, b: set<int>)
    requires Known(s, Noc, [], a) && a <= b
    ensures Known(s, Noc, [], b)
  {
    forall p, x | x in Q(s, p)
      ensures Backed(p, At(s, x), b)
    {
      assert Backed(p, At(s, x), a);
    }
  }

  lemma ExecKnown(cfg: Config, s: Mem, step: Step, a: set<int>)
    requires Wired(cfg) && Inv(cfg, s, Noc, [], []) && OpOk(cfg, s, step.op) && Known(s, Noc, [], a)
    ensures var t := Exec(cfg, s, step); Known(t, Noc, [], a + Found(cfg, s, step, t))
  {
    var t := Exec(cfg, s, step);
    var b := a + Found(cfg, s, step, t);
    KnownMore(s, a, b);
    hide Inv;
    hide Known;
    hide Process;
    match step.op
    case Request(d, stopped) =>
      RequestFewer(cfg, step.env, s, d, stopped);
      FewerKnown(s, t, b);
    case Run(l, u) => ProcessKnown(cfg, step.env, s, l, u, b);
    case Packet(id) => DeliverKnown(cfg, step.env, s, id, b);
    case McReply(id) => ReplyKnown(cfg, s, id, b);
    case McDrop(id) => DropKnown(cfg, step.env, s, id, b);
  }

  lemma {:induction false} RunKnown(cfg: Config, states: seq<Mem>, steps: seq<Step>, i: nat)
    requires Wired(cfg) && cfg.mshr <= 1024 && IsRun(cfg, states, steps) && i < |states|
    ensures Known(states[i], Noc, [], FoundBy(cfg, states, steps, i))
  {
    hide Inv;
    hide Exec;
    hide Found;
    if i == 0 {
      StartKnown(cfg);
    } else {
      RunKnown(cfg, states, steps, i - 1);
      RunInv(cfg, states, steps, i - 1);
      hide Known;
      ExecKnown(cfg, states[i - 1], steps[i - 1], FoundBy(cfg, states, steps, i - 1));
    }
  }

  lemma StartKnown(cfg: Config)
    ensures Known(Start(cfg), Noc, [], {})
  {
    StartInv(cfg);
    forall p, x | x in Q(Start(cfg), p)
      ensures false
    {
      PooledIdle(cfg, cfg.cores);
    }
  }

  /** In every run: a request, not a write-back, that stands in a fill queue, waits in an output queue to go up
      or is on its way to a fill queue has been found in a cache, or sent back by memory, before. */
  lemma AnsweredFirst(cfg: Config, states: seq<Mem>, steps: seq<Step>, i: nat, p: Place, id: Id)
    requires Wired(cfg) && cfg.mshr <= 1024 && IsRun(cfg, states, steps) && i < |states|
    requires id in Q(states[i], p) && At(states[i], id).kind != WriteBack
    requires var r := At(states[i], id);
             p.FillQ? || (p.OutQ? && r.stage != OutNew) || (p.Noc? && r.dst.ToFill?)
    ensures At(states[i], id).uid in FoundBy(cfg, states, steps, i)
  {
    RunKnown(cfg, states, steps, i);
    assert Backed(p, At(states[i], id), FoundBy(cfg, states, steps, i));
  }

  /** The request whose data step `i` may answer: one in the input queue processed that is found there, or one in
      the fill queue processed, found before or a write-back. */
  ghost predicate HasData(cfg: Config, states: seq<Mem>, steps: seq<Step>, i: nat, x: Id)
    requires i < |steps| < |states|
  {
    match steps[i].op
    case Run(LoopIn, u) => x in Q(states[i], InQ(u)) && steps[i].env(x).ready && LineThere(cfg, steps[i].env, u, x)
    case Run(LoopFill, u) =>
      x in Q(states[i], FillQ(u))
      && (At(states[i], x).kind == WriteBack || At(states[i], x).uid in FoundBy(cfg, states, steps, i))
    case _ => false
  }

  /** So every callback called in a step is of a request that has its data then, or of one that waits for such a
      request: a miss completes nobody. */
  lemma CalledWithData(cfg: Config, states: seq<Mem>, steps: seq<Step>, i: nat, k: nat)
    requires Wired(cfg) && cfg.mshr <= 1024 && IsRun(cfg, states, steps) && i < |steps|
    requires |states[i].calls| <= k < |states[i + 1].calls|
    ensures exists x :: HasData(cfg, states, steps, i, x) && CallFor(states[i], x, states[i + 1].calls[k])
  {
    RunInv(cfg, states, steps, i);
    RunKnown(cfg, states, steps, i);
    var s, step, t := states[i], steps[i], states[i + 1];
    var a := FoundBy(cfg, states, steps, i);
    var b := a + Found(cfg, s, step, t);
    KnownMore(s, a, b);
    hide Inv;
    hide Process;
    match step.op
    case Request(d, stopped) => RequestFewer(cfg, step.env, s, d, stopped);
    case Run(l, u) =>
      ProcessKnown(cfg, step.env, s, l, u, b);
      assert Explained(cfg, step.env, s, l, u, Q(s, QueueOf(l, u)), t.calls[k]);
      var x :| x in Q(s, QueueOf(l, u)) && Responds(cfg, step.env, l, u, x) && CallFor(s, x, t.calls[k]);
      assert l.LoopFill? ==> Backed(FillQ(u), At(s, x), a);
      assert HasData(cfg, states, steps, i, x);
    case Packet(id) => DeliverKnown(cfg, step.env, s, id, b);
    case McReply(id) => ReplyKnown(cfg, s, id, b);
    case McDrop(id) => DropKnown(cfg, step.env, s, id, b);
  }
}
