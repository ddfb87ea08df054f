/** The four queue loops keep the invariant: one visited request, one scan, one whole loop. */
module MemVisit {
  import opened MemLists
  import opened MemModel
  import opened MemInvariant
  import opened MemSteps
  import opened MemRelease
  import opened MemFill
  import opened Options

  /** The L2 completes requests and the L3 does not, in every topology of the source. */
  ghost predicate Wired(cfg: Config) {
    forall c: nat :: cfg.cache(L2(c)).done && !cfg.cache(L3(c)).done
  }

  // ---------- moving on ----------

  lemma JoinKeeps(cfg: Config, s: Mem, t: Mem, hole: Place, gone: seq<Id>, p: Place, id: Id)
    requires Inv(cfg, s, hole, gone, []) && id in Q(s, hole) && id !in gone && p != hole
    requires Joined(s, t, p, id) && SameFace(At(s, id), At(t, id))
    requires t.live == s.live && t.free == s.free && t.next == s.next && t.heap == s.heap
    requires t.effects == s.effects && t.calls == s.calls && t.freed == s.freed
    requires Loc(At(t, id)) == Some(p) && Fits(p, At(t, id))
    ensures Inv(cfg, t, hole, gone + [id], []) && Q(t, hole) == Q(s, hole)
  {
    assert Sits(s, hole, id);
    JoinMoves(s, t, p, id);
    JoinPlaced(s, t, hole, gone, p, id);
    hide Placed;
    MovedKeeps(cfg, s, t, []);
  }

  lemma MovedKeeps(cfg: Config, s: Mem, t: Mem, served: seq<Id>)
    requires Moved(s, t) && Pools(cfg, s) && Forest(s) && Logged(s, served)
    ensures Pools(cfg, t) && Forest(t) && Logged(t, served)
  {
    MovedForest(s, t);
    MovedLogged(s, t, served);
    SamePools(cfg, s, t);
  }

  /** The outcome of a visit: on success the request counts as gone. */
  ghost predicate Visited(cfg: Config, s: Mem, v: (Mem, bool), hole: Place, gone: seq<Id>, id: Id) {
    Inv(cfg, v.0, hole, if v.1 then gone + [id] else gone, []) && Q(v.0, hole) == Q(s, hole)
  }

  lemma InsertInKeeps(cfg: Config, s: Mem, u: Unit, hole: Place, gone: seq<Id>, id: Id)
    requires Inv(cfg, s, hole, gone, []) && id in Q(s, hole) && id !in gone && hole != InQ(u) && u.L3?
    ensures Visited(cfg, s, InsertIn(cfg, s, u, id), hole, gone, id)
  {
    if !Full(s, InQ(u)) {
      PushJoins(cfg, s, InQ(u), id);
      var t := Push(cfg, s, InQ(u), id).0;
      assert t == Push(cfg, s, InQ(u), id).0;
      JoinKeeps(cfg, s, t, hole, gone, InQ(u), id);
    }
  }

  lemma InsertFillKeeps(cfg: Config, s: Mem, u: Unit, hole: Place, gone: seq<Id>, id: Id)
    requires Inv(cfg, s, hole, gone, []) && id in Q(s, hole) && id !in gone && hole != FillQ(u) && !u.L1?
    ensures Visited(cfg, s, InsertFill(cfg, s, u, id), hole, gone, id)
  {
    if !Full(s, FillQ(u)) {
      PushJoins(cfg, s, FillQ(u), id);
      var t := Push(cfg, s, FillQ(u), id).0;
      JoinStaged(s, t, FillQ(u), id, FillNew);
      JoinKeeps(cfg, s, Staged(t, id, FillNew), hole, gone, FillQ(u), id);
    }
  }

  lemma InsertOutKeeps(cfg: Config, s: Mem, u: Unit, hole: Place, gone: seq<Id>, id: Id, g: Stage)
    requires Inv(cfg, s, hole, gone, []) && id in Q(s, hole) && id !in gone && hole != OutQ(u)
    requires Fits(OutQ(u), At(s, id).(stage := g, queue := Some(OutQ(u))))
    ensures Visited(cfg, s, InsertOut(cfg, s, u, id, g), hole, gone, id)
  {
    if !Full(s, OutQ(u)) {
      PushJoins(cfg, s, OutQ(u), id);
      var t := Push(cfg, s, OutQ(u), id).0;
      JoinStaged(s, t, OutQ(u), id, g);
      JoinKeeps(cfg, s, Staged(t, id, g), hole, gone, OutQ(u), id);
    }
  }

  lemma DepartKeeps(cfg: Config, s: Mem, hole: Place, gone: seq<Id>, id: Id, d: Dst)
    requires Inv(cfg, s, hole, gone, []) && id in Q(s, hole) && id !in gone && hole != Noc
    requires Fits(Noc, At(s, id).(dst := d))
    ensures Visited(cfg, s, (Depart(s, id, d), true), hole, gone, id)
  {
    DepartJoins(s, id, d);
    JoinKeeps(cfg, s, Depart(s, id, d), hole, gone, Noc, id);
  }

  /** A refused request waits where it is. */
  lemma WaitKeeps(cfg: Config, s: Mem, u: Unit, gone: seq<Id>, id: Id, g: Stage)
    requires Inv(cfg, s, FillQ(u), gone, []) && id in Q(s, FillQ(u)) && id !in gone
    requires (g == WaitDone && u.L2?) || (g == WaitFill && u.L3?)
    ensures Visited(cfg, s, (Staged(s, id, g), false), FillQ(u), gone, id)
  {
    hide Placed;
    hide Pools;
    hide Forest;
    hide Logged;
    WaitPlacedToo(s, u, gone, id, g);
    MovedKeeps(cfg, s, Staged(s, id, g), []);
  }

  lemma WaitPlacedToo(s: Mem, u: Unit, gone: seq<Id>, id: Id, g: Stage)
    requires Placed(s, FillQ(u), gone) && id in Q(s, FillQ(u)) && id !in gone
    requires (g == WaitDone && u.L2?) || (g == WaitFill && u.L3?)
    ensures Placed(Staged(s, id, g), FillQ(u), gone) && Moved(s, Staged(s, id, g))
  {
    var t := Staged(s, id, g);
    assert Sits(s, FillQ(u), id);
    assert t.reqs.Keys == s.reqs.Keys;
    StayPlaced(s, t, FillQ(u), gone);
  }

  lemma SendUpKeeps(cfg: Config, s: Mem, u: Unit, hole: Place, gone: seq<Id>, id: Id)
    requires Inv(cfg, s, hole, gone, []) && id in Q(s, hole) && id !in gone && u.L3?
    requires hole == InQ(u) || hole == FillQ(u)
    ensures Visited(cfg, s, SendUp(cfg, s, u, id), hole, gone, id)
  {
    var r := At(s, id);
    if DirectUp(cfg, u, r) {
      InsertFillKeeps(cfg, s, L2(r.core), hole, gone, id);
    } else {
      InsertOutKeeps(cfg, s, u, hole, gone, id, OutFill);
    }
  }

  lemma SendDownKeeps(cfg: Config, s: Mem, u: Unit, gone: seq<Id>, id: Id)
    requires Inv(cfg, s, InQ(u), gone, []) && id in Q(s, InQ(u)) && id !in gone
    ensures Visited(cfg, s, SendDown(cfg, s, u, id), InQ(u), gone, id)
  {
    assert Sits(s, InQ(u), id);
    var r := At(s, id);
    if LinkedDown(cfg, u, r) || !cfg.cache(u).hasRouter {
      if Below(u, r).Some? { InsertInKeeps(cfg, s, Below(u, r).value, InQ(u), gone, id); }
    } else {
      InsertOutKeeps(cfg, s, u, InQ(u), gone, id, OutNew);
    }
  }

  // ---------- visits ----------

  lemma VisitInKeeps(cfg: Config, env: Env, s: Mem, u: Unit, gone: seq<Id>, id: Id)
    requires Wired(cfg) && Inv(cfg, s, InQ(u), gone, []) && id in Q(s, InQ(u)) && id !in gone
    ensures Visited(cfg, s, VisitIn(cfg, env, s, u, id), InQ(u), gone, id)
  {
    assert Sits(s, InQ(u), id);
    SendDownKeeps(cfg, s, u, gone, id);
    hide SendDown;
    if At(s, id).kind == WriteBack {
      assert TreeOk(s, id);
      NoMerges(s, id);
      NoFillKeeps(cfg, s, id, InQ(u), gone);
    } else if cfg.cache(u).done {
      FinishKeeps(cfg, env, s, id, InQ(u), gone);
      FinishQueue(cfg, env, s, id, InQ(u));
    } else if u.L3? {
      SendUpKeeps(cfg, s, u, InQ(u), gone, id);
    }
  }

  lemma FinishQueue(cfg: Config, env: Env, s: Mem, id: Id, p: Place)
    requires !p.WbQ?
    ensures Q(Finish(cfg, env, s, id).0, p) == Q(s, p)
  {
    hide Drain;
    hide DcuDone;
    DrainQueue(cfg, env, s, id, p);
    DcuDoneQueue(cfg, env, Drain(cfg, env, s, id).0, id, p);
  }

  lemma DcuDoneQueue(cfg: Config, env: Env, s: Mem, id: Id, p: Place)
    requires !p.WbQ?
    ensures Q(DcuDone(cfg, env, s, id).0, p) == Q(s, p)
  {
    hide Sort;
    hide Ranked;
  }

  lemma {:induction false} ServeEachQueue(cfg: Config, env: Env, s: Mem, ms: seq<Id>, p: Place)
    requires !p.WbQ?
    ensures Q(ServeEach(cfg, env, s, ms).0, p) == Q(s, p)
  {
    if ms != [] {
      ServeEachQueue(cfg, env, s, ms[..|ms|-1], p);
      DcuDoneQueue(cfg, env, ServeEach(cfg, env, s, ms[..|ms|-1]).0, ms[|ms|-1], p);
    }
  }

  lemma {:induction false} DropEachQueue(s: Mem, id: Id, ds: seq<Id>, p: Place)
    ensures Q(DropEach(s, id, ds), p) == Q(s, p)
  {
    if ds != [] { DropEachQueue(s, id, ds[..|ds|-1], p); }
  }

  lemma DrainQueue(cfg: Config, env: Env, s: Mem, id: Id, p: Place)
    requires !p.WbQ?
    ensures Q(Drain(cfg, env, s, id).0, p) == Q(s, p)
  {
    var ms := At(s, id).merge;
    ServeEachQueue(cfg, env, s, ms, p);
    var (t, ds) := ServeEach(cfg, env, s, ms);
    DropEachQueue(t, id, ds, p);
  }

  /** A write-back that has arrived is complete. */
  lemma NoFillKeeps(cfg: Config, s: Mem, id: Id, hole: Place, gone: seq<Id>)
    requires Inv(cfg, s, hole, gone, []) && id in Q(s, hole) && id !in gone && At(s, id).fill == NoFill
    ensures Visited(cfg, s, (MarkDone(s, id), true), hole, gone, id)
  {
    assert Sits(s, hole, id);
    NoMerges(s, id);
    MarkKeeps(cfg, s, id, hole, gone, []);
  }

  lemma VisitOutKeeps(cfg: Config, env: Env, s: Mem, u: Unit, gone: seq<Id>, id: Id)
    requires Inv(cfg, s, OutQ(u), gone, []) && id in Q(s, OutQ(u)) && id !in gone
    ensures Visited(cfg, s, VisitOut(cfg, env, s, u, id), OutQ(u), gone, id)
  {
    assert Sits(s, OutQ(u), id);
    match Target(u, At(s, id))
    case None =>
    case Some(d) => DepartKeeps(cfg, s, OutQ(u), gone, id, d);
  }

  lemma VisitWbKeeps(cfg: Config, env: Env, s: Mem, u: Unit, gone: seq<Id>, id: Id)
    requires Inv(cfg, s, WbQ(u), gone, []) && id in Q(s, WbQ(u)) && id !in gone
    ensures Visited(cfg, s, VisitWb(cfg, env, s, u, id), WbQ(u), gone, id)
  {
    var r := At(s, id);
    if LinkedDown(cfg, u, r) {
      InsertFillKeeps(cfg, s, Below(u, r).value, WbQ(u), gone, id);
    } else {
      InsertOutKeeps(cfg, s, u, WbQ(u), gone, id, OutWb);
    }
  }

  lemma FillUpKeeps(cfg: Config, s: Mem, u: Unit, gone: seq<Id>, id: Id)
    requires Inv(cfg, s, FillQ(u), gone, []) && id in Q(s, FillQ(u)) && id !in gone && u.L3?
    ensures Visited(cfg, s, WaitIf(SendUp(cfg, s, u, id), id, WaitFill), FillQ(u), gone, id)
    ensures Visited(cfg, s, FillUp(cfg, s, u, id), FillQ(u), gone, id)
  {
    SendUpKeeps(cfg, s, u, FillQ(u), gone, id);
    WaitKeeps(cfg, s, u, gone, id, WaitFill);
    SendUpRefused(cfg, s, u, id);
    hide SendUp;
  }

  lemma SendUpRefused(cfg: Config, s: Mem, u: Unit, id: Id)
    ensures !SendUp(cfg, s, u, id).1 ==> SendUp(cfg, s, u, id).0 == s
  {
  }

  lemma FinishWaitKeeps(cfg: Config, env: Env, s: Mem, u: Unit, gone: seq<Id>, id: Id)
    requires Inv(cfg, s, FillQ(u), gone, []) && id in Q(s, FillQ(u)) && id !in gone && u.L2?
    ensures Visited(cfg, s, Finish(cfg, env, s, id), FillQ(u), gone, id)
    ensures Visited(cfg, s, WaitIf(Finish(cfg, env, s, id), id, WaitDone), FillQ(u), gone, id)
  {
    FinishKeeps(cfg, env, s, id, FillQ(u), gone);
    FinishQueue(cfg, env, s, id, FillQ(u));
    var (t, ok) := Finish(cfg, env, s, id);
    hide Finish;
    if !ok { WaitKeeps(cfg, t, u, gone, id, WaitDone); }
  }

  lemma FilledKeeps(cfg: Config, env: Env, s: Mem, u: Unit, gone: seq<Id>, id: Id)
    requires Wired(cfg) && Inv(cfg, s, FillQ(u), gone, []) && id in Q(s, FillQ(u)) && id !in gone
    ensures Visited(cfg, s, Filled(cfg, env, s, u, id), FillQ(u), gone, id)
  {
    assert Sits(s, FillQ(u), id) && TreeOk(s, id);
    hide Inv;
    if u.L2? {
      FinishWaitKeeps(cfg, env, s, u, gone, id);
    } else if At(s, id).kind == WriteBack {
      NoFillKeeps(cfg, s, id, FillQ(u), gone);
    } else {
      FillUpKeeps(cfg, s, u, gone, id);
    }
  }

  lemma VisitFillNewKeeps(cfg: Config, env: Env, s: Mem, u: Unit, gone: seq<Id>, id: Id)
    requires Wired(cfg) && Inv(cfg, s, FillQ(u), gone, []) && id in Q(s, FillQ(u)) && id !in gone
    requires !Full(s, WbQ(u)) && env(id).ready && At(s, id).stage == FillNew
    ensures Visited(cfg, s, VisitFill(cfg, env, s, u, id), FillQ(u), gone, id)
  {
    var insert := !cfg.cache(u).disable && !env(id).hit;
    if !(insert && !env(id).port) {
      if insert { EvictKeeps(cfg, s, u, env(id).victim, FillQ(u), gone, []); }
      hide Inv;
      hide Filled;
      var t := if insert then Evict(cfg, s, u, env(id).victim) else s;
      assert Q(t, FillQ(u)) == Q(s, FillQ(u));
      hide Evict;
      FilledKeeps(cfg, env, t, u, gone, id);
    }
  }

  lemma VisitFillKeeps(cfg: Config, env: Env, s: Mem, u: Unit, gone: seq<Id>, id: Id)
    requires Wired(cfg) && Inv(cfg, s, FillQ(u), gone, []) && id in Q(s, FillQ(u)) && id !in gone
    requires !Full(s, WbQ(u))
    ensures Visited(cfg, s, VisitFill(cfg, env, s, u, id), FillQ(u), gone, id)
  {
    assert Sits(s, FillQ(u), id);
    if env(id).ready {
      if At(s, id).stage == FillNew {
        VisitFillNewKeeps(cfg, env, s, u, gone, id);
      } else if At(s, id).stage == WaitDone {
        FinishWaitKeeps(cfg, env, s, u, gone, id);
      } else {
        FillUpKeeps(cfg, s, u, gone, id);
      }
    }
  }

  // ---------- scans ----------

  lemma {:induction false} ScanKeeps(cfg: Config, env: Env, s: Mem, l: Loop, u: Unit, xs: seq<Id>)
    requires Wired(cfg) && Inv(cfg, s, QueueOf(l, u), [], []) && Distinct(xs)
    requires forall x :: x in xs ==> x in Q(s, QueueOf(l, u))
    ensures var (t, ds) := Scan(cfg, env, s, l, u, xs);
            && Inv(cfg, t, QueueOf(l, u), ds, []) && Q(t, QueueOf(l, u)) == Q(s, QueueOf(l, u))
            && forall x :: x in ds ==> x in xs
  {
    hide Inv;
    if xs != [] {
      var n := |xs| - 1;
      var x, p := xs[n], QueueOf(l, u);
      assert xs == xs[..n] + [x];
      InitDistinct(xs[..n], x);
      ScanKeeps(cfg, env, s, l, u, xs[..n]);
      var (t, ds) := Scan(cfg, env, s, l, u, xs[..n]);
      if !Stops(t, l, u, ds) {
        match l
        case LoopIn => VisitInKeeps(cfg, env, t, u, ds, x);
        case LoopOut => VisitOutKeeps(cfg, env, t, u, ds, x);
        case LoopFill => VisitFillKeeps(cfg, env, t, u, ds, x);
        case LoopWb => VisitWbKeeps(cfg, env, t, u, ds, x);
        assert Visited(cfg, t, Visit(cfg, env, t, l, u, x), p, ds, x);
      }
    }
  }

  // ---------- leaving ----------

  /** Nothing is merged under a request that is complete, so freeing it only releases it. */
  lemma FreeIsRelease(cfg: Config, env: Env, s: Mem, id: Id)
    requires Forest(s) && Alive(s, id) && (At(s, id).done || !CanLead(At(s, id).kind))
    ensures At(s, id).merge == [] && FreeReq(cfg, env, s, id) == Release(s, id)
  {
    assert TreeOk(s, id);
    if !CanLead(At(s, id).kind) { NoMerges(s, id); }
  }

  lemma PopFreePlaced(s: Mem, t: Mem, hole: Place, gone: seq<Id>)
    requires Forest(s) && Placed(s, hole, gone) && gone != [] && Removed(Pop(s, hole, gone[0]), t, gone[0])
    requires At(s, gone[0]).done
    ensures Placed(t, hole, gone[1..])
  {
    var id, w := gone[0], Pop(s, hole, gone[0]);
    HeadGone(gone);
    WithoutIn(Q(s, hole), id);
    assert Handled(s, hole, id);
    forall q
      ensures Distinct(Q(t, q)) && id !in Q(t, q)
      ensures q != hole ==> Q(t, q) == Q(s, q)
    {
      assert Distinct(Q(s, q));
      assert id in Q(s, q) ==> (q == hole && id in gone) || Sits(s, q, id);
    }
    forall q, x | x in Q(t, q)
      ensures (q == hole && x in gone[1..]) || Sits(t, q, x)
    {
      assert x in Q(s, q) && Unmerged(w, t, id, x);
      if !(q == hole && x in gone) { assert Sits(s, q, x); }
    }
    forall x | Travels(t, x)
      ensures Loc(At(t, x)).Some? && x in Q(t, Loc(At(t, x)).value)
    {
      assert x != id && Unmerged(w, t, id, x);
      assert Travels(s, x);
    }
    forall x | x in gone[1..]
      ensures Handled(t, hole, x)
    {
      assert Unmerged(w, t, id, x);
      assert Handled(s, hole, x);
    }
    forall x | Alive(t, x) && At(t, x).done
      ensures x in gone[1..]
    {
      assert x != id && Unmerged(w, t, id, x);
      assert Alive(s, x) && At(s, x).done;
    }
  }

  lemma PopTables(cfg: Config, s: Mem, p: Place, id: Id, served: seq<Id>)
    requires Pools(cfg, s) && Forest(s) && Logged(s, served)
    ensures Pools(cfg, Pop(s, p, id)) && Forest(Pop(s, p, id)) && Logged(Pop(s, p, id), served)
  {
    MovedKeeps(cfg, s, Pop(s, p, id), served);
  }

  lemma LeaveDoneKeeps(cfg: Config, env: Env, s: Mem, hole: Place, gone: seq<Id>)
    requires Inv(cfg, s, hole, gone, []) && gone != [] && At(s, gone[0]).done
    ensures Inv(cfg, FreeReq(cfg, env, Pop(s, hole, gone[0]), gone[0]), hole, gone[1..], [])
  {
    var id := gone[0];
    var w := Pop(s, hole, id);
    assert Handled(s, hole, id);
    PopTables(cfg, s, hole, id, []);
    FreeIsRelease(cfg, env, w, id);
    forall x | x in w.reqs
      ensures id !in At(w, x).merge
    {
      assert EntryOk(cfg, w, x);
      assert Alive(w, x) ==> TreeOk(w, x);
    }
    ReleaseRemoves(w, id);
    var t := Release(w, id);
    PopFreePlaced(s, t, hole, gone);
    hide Placed;
    RemovedTables(cfg, w, t, id);
  }

  lemma RemovedTables(cfg: Config, s: Mem, t: Mem, id: Id)
    requires Pools(cfg, s) && Forest(s) && Logged(s, []) && Removed(s, t, id) && MayGo(s, [], id)
    ensures Pools(cfg, t) && Forest(t) && Logged(t, [])
  {
    RemovedPools(cfg, s, t, id);
    RemovedForest(s, t, id);
    RemovedLogged(cfg, s, t, id, [], []);
  }

  lemma LeaveMovedKeeps(cfg: Config, s: Mem, hole: Place, gone: seq<Id>)
    requires Inv(cfg, s, hole, gone, []) && gone != [] && !At(s, gone[0]).done
    ensures Inv(cfg, Pop(s, hole, gone[0]), hole, gone[1..], [])
  {
    PopPlaced(s, hole, gone);
    hide Placed;
    PopTables(cfg, s, hole, gone[0], []);
  }

  /** Only the input and fill loops complete requests. */
  predicate Completing(l: Loop) { l.LoopIn? || l.LoopFill? }

  ghost predicate NoneDone(s: Mem) {
    forall id :: Alive(s, id) ==> !At(s, id).done
  }

  lemma VisitNoneDone(cfg: Config, env: Env, s: Mem, l: Loop, u: Unit, id: Id)
    requires NoneDone(s) && Alive(s, id) && !Completing(l)
    ensures NoneDone(Visit(cfg, env, s, l, u, id).0)
  {
    var t := Visit(cfg, env, s, l, u, id).0;
    if l.LoopOut? { OutSameDone(cfg, env, s, u, id); } else { WbSameDone(cfg, env, s, u, id); }
    forall x | Alive(t, x)
      ensures !At(t, x).done
    {
      assert SameMark(s, t, x);
    }
  }

  predicate SameMark(s: Mem, t: Mem, x: Id) {
    (x in t.reqs <==> x in s.reqs) && At(t, x).done == At(s, x).done && At(t, x).uid == At(s, x).uid
  }

  lemma OutSameDone(cfg: Config, env: Env, s: Mem, u: Unit, id: Id)
    requires Alive(s, id)
    ensures forall x :: SameMark(s, VisitOut(cfg, env, s, u, id).0, x)
  {
  }

  lemma WbSameDone(cfg: Config, env: Env, s: Mem, u: Unit, id: Id)
    requires Alive(s, id)
    ensures forall x :: SameMark(s, VisitWb(cfg, env, s, u, id).0, x)
  {
    hide Push;
    if LinkedDown(cfg, u, At(s, id)) {
      PushSameDone(cfg, s, FillQ(Below(u, At(s, id)).value), id, FillNew);
    } else {
      PushSameDone(cfg, s, OutQ(u), id, OutWb);
    }
  }

  lemma PushSameDone(cfg: Config, s: Mem, p: Place, id: Id, g: Stage)
    requires Alive(s, id)
    ensures forall x :: SameMark(s, Push(cfg, s, p, id).0, x) && SameMark(s, Staged(Push(cfg, s, p, id).0, id, g), x)
  {
    hide Sort;
  }

  lemma {:induction false} ScanNoneDone(cfg: Config, env: Env, s: Mem, l: Loop, u: Unit, xs: seq<Id>)
    requires Wired(cfg) && Inv(cfg, s, QueueOf(l, u), [], []) && Distinct(xs) && NoneDone(s) && !Completing(l)
    requires forall x :: x in xs ==> x in Q(s, QueueOf(l, u))
    ensures NoneDone(Scan(cfg, env, s, l, u, xs).0)
  {
    if xs != [] {
      var n := |xs| - 1;
      assert xs == xs[..n] + [xs[n]];
      InitDistinct(xs[..n], xs[n]);
      ScanKeeps(cfg, env, s, l, u, xs[..n]);
      ScanNoneDone(cfg, env, s, l, u, xs[..n]);
      var (t, ds) := Scan(cfg, env, s, l, u, xs[..n]);
      assert Sits(t, QueueOf(l, u), xs[n]);
      hide Inv;
      VisitNoneDone(cfg, env, t, l, u, xs[n]);
    }
  }

  lemma LeaveKeeps(cfg: Config, env: Env, s: Mem, l: Loop, u: Unit, gone: seq<Id>)
    requires Inv(cfg, s, QueueOf(l, u), gone, []) && gone != [] && (Completing(l) || NoneDone(s))
    ensures Inv(cfg, Leave(cfg, env, s, l, u, gone[0]), QueueOf(l, u), gone[1..], [])
    ensures NoneDone(s) ==> NoneDone(Leave(cfg, env, s, l, u, gone[0]))
  {
    var p := QueueOf(l, u);
    assert Handled(s, p, gone[0]);
    hide Inv;
    if At(s, gone[0]).done {
      LeaveDoneKeeps(cfg, env, s, p, gone);
    } else {
      LeaveMovedKeeps(cfg, s, p, gone);
    }
  }

  lemma {:induction false} LeaveEachKeeps(cfg: Config, env: Env, s: Mem, l: Loop, u: Unit, ds: seq<Id>, rest: seq<Id>)
    requires Inv(cfg, s, QueueOf(l, u), ds + rest, []) && (Completing(l) || NoneDone(s))
    ensures Inv(cfg, LeaveEach(cfg, env, s, l, u, ds), QueueOf(l, u), rest, [])
    ensures NoneDone(s) ==> NoneDone(LeaveEach(cfg, env, s, l, u, ds))
  {
    hide Inv;
    hide Leave;
    if ds == [] {
      assert ds + rest == rest;
    } else {
      var n := |ds| - 1;
      assert ds + rest == ds[..n] + ([ds[n]] + rest);
      LeaveEachKeeps(cfg, env, s, l, u, ds[..n], [ds[n]] + rest);
      LeaveKeeps(cfg, env, LeaveEach(cfg, env, s, l, u, ds[..n]), l, u, [ds[n]] + rest);
      assert ([ds[n]] + rest)[1..] == rest;
    }
  }

  /** With no queue being processed, any place may play the part of the hole. */
  lemma HoleMoves(cfg: Config, s: Mem, p: Place, q: Place)
    requires Inv(cfg, s, p, [], [])
    ensures Inv(cfg, s, q, [], []) && NoneDone(s)
  {
  }

  /** A whole queue loop. */
  lemma ProcessKeeps(cfg: Config, env: Env, s: Mem, l: Loop, u: Unit)
    requires Wired(cfg) && Inv(cfg, s, Noc, [], [])
    ensures Inv(cfg, Process(cfg, env, s, l, u), Noc, [], [])
  {
    var p := QueueOf(l, u);
    var xs := Q(s, p);
    HoleMoves(cfg, s, Noc, p);
    assert Distinct(xs);
    hide Inv;
    hide Visit;
    hide Stops;
    ScanKeeps(cfg, env, s, l, u, xs);
    if !Completing(l) { ScanNoneDone(cfg, env, s, l, u, xs); }
    var (t, ds) := Scan(cfg, env, s, l, u, xs);
    hide Scan;
    assert ds + [] == ds;
    LeaveEachKeeps(cfg, env, t, l, u, ds, []);
    HoleMoves(cfg, LeaveEach(cfg, env, t, l, u, ds), p, Noc);
  }
}
