/**
 What one attempt of a callback and one call of `new_mem_req` mean to their callers, and where the
 guarantees end: an instruction-cache leader fills its line at every attempt, and a miss buffer of
 more than 1024 entries can lose a request.
 */
module MemClaims {
  import opened MemLists
  import opened MemModel
  import opened MemInvariant
  import opened MemSteps
  import opened MemRelease
  import opened MemFill
  import opened MemVisit
  import opened MemRequest
  import opened MemRun
  import opened Options

  // ---------- one attempt of the data-cache wrapper ----------

  /** The served merged requests are freed and have taken effect; the others are as before. */
  ghost predicate Outcome(s: Mem, t: Mem, id: Id, m: Id) {
    var u := At(s, m).uid;
    if m in At(t, id).merge
    then At(t, m) == At(s, m) && (At(s, m).fill == DFill ==> Effects(t.effects, u) == 0) && Releases(t.freed, u) == 0
    else !Alive(t, m) && (At(s, m).fill == DFill ==> Effects(t.effects, u) == 1) && Releases(t.freed, u) == 1
  }

  /** One attempt of `dcache_fill_line_wrapper` on a data-cache leader. It reports success exactly
      when nothing is left merged and the leader itself took effect; then, and only then, has the
      leader's effect happened, once. */
  lemma WrapperAttempt(cfg: Config, env: Env, s: Mem, id: Id, hole: Place, gone: seq<Id>)
    requires Inv(cfg, s, hole, gone, []) && Alive(s, id) && !At(s, id).done && At(s, id).fill == DFill
    ensures var (t, ok) := DcacheFill(cfg, env, s, id);
            && Alive(t, id) && Effects(t.effects, At(s, id).uid) == (if ok then 1 else 0)
            && (ok ==> At(t, id).merge == [])
            && (!ok ==> Inv(cfg, t, hole, gone, []))
            && (forall m :: m in At(t, id).merge ==> m in At(s, id).merge)
            && forall m :: m in At(s, id).merge ==> Outcome(s, t, id, m)
  {
    DcacheKeeps(cfg, env, s, id, hole, gone);
    var (t, ok) := DcacheFill(cfg, env, s, id);
    assert LiveLog(t, if ok then [id] else [], id);
    forall m | m in At(s, id).merge
      ensures Outcome(s, t, id, m)
    {
      MergedWaits(s, id, m);
      OneOutcome(cfg, s, t, id, hole, gone, if ok then [id] else [], m);
    }
  }

  lemma OneOutcome(cfg: Config, s: Mem, t: Mem, id: Id, hole: Place, gone: seq<Id>, served: seq<Id>, m: Id)
    requires Inv(cfg, t, hole, gone, served) && SettledOne(s, t, id, m) && Waits(s, id, m) && m !in served
    ensures Outcome(s, t, id, m)
  {
    if m in At(t, id).merge {
      assert LiveLog(t, served, m);
    } else {
      FreedOutcome(cfg, t, hole, gone, served, Freed(At(s, m).uid, At(s, m).kind, At(s, m).fill));
    }
  }

  lemma FreedOutcome(cfg: Config, t: Mem, hole: Place, gone: seq<Id>, served: seq<Id>, f: Freed)
    requires Inv(cfg, t, hole, gone, served) && f in t.freed && f.kind != DPrefetch && f.uid >= 0
    ensures Releases(t.freed, f.uid) == 1 && (f.fill == DFill ==> Effects(t.effects, f.uid) == 1)
  {
    var i :| 0 <= i < |t.freed| && t.freed[i] == f;
    assert FreedLog(t, t.freed[i]);
    ReleasedOnce(t.freed, i);
    assert Issued(t, f.uid);
  }

  // ---------- one attempt of the instruction-cache wrapper ----------

  lemma {:induction false} EffectsCat(xs: seq<int>, ys: seq<int>, u: int)
    ensures Effects(xs + ys, u) == Effects(xs, u) + Effects(ys, u)
  {
    if ys == [] {
      assert xs + ys == xs;
    } else {
      var n := |ys| - 1;
      EffectsCat(xs, ys[..n], u);
      EffectsAppend(xs + ys[..n], ys[n], u);
      assert xs + ys == xs + ys[..n] + [ys[n]];
    }
  }

  lemma {:induction false} OtherUids(s: Mem, ds: seq<Id>, u: int)
    requires forall d :: d in ds ==> At(s, d).uid != u
    ensures Effects(Uids(s, ds), u) == 0
  {
    if ds != [] {
      var n := |ds| - 1;
      OtherUids(s, ds[..n], u);
      EffectsAppend(Uids(s, ds[..n]), At(s, ds[n]).uid, u);
      assert ds[n] in ds;
    }
  }

  /** Draining the merge list is no effect of the leader's own. */
  lemma DrainEffects(cfg: Config, env: Env, s: Mem, id: Id, hole: Place, gone: seq<Id>)
    requires Inv(cfg, s, hole, gone, []) && Alive(s, id)
    ensures Effects(Drain(cfg, env, s, id).0.effects, At(s, id).uid) == Effects(s.effects, At(s, id).uid)
  {
    hide Inv;
    hide ServeEach;
    hide DropEach;
    hide Distinct;
    var ms := At(s, id).merge;
    AllWait(cfg, s, id, hole, gone);
    ServeEachKeeps(cfg, env, s, id, ms, hole, gone);
    var (u, ds) := ServeEach(cfg, env, s, ms);
    OtherUids(s, ds, At(s, id).uid);
    EffectsCat(s.effects, Uids(s, ds), At(s, id).uid);
    assert ds + [] == ds;
    DropEachKeeps(cfg, u, id, ds, [], hole, gone);
  }

  /** An instruction-cache leader fills its line once at every attempt, failed ones included: the
      number of its effects is the number of attempts, and so one exactly when the first succeeds. */
  lemma IcacheAttempt(cfg: Config, env: Env, s: Mem, id: Id, hole: Place, gone: seq<Id>)
    requires Inv(cfg, s, hole, gone, []) && Alive(s, id) && !At(s, id).done && At(s, id).fill == IFill
    ensures var (t, ok) := IcacheFill(cfg, env, s, id);
            && Effects(t.effects, At(s, id).uid) == Effects(s.effects, At(s, id).uid) + 1
            && (ok <==> At(t, id).merge == [])
  {
    DrainKeeps(cfg, env, s, id, hole, gone);
    DrainEffects(cfg, env, s, id, hole, gone);
    var t := Drain(cfg, env, s, id).0;
    hide Drain;
    EffectsAppend(t.effects, At(t, id).uid, At(t, id).uid);
  }

  // ---------- one call of new_mem_req ----------

  /** Request `id` stands for the demand. */
  predicate Stands(cfg: Config, t: Mem, d: Demand, id: Id) {
    var r := At(t, id);
    && Alive(t, id) && !r.done && r.core == d.core && r.kind == d.kind && r.addr == d.addr && r.size == d.size
    && r.fill == d.fill && r.priority == cfg.prio(d.kind) && r.gpu == d.gpu && r.l3 == d.l3
  }

  lemma EnterStands(cfg: Config, env: Env, s: Mem, d: Demand, found: Option<Id>)
    requires Inv(cfg, s, Noc, [], []) && OpOk(cfg, s, Request(d, false)) && d.kind != DPrefetch && cfg.mshr <= 1024
    requires found.Some? ==> CanHost(s, d, found.value)
    ensures var (t, ok) := Enter(cfg, env, s, d, found);
            if ok then t.next == s.next + 1 && exists id :: Stands(cfg, t, d, id) && At(t, id).uid == s.next && At(t, id).leader == found
            else t.next == s.next && Free(t, d.core) == []
  {
    hide Inv;
    hide FlushIf;
    hide Allocate;
    hide Merge;
    hide InsertIn;
    FlushIfKeeps(cfg, env, s, d, found, Free(s, d.core) == []);
    var f := FlushIf(cfg, env, s, d.core, Free(s, d.core) == []);
    if Free(f, d.core) != [] {
      var id := Free(f, d.core)[|Free(f, d.core)| - 1];
      if found.Some? { MergeStands(cfg, f, d, found.value); } else { QueueStands(cfg, f, d); }
      var t := Enter(cfg, env, s, d, found).0;
      assert Stands(cfg, t, d, id) && At(t, id).uid == s.next && At(t, id).leader == found;
    }
  }

  lemma MergeStands(cfg: Config, s: Mem, d: Demand, l: Id)
    requires Inv(cfg, s, Noc, [], []) && Free(s, d.core) != [] && d.kind != WriteBack && CanHost(s, d, l)
    ensures var f := Free(s, d.core); var id := f[|f| - 1];
            var t := Merge(cfg, Allocate(cfg, s, d), l, id);
            t.next == s.next + 1 && Stands(cfg, t, d, id) && At(t, id).uid == s.next && At(t, id).leader == Some(l)
  {
    MergeEnters(cfg, s, d, l);
  }

  lemma QueueStands(cfg: Config, s: Mem, d: Demand)
    requires Inv(cfg, s, Noc, [], []) && OpOk(cfg, s, Request(d, false)) && cfg.mshr <= 1024 && Free(s, d.core) != []
    ensures var f := Free(s, d.core); var id := f[|f| - 1];
            var t := InsertIn(cfg, Allocate(cfg, s, d), L2(d.core), id).0;
            t.next == s.next + 1 && Stands(cfg, t, d, id) && At(t, id).uid == s.next && At(t, id).leader.None?
  {
    RoomInL2(cfg, s, d.core);
    hide Inv;
    hide Sort;
    hide Pools;
    var u := Allocate(cfg, s, d);
    var f := Free(s, d.core);
    assert Q(u, InQ(L2(d.core))) == Q(s, InQ(L2(d.core)));
    PushJoins(cfg, u, InQ(L2(d.core)), f[|f| - 1]);
  }

  /** `new_mem_req` answers true to a demand exactly when a live request now stands for it: a new
      one with the next id, or a promoted prefetch. It answers false only with no entry free. */
  lemma DemandTracked(cfg: Config, env: Env, s: Mem, d: Demand, stopped: bool)
    requires Inv(cfg, s, Noc, [], []) && OpOk(cfg, s, Request(d, stopped)) && d.kind != DPrefetch && cfg.mshr <= 1024
    ensures var (t, ok) := NewReq(cfg, env, s, d, stopped);
            if ok then
              exists id :: Stands(cfg, t, d, id)
                           && if t.next == s.next then At(s, id).kind == DPrefetch && At(s, id).uid == At(t, id).uid
                              else t.next == s.next + 1 && At(t, id).uid == s.next
            else t.next == s.next && Free(t, d.core) == []
  {
    SearchFindsUnmerged(cfg, s, d.core, d.addr, d.size);
    var found := Search(s, Live(s, d.core), d.addr, d.size);
    var t := NewReq(cfg, env, s, d, stopped).0;
    if found.Some? && At(s, found.value).kind == DPrefetch {
      assert Stands(cfg, t, d, found.value);
    } else {
      FlushIfKeeps(cfg, env, s, d, found, Full(s, InQ(L2(d.core))));
      var f := FlushIf(cfg, env, s, d.core, Full(s, InQ(L2(d.core))));
      hide Inv;
      hide Search;
      hide FlushIf;
      hide Enter;
      EnterStands(cfg, env, f, d, found);
    }
  }

  // ---------- more entries than the queue holds ----------

  lemma {:induction false} RankedSize(o: Order, s: Mem, xs: seq<Id>, x: Id)
    ensures |Ranked(o, s, xs, x)| == |xs| + 1
  {
    if xs != [] && Ahead(o, At(s, x), At(s, xs[|xs|-1])) { RankedSize(o, s, xs[..|xs|-1], x); }
  }

  lemma {:induction false} SortSize(o: Order, s: Mem, xs: seq<Id>)
    ensures |Sort(o, s, xs)| == |xs|
  {
    if xs != [] {
      SortSize(o, s, xs[..|xs|-1]);
      RankedSize(o, s, Sort(o, s, xs[..|xs|-1]), xs[|xs|-1]);
    }
  }

  /** Core 0 has asked for the first `n` lines and nothing has been processed. */
  ghost predicate Flooded(cfg: Config, s: Mem, n: nat) {
    && |Live(s, 0)| == n
    && (forall i :: 0 <= i < n ==>
          var r := At(s, Live(s, 0)[i]);
          r.addr == 64 * i && r.size == 64 && r.kind == DFetch && r.uid >= 0)
    && |Free(s, 0)| == cfg.mshr - n && Distinct(Free(s, 0))
    && (forall x :: x in Free(s, 0) ==> At(s, x).uid == -1 && At(s, x).queue.None? && x in s.reqs)
    && |Q(s, InQ(L2(0)))| == n && (forall p, x :: x in Q(s, p) ==> At(s, x).uid >= 0)
  }

  /** A live request that waits for nobody and is nowhere. */
  ghost predicate Lost(s: Mem, id: Id) {
    Travels(s, id) && forall p :: id !in Q(s, p)
  }

  function Line(n: nat): Demand { Demand(DFetch, 64 * n, 64, DFill, 0, false, 0) }

  lemma NoLine(cfg: Config, env: Env, s: Mem, n: nat)
    requires Flooded(cfg, s, n)
    ensures Search(s, Live(s, 0), 64 * n, 64) == None && Flush(cfg, env, s, 0) == s
  {
    var xs := Live(s, 0);
    SearchFirst(s, xs, 64 * n, 64);
    forall i | 0 <= i < n
      ensures !Covers(At(s, xs[i]), 64 * n, 64) && !Flushable(s, xs[i])
    {
    }
    NoneFlushable(s, xs);
  }

  lemma {:induction false} NoneFlushable(s: Mem, xs: seq<Id>)
    requires forall i :: 0 <= i < |xs| ==> !Flushable(s, xs[i])
    ensures FlushList(s, xs) == []
  {
    if xs != [] { NoneFlushable(s, xs[..|xs|-1]); }
  }

  /** The state after one more line. */
  function Asked(cfg: Config, env: Env, s: Mem, n: nat): Mem { NewReq(cfg, env, s, Line(n), false).0 }

  lemma AskedIs(cfg: Config, env: Env, s: Mem, n: nat)
    requires Flooded(cfg, s, n) && n < cfg.mshr
    ensures Asked(cfg, env, s, n) == InsertIn(cfg, Allocate(cfg, s, Line(n)), L2(0), Free(s, 0)[|Free(s, 0)| - 1]).0
  {
    NoLine(cfg, env, s, n);
  }

  lemma FloodStep(cfg: Config, env: Env, s: Mem, n: nat)
    requires Flooded(cfg, s, n) && n < 1024 && n < cfg.mshr
    ensures Flooded(cfg, Asked(cfg, env, s, n), n + 1)
  {
    hide Distinct;
    hide Asked;
    hide Allocate;
    hide InsertIn;
    AskedIs(cfg, env, s, n);
    var f := Free(s, 0);
    var id, u := f[|f| - 1], Allocate(cfg, s, Line(n));
    assert f == f[..|f|-1] + [id];
    InitDistinct(f[..|f|-1], id);
    AllocatedFlood(cfg, s, n);
    PushedFlood(cfg, u, id, n);
  }

  /** After the allocation the new line is only missing from the queue. */
  lemma AllocatedFlood(cfg: Config, s: Mem, n: nat)
    requires Flooded(cfg, s, n) && n < cfg.mshr
    requires var f := Free(s, 0); Distinct(f[..|f|-1]) && f[|f| - 1] !in f[..|f|-1]
    ensures var f := Free(s, 0); FloodedBut(cfg, Allocate(cfg, s, Line(n)), f[|f| - 1], n)
  {
    hide Distinct;
    var f := Free(s, 0);
    var id, u := f[|f| - 1], Allocate(cfg, s, Line(n));
    var xs := Live(s, 0);
    assert Live(u, 0) == xs + [id] && Free(u, 0) == f[..|f|-1];
    assert id in f;
    forall i | 0 <= i < n
      ensures xs[i] != id && At(u, xs[i]) == At(s, xs[i])
    {
      assert At(s, xs[i]).uid >= 0;
    }
    forall q, x | x in Q(u, q)
      ensures At(u, x).uid >= 0
    {
      assert x in Q(s, q) && x != id && At(u, x) == At(s, x);
    }
    assert Q(u, InQ(L2(0))) == Q(s, InQ(L2(0)));
  }

  ghost predicate FloodedBut(cfg: Config, u: Mem, id: Id, n: nat) {
    && |Live(u, 0)| == n + 1 && id == Live(u, 0)[n]
    && (forall i :: 0 <= i <= n ==>
          var r := At(u, Live(u, 0)[i]);
          r.addr == 64 * i && r.size == 64 && r.kind == DFetch && r.uid >= 0)
    && |Free(u, 0)| == cfg.mshr - n - 1 && Distinct(Free(u, 0)) && id !in Free(u, 0)
    && (forall x :: x in Free(u, 0) ==> At(u, x).uid == -1 && At(u, x).queue.None? && x in u.reqs)
    && |Q(u, InQ(L2(0)))| == n && (forall p, x :: x in Q(u, p) ==> At(u, x).uid >= 0)
  }

  lemma PushFrame(cfg: Config, u: Mem, p: Place, id: Id)
    requires !Full(u, p)
    ensures var t := Push(cfg, u, p, id).0;
            && Joined(u, t, p, id) && |Q(t, p)| == |Q(u, p)| + 1 && t.live == u.live && t.free == u.free
            && At(t, id) == At(u, id).(queue := Some(p))
  {
    PushJoins(cfg, u, p, id);
    SortSize(cfg.order, u, Q(u, p) + [id]);
    hide Sort;
  }

  lemma PushedFlood(cfg: Config, u: Mem, id: Id, n: nat)
    requires FloodedBut(cfg, u, id, n) && n < 1024
    ensures Flooded(cfg, InsertIn(cfg, u, L2(0), id).0, n + 1)
  {
    var p := InQ(L2(0));
    PushFrame(cfg, u, p, id);
    hide Push;
    hide Distinct;
    var t := Push(cfg, u, p, id).0;
    var xs := Live(u, 0);
    forall i | 0 <= i <= n
      ensures SameFace(At(u, xs[i]), At(t, xs[i]))
    {
    }
    forall q, x | x in Q(t, q)
      ensures At(t, x).uid >= 0
    {
      assert x != id ==> x in Q(u, q);
    }
  }

  /** The request for line 1024 is alive, unmerged and in no queue. */
  lemma FloodLoses(cfg: Config, env: Env, s: Mem)
    requires Flooded(cfg, s, 1024) && cfg.mshr > 1024
    ensures var t := Asked(cfg, env, s, 1024);
            exists id :: Lost(t, id)
  {
    AskedIs(cfg, env, s, 1024);
    var f := Free(s, 0);
    var id, t := f[|f| - 1], Asked(cfg, env, s, 1024);
    assert id in f && At(s, id).uid == -1;
    forall p
      ensures id !in Q(t, p)
    {
      assert Q(t, p) == Q(s, p);
    }
    assert Lost(t, id);
  }

  function Flood(cfg: Config, env: Env, n: nat): (states: seq<Mem>)
    ensures |states| == n + 1
  {
    if n == 0 then [Start(cfg)]
    else var xs := Flood(cfg, env, n - 1); xs + [Asked(cfg, env, xs[n - 1], n - 1)]
  }

  function Floods(env: Env, n: nat): (steps: seq<Step>)
    ensures |steps| == n && forall i :: 0 <= i < n ==> steps[i] == Step(Request(Line(i), false), env)
  {
    if n == 0 then [] else Floods(env, n - 1) + [Step(Request(Line(n - 1), false), env)]
  }

  lemma {:induction false} FloodRuns(cfg: Config, env: Env, n: nat)
    requires cfg.cores > 0
    ensures IsRun(cfg, Flood(cfg, env, n), Floods(env, n))
  {
    if n > 0 {
      FloodRuns(cfg, env, n - 1);
      var xs, ys := Flood(cfg, env, n - 1), Floods(env, n - 1);
      var states, steps := Flood(cfg, env, n), Floods(env, n);
      forall i | 0 <= i < n
        ensures OpOk(cfg, states[i], steps[i].op) && states[i + 1] == Exec(cfg, states[i], steps[i])
      {
        if i < n - 1 { assert steps[i] == ys[i] && states[i] == xs[i] && states[i + 1] == xs[i + 1]; }
      }
    }
  }

  lemma {:induction false} FloodStates(cfg: Config, env: Env, n: nat)
    requires cfg.cores > 0 && n <= 1024 && n <= cfg.mshr
    ensures Flooded(cfg, Flood(cfg, env, n)[n], n)
  {
    if n == 0 {
      PooledIdle(cfg, cfg.cores);
      assert Distinct(Free(Start(cfg), 0));
    } else {
      FloodStates(cfg, env, n - 1);
      FloodStep(cfg, env, Flood(cfg, env, n - 1)[n - 1], n - 1);
    }
  }

  /** With more than 1024 entries the ignored result of the insertion can be false, and then the
      request is lost. So the bound of `ExactlyOnePlace` is exact. */
  lemma LargeBufferLoses(cfg: Config, env: Env) returns (states: seq<Mem>, steps: seq<Step>, id: Id)
    requires cfg.cores > 0 && cfg.mshr > 1024
    ensures IsRun(cfg, states, steps) && |states| == 1026 && Lost(states[1025], id)
  {
    states, steps := Flood(cfg, env, 1025), Floods(env, 1025);
    FloodRuns(cfg, env, 1025);
    FloodStates(cfg, env, 1024);
    var s := Flood(cfg, env, 1024)[1024];
    FloodLoses(cfg, env, s);
    assert states[1025] == Asked(cfg, env, s, 1024);
    id :| Lost(states[1025], id);
  }
}
