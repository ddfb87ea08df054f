/**
 Where one visited request goes, said of the answers it got and of the caches' wiring alone: a miss goes down
 and is not completed, a hit never goes down, and a message goes where its stage says.
 */
module MemRoutes {
  import opened MemLists
  import opened MemModel
  import opened MemInvariant
  import opened MemSteps
  import opened MemFill
  import opened MemVisit
  import opened Options

  // ---------- the vocabulary ----------

  /** The lookup is made and finds the line. */
  predicate LineThere(cfg: Config, env: Env, u: Unit, id: Id) {
    env(id).hit && !cfg.cache(u).disable && (u.L3? ==> !env(id).bypass)
  }

  function Next(u: Unit, r: Req): Unit {
    match u
    case L1(_) => L2(r.core)
    case L2(_) => L3(r.l3)
    case L3(_) => u
  }

  /** Cache `u` has a link to the next cache of `r`. */
  predicate Coupled(cfg: Config, u: Unit, r: Req) {
    var k := cfg.cache(u);
    k.coupledDown && match u
                     case L1(_) => k.nextId == r.core
                     case L2(_) => k.nextId == r.l3
                     case L3(_) => false
  }

  /** A miss of `r` in cache `u` goes straight to the next level. */
  predicate WiredDown(cfg: Config, u: Unit, r: Req) { !cfg.cache(u).hasRouter || Coupled(cfg, u, r) }

  /** A fill of `r` in cache `u` goes straight to the level above. */
  predicate WiredUp(cfg: Config, u: Unit, r: Req) {
    var k := cfg.cache(u);
    !k.hasRouter || (k.coupledUp && !u.L1? && k.prevId == r.core)
  }

  predicate SameLogs(s: Mem, t: Mem) {
    && t.live == s.live && t.free == s.free && t.next == s.next && t.heap == s.heap
    && t.effects == s.effects && t.calls == s.calls && t.freed == s.freed
  }

  /** Request `id` is added to place `p` with stage `g`. No other request or place changes, nothing is
      completed and no callback called. */
  ghost predicate Sent(s: Mem, t: Mem, id: Id, p: Place, g: Stage) {
    Joined(s, t, p, id) && SameLogs(s, t) && At(t, id) == At(s, id).(queue := Some(p), stage := g)
  }

  /** The outcome `v` of offering `id` to a queue that takes `n`: it is there now, or the queue is full and
      nothing happened. */
  ghost predicate Offered(s: Mem, v: (Mem, bool), id: Id, p: Place, g: Stage, n: nat) {
    if |Q(s, p)| == n then v == (s, false) else v.1 && Sent(s, v.0, id, p, g)
  }

  lemma PushOffers(cfg: Config, s: Mem, p: Place, id: Id)
    ensures Offered(s, Push(cfg, s, p, id), id, p, At(s, id).stage, Size(p))
  {
    if !Full(s, p) { PushJoins(cfg, s, p, id); }
  }

  lemma StagedOffers(cfg: Config, s: Mem, p: Place, id: Id, g: Stage)
    ensures var (t, ok) := Push(cfg, s, p, id); Offered(s, if ok then (Staged(t, id, g), true) else (t, false), id, p, g, Size(p))
  {
    PushOffers(cfg, s, p, id);
    var (t, ok) := Push(cfg, s, p, id);
    hide Push;
    if ok { JoinStaged(s, t, p, id, g); }
    hide Joined;
  }

  lemma InsertOffers(cfg: Config, s: Mem, u: Unit, id: Id, g: Stage)
    ensures Offered(s, InsertIn(cfg, s, u, id), id, InQ(u), At(s, id).stage, 1024)
    ensures Offered(s, InsertFill(cfg, s, u, id), id, FillQ(u), FillNew, 1024)
    ensures Offered(s, InsertOut(cfg, s, u, id, g), id, OutQ(u), g, 2048)
  {
    PushOffers(cfg, s, InQ(u), id);
    StagedOffers(cfg, s, FillQ(u), id, FillNew);
    StagedOffers(cfg, s, OutQ(u), id, g);
    hide Push;
    hide Offered;
  }

  lemma OfferedOnlyMoves(s: Mem, v: (Mem, bool), id: Id, p: Place, g: Stage, n: nat)
    requires Offered(s, v, id, p, g, n)
    ensures At(v.0, id).done == At(s, id).done && SameLogs(s, v.0)
  {
    hide Joined;
  }

  // ---------- input queues ----------

  lemma DownOffers(cfg: Config, s: Mem, u: Unit, id: Id)
    ensures var v, r := SendDown(cfg, s, u, id), At(s, id);
            if !WiredDown(cfg, u, r) then Offered(s, v, id, OutQ(u), OutNew, 2048)
            else if u.L3? then v == (s, false)
            else Offered(s, v, id, InQ(Next(u, r)), r.stage, 1024)
  {
    hide InsertIn;
    hide InsertOut;
    hide Offered;
    hide At;
    InsertOffers(cfg, s, u, id, OutNew);
    InsertOffers(cfg, s, Next(u, At(s, id)), id, OutNew);
  }

  /** A request whose lookup is not made or does not find the line is not completed: it goes to the input
      queue of the next cache, or to the output queue as a new request, or stays because that is full. */
  lemma MissGoesDown(cfg: Config, env: Env, s: Mem, u: Unit, id: Id)
    requires env(id).ready && !LineThere(cfg, env, u, id)
    ensures var v, r := Visit(cfg, env, s, LoopIn, u, id), At(s, id);
            if !WiredDown(cfg, u, r) then Offered(s, v, id, OutQ(u), OutNew, 2048)
            else if u.L3? then v == (s, false)
            else Offered(s, v, id, InQ(Next(u, r)), r.stage, 1024)
    ensures var t := Visit(cfg, env, s, LoopIn, u, id).0;
            At(t, id).done == At(s, id).done && t.calls == s.calls && t.effects == s.effects && t.freed == s.freed
  {
    var r, v := At(s, id), Visit(cfg, env, s, LoopIn, u, id);
    DownOffers(cfg, s, u, id);
    hide SendDown;
    hide Offered;
    hide WiredDown;
    if !WiredDown(cfg, u, r) {
      OfferedOnlyMoves(s, v, id, OutQ(u), OutNew, 2048);
    } else if !u.L3? {
      OfferedOnlyMoves(s, v, id, InQ(Next(u, r)), r.stage, 1024);
    }
  }

  /** One attempt to complete `id`: its callback, if it has one, is the last called and decides; the request is
      done if and only if it succeeds; and no queue changes but for evictions. */
  ghost predicate Attempt(s: Mem, v: (Mem, bool), id: Id) {
    var (t, ok) := v; var r := At(s, id);
    && (forall p: Place :: !p.WbQ? ==> Q(t, p) == Q(s, p))
    && At(t, id).done == ok && At(t, id).uid == r.uid && s.calls <= t.calls
    && if r.fill == NoFill then ok && t.calls == s.calls
       else |t.calls| > |s.calls| && t.calls[|t.calls|-1] == Call(r.uid, r.fill, ok)
  }

  /** A request whose lookup finds the line never goes down: a write-back is complete, another is completed by
      a cache that does so, and otherwise it goes up, to the fill queue above or to the output queue as a fill. */
  lemma HitGoesUp(cfg: Config, env: Env, s: Mem, u: Unit, gone: seq<Id>, id: Id)
    requires Inv(cfg, s, InQ(u), gone, []) && id in Q(s, InQ(u)) && id !in gone
    requires env(id).ready && LineThere(cfg, env, u, id)
    ensures var v, r := Visit(cfg, env, s, LoopIn, u, id), At(s, id);
            if r.kind == WriteBack then v == (s.(reqs := s.reqs[id := r.(done := true)]), true)
            else if cfg.cache(u).done then Attempt(s, v, id)
            else if !WiredUp(cfg, u, r) then Offered(s, v, id, OutQ(u), OutFill, 2048)
            else if u.L3? then Offered(s, v, id, FillQ(L2(r.core)), FillNew, 1024)
            else v == (s, false)
  {
    var r := At(s, id);
    assert Sits(s, InQ(u), id);
    InsertOffers(cfg, s, u, id, OutFill);
    InsertOffers(cfg, s, L2(r.core), id, OutFill);
    if r.kind != WriteBack && cfg.cache(u).done { FinishAttempts(cfg, env, s, id, InQ(u), gone); }
    hide InsertFill;
    hide InsertOut;
    hide Offered;
    hide Finish;
    hide Inv;
    hide Attempt;
  }

  lemma {:induction false} ServeEachCalls(cfg: Config, env: Env, s: Mem, ms: seq<Id>)
    ensures s.calls <= ServeEach(cfg, env, s, ms).0.calls
  {
    if ms != [] {
      var n := |ms| - 1;
      ServeEachCalls(cfg, env, s, ms[..n]);
      ServeCalls(cfg, env, ServeEach(cfg, env, s, ms[..n]).0, ms[n]);
      hide Serve;
    }
  }

  lemma ServeCalls(cfg: Config, env: Env, s: Mem, id: Id)
    ensures s.calls <= Serve(cfg, env, s, id).0.calls
  {
    EvictCalls(cfg, s, L1(At(s, id).core), env(id).victim);
    hide Evict;
    hide At;
  }

  lemma EvictCalls(cfg: Config, s: Mem, u: Unit, v: Option<Victim>)
    ensures Evict(cfg, s, u, v).calls == s.calls
  {
    hide Sort;
    hide At;
  }

  lemma {:induction false} DropEachCalls(s: Mem, id: Id, ds: seq<Id>)
    ensures DropEach(s, id, ds).calls == s.calls
  {
    if ds != [] { DropEachCalls(s, id, ds[..|ds|-1]); }
  }

  lemma DrainCalls(cfg: Config, env: Env, s: Mem, id: Id)
    ensures s.calls <= Drain(cfg, env, s, id).0.calls
  {
    var (t, ds) := ServeEach(cfg, env, s, At(s, id).merge);
    ServeEachCalls(cfg, env, s, At(s, id).merge);
    DropEachCalls(t, id, ds);
  }

  lemma DcuDoneCalls(cfg: Config, env: Env, s: Mem, id: Id)
    requires id in s.reqs && s.heap != id
    ensures var (t, ok) := DcuDone(cfg, env, s, id); t.calls == s.calls + [Call(At(s, id).uid, At(s, id).fill, ok)]
  {
    var u := L1(At(s, id).core);
    EvictSame(cfg, s, u, env(id).victim, id);
    hide Evict;
    hide Full;
  }

  lemma EvictSame(cfg: Config, s: Mem, u: Unit, v: Option<Victim>, id: Id)
    requires id in s.reqs && s.heap != id
    ensures Evict(cfg, s, u, v).calls == s.calls && At(Evict(cfg, s, u, v), id) == At(s, id)
  {
    hide Sort;
  }

  lemma HeapIsNew(cfg: Config, s: Mem, id: Id, hole: Place, gone: seq<Id>)
    requires Inv(cfg, s, hole, gone, []) && Alive(s, id)
    ensures s.heap != id
  {
    assert EntryOk(cfg, s, id);
  }

  lemma CallbackCalls(cfg: Config, env: Env, s: Mem, id: Id, hole: Place, gone: seq<Id>)
    requires Inv(cfg, s, hole, gone, []) && Alive(s, id) && !At(s, id).done
    ensures var (t, ok) := Callback(cfg, env, s, id); var r := At(s, id);
            && s.calls <= t.calls
            && if r.fill == NoFill then ok && t == s
               else |t.calls| > |s.calls| && t.calls[|t.calls|-1] == Call(r.uid, r.fill, ok)
  {
    hide Drain;
    hide DcuDone;
    hide Inv;
    hide Settled;
    DrainCalls(cfg, env, s, id);
    DrainKeeps(cfg, env, s, id, hole, gone);
    var (t, all) := Drain(cfg, env, s, id);
    HeapIsNew(cfg, t, id, hole, gone);
    DcuDoneCalls(cfg, env, t, id);
  }

  lemma DrainedFrame(s: Mem, t: Mem, id: Id)
    requires Drained(s, t, id)
    ensures At(t, id).done == At(s, id).done && At(t, id).uid == At(s, id).uid
    ensures forall p: Place :: !p.WbQ? ==> Q(t, p) == Q(s, p) && Q(MarkDone(t, id), p) == Q(s, p)
  {
  }

  lemma AttemptFrom(s: Mem, t: Mem, ok: bool, id: Id)
    requires !At(s, id).done && !At(t, id).done && At(t, id).uid == At(s, id).uid && s.calls <= t.calls
    requires forall p: Place :: !p.WbQ? ==> Q(t, p) == Q(s, p) && Q(MarkDone(t, id), p) == Q(s, p)
    requires var r := At(s, id);
             if r.fill == NoFill then ok && t == s
             else |t.calls| > |s.calls| && t.calls[|t.calls|-1] == Call(r.uid, r.fill, ok)
    ensures Attempt(s, if ok then (MarkDone(t, id), true) else (t, false), id)
  {
  }

  lemma FinishAttempts(cfg: Config, env: Env, s: Mem, id: Id, hole: Place, gone: seq<Id>)
    requires Inv(cfg, s, hole, gone, []) && Sits(s, hole, id)
    ensures Attempt(s, Finish(cfg, env, s, id), id)
  {
    hide Callback;
    hide Inv;
    hide Drained;
    hide Attempt;
    CallbackKeeps(cfg, env, s, id, hole, gone);
    CallbackCalls(cfg, env, s, id, hole, gone);
    var (t, ok) := Callback(cfg, env, s, id);
    DrainedFrame(s, t, id);
    AttemptFrom(s, t, ok, id);
  }

  // ---------- output queues and the network ----------

  /** Where a message of stage `g` in the output queue of cache `u` goes, if anywhere. */
  predicate Addressed(u: Unit, r: Req, d: Dst) {
    match u
    case L1(_) => r.stage == OutWb && d == ToFill(L2(r.core))
    case L2(_) =>
      || (r.stage == OutNew && d == ToIn(L3(r.l3))) || (r.stage == OutFill && d == ToFill(L1(r.core)))
      || (r.stage == OutWb && d == ToFill(L3(r.l3)))
    case L3(_) =>
      || ((r.stage == OutNew || r.stage == OutWb) && d == ToMc) || (r.stage == OutFill && d == ToFill(L2(r.core)))
  }

  /** A ready message enters the network when it takes it, addressed by its stage; otherwise it stays. */
  lemma OutEntersNoc(cfg: Config, env: Env, s: Mem, u: Unit, id: Id, d: Dst)
    requires env(id).ready && Addressed(u, At(s, id), d)
    ensures var (t, ok) := Visit(cfg, env, s, LoopOut, u, id);
            && ok == env(id).accept && (!ok ==> t == s)
            && (ok ==> Joined(s, t, Noc, id) && SameLogs(s, t)
                       && At(t, id) == At(s, id).(stage := InNoc, queue := None, dst := d))
  {
    hide Joined;
    hide Distinct;
    DepartJoins(s, id, d);
  }

  /** A packet is put where it is addressed to. A memory controller that cannot take a prefetch frees it. */
  lemma PacketArrives(cfg: Config, env: Env, s: Mem, id: Id)
    ensures var v, r := Receive(cfg, env, s, id), At(s, id);
            match r.dst
            case ToFill(w) => Offered(s, v, id, FillQ(w), FillNew, 1024)
            case ToIn(w) => Offered(s, v, id, InQ(w), r.stage, 1024)
            case ToMc =>
              if env(id).accept then
                && v.1 && Joined(s, v.0, Dram, id) && SameLogs(s, v.0) && At(v.0, id) == r.(stage := InDram, queue := None)
              else if r.kind != DPrefetch then v == (s, false)
              else v.1 && (r.merge == [] ==> v.0.freed == s.freed + [Freed(r.uid, r.kind, r.fill)] && !Alive(v.0, id))
  {
    var r := At(s, id);
    if r.dst.ToMc? {
      McTakes(cfg, env, s, id);
    } else {
      InsertOffers(cfg, s, r.dst.u, id, r.stage);
    }
    hide InsertIn;
    hide InsertFill;
    hide Offered;
    hide Joined;
    hide FreeReq;
  }

  lemma McTakes(cfg: Config, env: Env, s: Mem, id: Id)
    requires At(s, id).dst == ToMc
    ensures var v, r := Receive(cfg, env, s, id), At(s, id);
            if env(id).accept then
              && v.1 && Joined(s, v.0, Dram, id) && SameLogs(s, v.0) && At(v.0, id) == r.(stage := InDram, queue := None)
            else if r.kind != DPrefetch then v == (s, false)
            else v.1 && (r.merge == [] ==> v.0.freed == s.freed + [Freed(r.uid, r.kind, r.fill)] && !Alive(v.0, id))
  {
    if env(id).accept && Distinct(Q(s, Dram)) && id !in Q(s, Dram) { AppendDistinct(Q(s, Dram), id); }
    hide Distinct;
  }

  /** A write-back goes down, into the next cache's fill queue or to the output queue as a write-back. */
  lemma WriteBackGoesDown(cfg: Config, env: Env, s: Mem, u: Unit, id: Id)
    requires env(id).ready
    ensures var v, r := Visit(cfg, env, s, LoopWb, u, id), At(s, id);
            if Coupled(cfg, u, r) then Offered(s, v, id, FillQ(Next(u, r)), FillNew, 1024)
            else Offered(s, v, id, OutQ(u), OutWb, 2048)
  {
    hide InsertFill;
    hide InsertOut;
    hide Offered;
    hide At;
    InsertOffers(cfg, s, u, id, OutWb);
    InsertOffers(cfg, s, Next(u, At(s, id)), id, OutWb);
  }

  // ---------- fill queues ----------

  /** The next place of a fill, its stage there and the queue's size; none above the L1. */
  predicate Upwards(cfg: Config, u: Unit, r: Req, p: Place, g: Stage, n: nat) {
    if !WiredUp(cfg, u, r) then p == OutQ(u) && g == OutFill && n == 2048
    else match u
         case L1(_) => false
         case L2(_) => p == FillQ(L1(r.core)) && g == FillNew && n == 1024
         case L3(_) => p == FillQ(L2(r.core)) && g == FillNew && n == 1024
  }

  /** A fill goes up if there is room, and otherwise waits for that. */
  ghost predicate FillsUp(s: Mem, v: (Mem, bool), id: Id, p: Place, g: Stage, n: nat) {
    if |Q(s, p)| == n then v == (Staged(s, id, WaitFill), false) else v.1 && Sent(s, v.0, id, p, g)
  }

  lemma UpIs(cfg: Config, s: Mem, u: Unit, id: Id, p: Place, g: Stage, n: nat)
    requires Upwards(cfg, u, At(s, id), p, g, n)
    ensures (p == OutQ(u) && g == OutFill && n == 2048) || (p.FillQ? && g == FillNew && n == 1024)
    ensures SendUp(cfg, s, u, id) == if p.FillQ? then InsertFill(cfg, s, p.u, id) else InsertOut(cfg, s, p.u, id, OutFill)
  {
    hide InsertFill;
    hide InsertOut;
    hide At;
  }

  lemma UpOffers(cfg: Config, s: Mem, u: Unit, id: Id, p: Place, g: Stage, n: nat)
    requires Upwards(cfg, u, At(s, id), p, g, n)
    ensures Offered(s, SendUp(cfg, s, u, id), id, p, g, n)
    ensures FillsUp(s, WaitIf(SendUp(cfg, s, u, id), id, WaitFill), id, p, g, n)
  {
    hide InsertFill;
    hide InsertOut;
    hide Offered;
    hide FillsUp;
    hide SendUp;
    hide Upwards;
    hide At;
    UpIs(cfg, s, u, id, p, g, n);
    InsertOffers(cfg, s, p.u, id, OutFill);
    OfferedWaits(s, SendUp(cfg, s, u, id), id, p, g, n);
  }

  lemma OfferedWaits(s: Mem, v: (Mem, bool), id: Id, p: Place, g: Stage, n: nat)
    requires Offered(s, v, id, p, g, n)
    ensures FillsUp(s, WaitIf(v, id, WaitFill), id, p, g, n)
  {
    hide Joined;
  }

  /** An evicted dirty line becomes a new write-back request in the write-back queue. */
  lemma EvictedWaits(cfg: Config, s: Mem, u: Unit, v: Victim)
    requires |Q(s, WbQ(u))| != 2048 && s.heap !in s.reqs
    ensures var t := Evict(cfg, s, u, Some(v)); var r := At(t, s.heap);
            && Joined(s, t, WbQ(u), s.heap) && r.queue == Some(WbQ(u)) && r.kind == WriteBack && r.uid == s.next
            && r.addr == v.addr && r.size == v.size && r.core == v.core && r.l3 == v.l3 && !r.done && r.fill == NoFill
  {
    var w := NewWb(cfg, s, v);
    PushJoins(cfg, w, WbQ(u), s.heap);
    assert forall p :: Q(w, p) == Q(s, p);
    hide Sort;
    assert Evict(cfg, s, u, Some(v)) == Push(cfg, w, WbQ(u), s.heap).0;
    hide Push;
  }

  /** Once its line is in the cache, a request is completed by a cache that does so, waiting to be tried again
      if its callback refuses; elsewhere a write-back is complete and a fill goes up, but for a disabled cache
      that has no link up. */
  ghost predicate AfterFill(cfg: Config, s: Mem, v: (Mem, bool), u: Unit, id: Id) {
    var r := At(s, id);
    if cfg.cache(u).done then Attempt(s, v, id) && (!v.1 ==> At(v.0, id).stage == WaitDone)
    else if r.kind == WriteBack then v == (s.(reqs := s.reqs[id := r.(done := true)]), true)
    else if cfg.cache(u).disable && (!cfg.cache(u).coupledUp || u.L1? || cfg.cache(u).prevId != r.core) then v == (s, false)
    else forall p, g, n :: Upwards(cfg, u, r, p, g, n) ==> FillsUp(s, v, id, p, g, n)
  }

  lemma FilledGoes(cfg: Config, env: Env, s: Mem, u: Unit, gone: seq<Id>, id: Id)
    requires Inv(cfg, s, FillQ(u), gone, []) && Sits(s, FillQ(u), id)
    ensures AfterFill(cfg, s, Filled(cfg, env, s, u, id), u, id)
  {
    hide Inv;
    hide Attempt;
    hide FillsUp;
    hide SendUp;
    hide Finish;
    FinishAttempts(cfg, env, s, id, FillQ(u), gone);
    AttemptWaits(s, Finish(cfg, env, s, id), id);
    forall p, g, n | Upwards(cfg, u, At(s, id), p, g, n)
      ensures FillsUp(s, WaitIf(SendUp(cfg, s, u, id), id, WaitFill), id, p, g, n)
    {
      UpOffers(cfg, s, u, id, p, g, n);
    }
  }

  lemma AttemptWaits(s: Mem, v: (Mem, bool), id: Id)
    requires Attempt(s, v, id)
    ensures Attempt(s, WaitIf(v, id, WaitDone), id)
    ensures !v.1 ==> At(WaitIf(v, id, WaitDone).0, id).stage == WaitDone
  {
    assert forall p :: Q(WaitIf(v, id, WaitDone).0, p) == Q(v.0, p);
  }

  /** A visit of the fill queue. A new fill of an enabled cache without the line is inserted first, which takes
      a write port and may evict a line; a request that waited goes on where it stopped. */
  lemma FillVisited(cfg: Config, env: Env, s: Mem, u: Unit, gone: seq<Id>, id: Id)
    requires Inv(cfg, s, FillQ(u), gone, []) && id in Q(s, FillQ(u)) && id !in gone
    requires env(id).ready && |Q(s, WbQ(u))| != 2048
    ensures var v, c := Visit(cfg, env, s, LoopFill, u, id), env(id);
            match At(s, id).stage
            case FillNew =>
              if cfg.cache(u).disable || c.hit then AfterFill(cfg, s, v, u, id)
              else if !c.port then v == (s, false)
              else AfterFill(cfg, Evict(cfg, s, u, c.victim), v, u, id)
            case WaitDone => Attempt(s, v, id)
            case _ => forall p, g, n :: Upwards(cfg, u, At(s, id), p, g, n) ==> FillsUp(s, v, id, p, g, n)
  {
    hide Inv;
    hide Evict;
    hide Filled;
    hide AfterFill;
    hide Attempt;
    hide Finish;
    hide SendUp;
    hide FillsUp;
    SitsHere(cfg, s, FillQ(u), gone, id);
    if At(s, id).stage == FillNew {
      FilledGoes(cfg, env, s, u, gone, id);
      EvictKeeps(cfg, s, u, env(id).victim, FillQ(u), gone, []);
      var e := Evict(cfg, s, u, env(id).victim);
      hide Grown;
      GrownSits(s, e, FillQ(u), id);
      FilledGoes(cfg, env, e, u, gone, id);
    } else if At(s, id).stage == WaitDone {
      FinishAttempts(cfg, env, s, id, FillQ(u), gone);
    } else {
      forall p, g, n | Upwards(cfg, u, At(s, id), p, g, n)
        ensures FillsUp(s, WaitIf(SendUp(cfg, s, u, id), id, WaitFill), id, p, g, n)
      {
        UpOffers(cfg, s, u, id, p, g, n);
      }
    }
  }

  lemma SitsHere(cfg: Config, s: Mem, p: Place, gone: seq<Id>, id: Id)
    requires Inv(cfg, s, p, gone, []) && id in Q(s, p) && id !in gone
    ensures Sits(s, p, id)
  {
  }

  lemma GrownSits(s: Mem, t: Mem, p: Place, id: Id)
    requires Grown(s, t) && Sits(s, p, id)
    ensures Sits(t, p, id)
  {
  }

  // ---------- how far a loop looks ----------

  /** Every request of `xs` is visited, in turn. */
  function VisitAll(cfg: Config, env: Env, s: Mem, l: Loop, u: Unit, xs: seq<Id>): (Mem, seq<Id>) {
    if xs == [] then (s, [])
    else
      var (t, ds) := VisitAll(cfg, env, s, l, u, xs[..|xs|-1]);
      var (v, ok) := Visit(cfg, env, t, l, u, xs[|xs|-1]);
      (v, if ok then ds + [xs[|xs|-1]] else ds)
  }

  /** After the first `k` requests of `xs` four are handled, or fills are processed and the write-back queue
      is full. */
  predicate StopsAfter(cfg: Config, env: Env, s: Mem, l: Loop, u: Unit, xs: seq<Id>, k: nat)
    requires k <= |xs|
  {
    var (t, ds) := VisitAll(cfg, env, s, l, u, xs[..k]);
    |ds| == 4 || (l.LoopFill? && |Q(t, WbQ(u))| == 2048)
  }

  lemma SamePrefix(cfg: Config, env: Env, s: Mem, l: Loop, u: Unit, xs: seq<Id>, n: nat)
    requires n <= |xs|
    ensures forall j :: 0 <= j <= n ==> (StopsAfter(cfg, env, s, l, u, xs, j) <==> StopsAfter(cfg, env, s, l, u, xs[..n], j))
  {
    hide VisitAll;
    forall j | 0 <= j <= n
      ensures StopsAfter(cfg, env, s, l, u, xs, j) <==> StopsAfter(cfg, env, s, l, u, xs[..n], j)
    {
      assert xs[..n][..j] == xs[..j];
    }
  }

  /** What the last request of `xs` adds to the scan of those before it. */
  lemma ScanLast(cfg: Config, env: Env, s: Mem, l: Loop, u: Unit, xs: seq<Id>)
    requires xs != []
    ensures var n := |xs| - 1;
            var before := Scan(cfg, env, s, l, u, xs[..n]);
            && (before == VisitAll(cfg, env, s, l, u, xs[..n]) ==>
                  Scan(cfg, env, s, l, u, xs)
                  == if StopsAfter(cfg, env, s, l, u, xs, n) then before else VisitAll(cfg, env, s, l, u, xs))
            && (Stops(before.0, l, u, before.1) ==> Scan(cfg, env, s, l, u, xs) == before)
  {
    hide Visit;
  }

  /** A loop visits the requests of its queue in order until it first has to stop, or all of them. */
  lemma {:induction false} ScanStops(cfg: Config, env: Env, s: Mem, l: Loop, u: Unit, xs: seq<Id>) returns (k: nat)
    ensures k <= |xs| && Scan(cfg, env, s, l, u, xs) == VisitAll(cfg, env, s, l, u, xs[..k])
    ensures forall j :: 0 <= j < k ==> !StopsAfter(cfg, env, s, l, u, xs, j)
    ensures k < |xs| ==> StopsAfter(cfg, env, s, l, u, xs, k)
  {
    hide Visit;
    if xs == [] {
      k := 0;
    } else {
      var n := |xs| - 1;
      k := ScanStops(cfg, env, s, l, u, xs[..n]);
      SamePrefix(cfg, env, s, l, u, xs, n);
      hide StopsAfter;
      assert xs[..n][..k] == xs[..k];
      ScanLast(cfg, env, s, l, u, xs);
      if k == n && !StopsAfter(cfg, env, s, l, u, xs, n) {
        k := n + 1;
        assert xs[..k] == xs;
      }
    }
  }

  // ---------- the first-level cache ----------

  /** `dcu_c::done` succeeds, and takes effect, exactly when its write-back queue has room and the cache is off
      or has a free port; only then, and only when the cache is on, is a line evicted. */
  lemma DoneIff(cfg: Config, env: Env, s: Mem, id: Id)
    requires id in s.reqs && s.heap != id
    ensures var (t, ok) := DcuDone(cfg, env, s, id); var u := L1(At(s, id).core);
            && (ok <==> |Q(s, WbQ(u))| != 2048 && (cfg.cache(u).disable || env(id).port))
            && t.effects == s.effects + (if ok then [At(s, id).uid] else [])
            && (ok && !cfg.cache(u).disable && env(id).victim.Some? <==> t.next == s.next + 1)
            && (t.next == s.next ==> t.queues == s.queues && t.reqs == s.reqs)
  {
    var u := L1(At(s, id).core);
    EvictSame(cfg, s, u, env(id).victim, id);
    EvictNext(cfg, s, u, env(id).victim);
    hide Evict;
  }

  lemma EvictNext(cfg: Config, s: Mem, u: Unit, v: Option<Victim>)
    ensures var t := Evict(cfg, s, u, v);
            && t.effects == s.effects && (v.None? ==> t == s) && (v.Some? ==> t.next == s.next + 1)
  {
    hide Sort;
  }

  // ---------- memory ----------

  /** What memory sends back goes to the request's own L3. */
  lemma ReplyReturns(s: Mem, id: Id)
    requires id in Q(s, Dram) && Distinct(Q(s, Dram))
    ensures var t := Reply(s, id);
            && At(t, id) == At(s, id).(stage := InNoc, queue := None, dst := ToFill(L3(At(s, id).l3)))
            && Q(t, Noc) == Q(s, Noc) + [id] && (forall x :: x in Q(t, Dram) <==> x in Q(s, Dram) && x != id)
            && (forall p :: p != Noc && p != Dram ==> Q(t, p) == Q(s, p)) && SameLogs(s, t)
            && forall x :: x != id ==> At(t, x) == At(s, x)
  {
    WithoutIn(Q(s, Dram), id);
  }
}
