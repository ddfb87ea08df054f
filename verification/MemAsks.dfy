/**
 What `new_mem_req` answers and does, said of the miss buffers alone: which prefetches a flush frees, when a
 demand is refused, when a prefetch is issued, and what a merge leaves in the leader.
 */
module MemAsks {
  import opened MemLists
  import opened MemModel
  import opened MemInvariant
  import opened MemSteps
  import opened MemRelease
  import opened MemFill
  import opened MemVisit
  import opened MemRequest
  import opened Options

  // ---------- the flush ----------

  /** A live prefetch of core `c` in one of the caches' queues, rather than in the network or at memory. */
  predicate Queued(s: Mem, c: nat, x: Id) {
    Alive(s, x) && At(s, x).kind == DPrefetch && At(s, x).core == c && At(s, x).queue.Some?
  }

  lemma FlushOneFrees(cfg: Config, env: Env, s: Mem, id: Id)
    requires Inv(cfg, s, Noc, [], []) && Alive(s, id) && At(s, id).kind == DPrefetch
    ensures Alive(FlushOne(cfg, env, s, id), id) <==> At(s, id).queue.None?
  {
    if At(s, id).queue.Some? {
      var p := At(s, id).queue.value;
      assert TreeOk(s, id) && Travels(s, id);
      FreeIsRelease(cfg, env, s, id);
      assert FlushOne(cfg, env, s, id) == Release(Pop(s, p, id), id);
    }
  }

  lemma {:induction false} FlushEachFrees(cfg: Config, env: Env, s: Mem, ds: seq<Id>)
    requires Inv(cfg, s, Noc, [], []) && Distinct(ds)
    requires forall d :: d in ds ==> Alive(s, d) && At(s, d).kind == DPrefetch
    ensures forall x :: Alive(s, x) ==> (Alive(FlushEach(cfg, env, s, ds), x) <==> !(x in ds && At(s, x).queue.Some?))
  {
    hide Inv;
    hide FlushOne;
    hide Distinct;
    if ds != [] {
      var n := |ds| - 1;
      assert ds == ds[..n] + [ds[n]];
      InitDistinct(ds[..n], ds[n]);
      FlushEachFrees(cfg, env, s, ds[..n]);
      FlushEachKeeps(cfg, env, s, ds[..n]);
      var t := FlushEach(cfg, env, s, ds[..n]);
      assert Alive(t, ds[n]) && At(t, ds[n]) == At(s, ds[n]);
      FlushOneKeeps(cfg, env, t, ds[n]);
      FlushOneFrees(cfg, env, t, ds[n]);
    }
  }

  /** A flush frees exactly the core's prefetches that stand in a queue, and changes no other request. */
  lemma FlushExactly(cfg: Config, env: Env, s: Mem, c: nat)
    requires Inv(cfg, s, Noc, [], [])
    ensures var t := Flush(cfg, env, s, c);
            forall x :: Alive(s, x) ==>
              if Queued(s, c, x) then !Alive(t, x) else Alive(t, x) && At(t, x) == At(s, x)
  {
    assert CoreOk(cfg, s, c);
    IncreasingDistinct(s, Live(s, c));
    FlushListDistinct(s, Live(s, c));
    FlushEachFrees(cfg, env, s, FlushList(s, Live(s, c)));
    FlushKeeps(cfg, env, s, c);
    forall x | Alive(s, x)
      ensures Queued(s, c, x) <==> x in FlushList(s, Live(s, c)) && At(s, x).queue.Some?
    {
      assert EntryOk(cfg, s, x);
      if At(s, x).kind == DPrefetch { NoMerges(s, x); }
    }
    hide Inv;
    hide Flush;
  }

  // ---------- room in the miss buffers ----------

  /** No entry of core `c` is free. */
  predicate NoneFree(s: Mem, c: nat) { Free(s, c) == [] }

  lemma LiveMember(cfg: Config, s: Mem, c: nat, x: Id)
    requires Pools(cfg, s)
    ensures x in Live(s, c) <==> Alive(s, x) && At(s, x).core == c && At(s, x).kind != WriteBack
  {
    assert CoreOk(cfg, s, c);
    if Alive(s, x) { assert EntryOk(cfg, s, x); }
  }

  lemma QueuedLive(cfg: Config, s: Mem, c: nat, x: Id)
    requires Inv(cfg, s, Noc, [], []) && Queued(s, c, x)
    ensures x in Live(s, c)
  {
    LiveMember(cfg, s, c, x);
  }

  lemma Counted(cfg: Config, s: Mem, c: nat)
    requires Inv(cfg, s, Noc, [], []) && c < cfg.cores
    ensures Distinct(Live(s, c)) && |Live(s, c)| + |Free(s, c)| == cfg.mshr
  {
    assert CoreOk(cfg, s, c);
    IncreasingDistinct(s, Live(s, c));
  }

  lemma LiveAfterFlush(cfg: Config, env: Env, s: Mem, c: nat)
    requires Inv(cfg, s, Noc, [], [])
    ensures forall x :: x in Live(Flush(cfg, env, s, c), c) <==> x in Live(s, c) && !Queued(s, c, x)
  {
    hide Flush;
    var t := Flush(cfg, env, s, c);
    FlushKeeps(cfg, env, s, c);
    FlushExactly(cfg, env, s, c);
    hide Pools;
    hide Forest;
    hide Placed;
    hide Logged;
    forall x
      ensures x in Live(t, c) <==> x in Live(s, c) && !Queued(s, c, x)
    {
      LiveMember(cfg, s, c, x);
      LiveMember(cfg, t, c, x);
      FlushedAlive(s, t, x);
    }
  }

  /** A flush makes room exactly when it frees something or there was room. */
  lemma RoomAfterFlush(cfg: Config, env: Env, s: Mem, c: nat)
    requires Inv(cfg, s, Noc, [], []) && c < cfg.cores
    ensures NoneFree(Flush(cfg, env, s, c), c) <==> NoneFree(s, c) && forall x :: !Queued(s, c, x)
  {
    hide Inv;
    hide Pools;
    hide Flush;
    hide Queued;
    hide Distinct;
    hide Flushed;
    var t := Flush(cfg, env, s, c);
    FlushKeeps(cfg, env, s, c);
    Counted(cfg, s, c);
    Counted(cfg, t, c);
    var xs, ys := Live(s, c), Live(t, c);
    LiveAfterFlush(cfg, env, s, c);
    Pigeonhole(ys, xs);
    if exists x :: Queued(s, c, x) {
      var x :| Queued(s, c, x);
      QueuedLive(cfg, s, c, x);
      WithoutIn(xs, x);
      WithoutDistinct(xs, x);
      Pigeonhole(ys, Without(xs, x));
    } else {
      Pigeonhole(xs, ys);
    }
  }

  lemma FlushedAlive(s: Mem, t: Mem, x: Id)
    requires Flushed(s, t)
    ensures Alive(t, x) ==> At(t, x) == At(s, x) && Alive(s, x)
  {
  }

  lemma WithoutDistinct(xs: seq<Id>, v: Id)
    requires Distinct(xs) && v in xs
    ensures Distinct(Without(xs, v)) && |Without(xs, v)| < |xs|
  {
    forall w: Id
      ensures Count(Without(xs, v), w) <= 1
    {
      CountWithout(xs, v, w);
    }
    WithoutSize(xs, v);
    CountIn(xs, v);
  }

  // ---------- the answers ----------

  /** The first live request of the core that covers the range, if there is one. */
  function First(s: Mem, d: Demand): Option<Id> { Search(s, Live(s, d.core), d.addr, d.size) }

  /** A demand is refused exactly when the search finds no prefetch to promote, the core has no free entry and
      no prefetch of the core stands in a queue. */
  lemma RefusedIff(cfg: Config, env: Env, s: Mem, d: Demand, stopped: bool)
    requires Inv(cfg, s, Noc, [], []) && OpOk(cfg, s, Request(d, stopped)) && cfg.mshr <= 1024
    ensures !NewReq(cfg, env, s, d, stopped).1 <==>
              && d.kind != DPrefetch && !(First(s, d).Some? && At(s, First(s, d).value).kind == DPrefetch)
              && NoneFree(s, d.core) && forall x :: !Queued(s, d.core, x)
  {
    hide Inv;
    hide Flushed;
    hide Flush;
    hide Search;
    hide Queued;
    hide Enter;
    hide Adjust;
    var f := Flush(cfg, env, s, d.core);
    FlushKeeps(cfg, env, s, d.core);
    RoomAfterFlush(cfg, env, s, d.core);
    RoomAfterFlush(cfg, env, f, d.core);
    NoNewQueued(cfg, env, s, d.core);
    AnswerOfEnter(cfg, env, s, d, First(s, d));
    AnswerOfEnter(cfg, env, f, d, First(s, d));
  }

  lemma NoNewQueued(cfg: Config, env: Env, s: Mem, c: nat)
    requires Inv(cfg, s, Noc, [], [])
    ensures forall x :: Queued(Flush(cfg, env, s, c), c, x) ==> Queued(s, c, x)
  {
    hide Inv;
    hide Flush;
    FlushKeeps(cfg, env, s, c);
    forall x
      ensures Queued(Flush(cfg, env, s, c), c, x) ==> Queued(s, c, x)
    {
      FlushedAlive(s, Flush(cfg, env, s, c), x);
    }
  }

  lemma AnswerOfEnter(cfg: Config, env: Env, s: Mem, d: Demand, found: Option<Id>)
    ensures !Enter(cfg, env, s, d, found).1 <==>
              NoneFree(s, d.core) && d.kind != DPrefetch && NoneFree(Flush(cfg, env, s, d.core), d.core)
  {
  }

  /** A prefetch is never refused. It is issued exactly when prefetching is not suspended, no live request of the
      core covers its range, and the core has a free entry, or has none but its L2 input queue is full and some
      prefetch of the core stands in a queue and is flushed. */
  lemma PrefetchIssuedIff(cfg: Config, env: Env, s: Mem, d: Demand, stopped: bool)
    requires Inv(cfg, s, Noc, [], []) && OpOk(cfg, s, Request(d, stopped)) && cfg.mshr <= 1024 && d.kind == DPrefetch
    ensures var (t, ok) := NewReq(cfg, env, s, d, stopped);
            && ok && (t.next == s.next + 1 || t.next == s.next)
            && (t.next == s.next + 1 <==>
                  && !stopped && (forall x :: x in Live(s, d.core) ==> !Covers(At(s, x), d.addr, d.size))
                  && (!NoneFree(s, d.core) || (|Q(s, InQ(L2(d.core)))| == 1024 && exists x :: Queued(s, d.core, x))))
  {
    SearchFirst(s, Live(s, d.core), d.addr, d.size);
    hide Search;
    if !stopped && First(s, d).None? { PrefetchEnters(cfg, env, s, d); }
    hide Inv;
    hide Enter;
    hide Flush;
    hide Queued;
  }

  lemma PrefetchEnters(cfg: Config, env: Env, s: Mem, d: Demand)
    requires Inv(cfg, s, Noc, [], []) && OpOk(cfg, s, Request(d, false)) && cfg.mshr <= 1024 && d.kind == DPrefetch
    requires First(s, d).None?
    ensures var (t, ok) := NewReq(cfg, env, s, d, false);
            && ok
            && t.next == s.next + if !NoneFree(s, d.core) || (|Q(s, InQ(L2(d.core)))| == 1024 && exists x :: Queued(s, d.core, x))
                                  then 1 else 0
  {
    hide Inv;
    hide Flush;
    hide Search;
    hide Enter;
    hide Queued;
    var c := d.core;
    var f := Flush(cfg, env, s, c);
    FlushKeeps(cfg, env, s, c);
    FlushKeeps(cfg, env, f, c);
    RoomAfterFlush(cfg, env, s, c);
    if !NoneFree(s, c) { RoomInL2(cfg, s, c); }
    if !NoneFree(f, c) { RoomInL2(cfg, f, c); }
    EnterNext(cfg, env, s, d);
    EnterNext(cfg, env, f, d);
  }

  /** What entering the queue does to the counter of ids. */
  lemma EnterNext(cfg: Config, env: Env, s: Mem, d: Demand)
    requires d.kind == DPrefetch
    ensures Enter(cfg, env, s, d, None).1
    ensures Enter(cfg, env, s, d, None).0.next
            == if NoneFree(s, d.core) then Flush(cfg, env, s, d.core).next else s.next + 1
  {
    hide Sort;
  }

  // ---------- merging ----------

  /** A request that waits for `leader` is the last in its merge list; the leader's priority becomes the higher of
      both, and nobody else changes. */
  lemma MergeSaid(cfg: Config, s: Mem, leader: Id, id: Id)
    requires leader != id
    ensures var t := Merge(cfg, s, leader, id);
            && At(t, leader).merge == At(s, leader).merge + [id]
            && At(t, leader) == At(s, leader).(merge := At(t, leader).merge, priority := At(t, leader).priority)
            && At(t, leader).priority >= At(s, leader).priority && At(t, leader).priority >= At(s, id).priority
            && (At(t, leader).priority == At(s, leader).priority || At(t, leader).priority == At(s, id).priority)
            && At(t, id) == At(s, id).(leader := Some(leader), stage := Merged)
            && forall x :: x != leader && x != id ==> At(t, x) == At(s, x)
  {
  }
}
