/**
 The early-out of `uop_schedule` looks at the object of the producer a uop last waited for, whatever uop that
 object holds by then: when it holds back a uop whose sources are all finished, and a run in which it does.
 */
module CoreStale {
  import opened Options
  import opened PQueues
  import opened CoreModel
  import opened CoreInvariant
  import opened CoreDeps
  import opened CoreStrikes
  import opened CoreTimes
  import R = Robs

  /** No source is a uop in flight that is not done. */
  predicate AllFinished(c: Core, u: Uop) { forall k :: 0 <= k < |u.srcs| ==> !Unfinished(c, u, u.srcs[k]) }

  /** A uop with a free port and all sources finished is held back if and only if it is not marked ready and
      the producer it last waited for has an object with a done cycle still to come; no source is that
      object's uop then. */
  lemma HeldBackIff(c: Core, slot: nat, out: Outcome)
    requires LiveObj(c, Cell(c, slot)) && !c.objs[Cell(c, slot)].bogus && AllFinished(c, c.objs[Cell(c, slot)])
    ensures var u := c.objs[Cell(c, slot)];
            !Schedule(c, slot, true, out).1 <==>
              !u.srcsRdy && u.lastDep.Some? && At(c, u.lastDep.value).done > c.now
    ensures var u := c.objs[Cell(c, slot)];
            !Schedule(c, slot, true, out).1 ==> forall k :: 0 <= k < |u.srcs| && u.srcs[k].obj == u.lastDep ==> !Current(c, u.thread, u.srcs[k])
  {
    ReachesIff(c, slot, true, out);
    var u := c.objs[Cell(c, slot)];
    hide Schedule;
    forall k | 0 <= k < |u.srcs| && u.srcs[k].obj == u.lastDep && u.lastDep.Some? && At(c, u.lastDep.value).done > c.now
      ensures !Current(c, u.thread, u.srcs[k])
    {
      assert !Unfinished(c, u, u.srcs[k]);
    }
  }

  // ---------- a run ----------

  lemma BlockStep(hits: set<Hit>, v: View, slot: nat, o: Obj, p: Obj, n: nat)
    requires Reached(hits, v) && R.Valid(v.ring) && slot in v.sched && slot < |v.ring.cells| && v.ring.cells[slot] == o < 2
    requires var u := UopOf(v, o); !u.bogus && !u.srcsRdy && u.lastDep.None? && u.srcs == [Src(Some(p), n)]
    requires p < 2 && UopOf(v, p).valid && UopOf(v, p).num == n && UopOf(v, p).thread == UopOf(v, o).thread && UopOf(v, p).done == 0
    ensures Reached(hits, With(v, o, UopOf(v, o).(lastDep := Some(p))))
  {
    var c :| Reach(hits, c) && Looks(c, v);
    LooksShape(c, v);
    Goes(hits, c, DoSchedule(slot, false, Retry));
    BlockLooks(c, v, slot, o, p, n);
    hide Reached;
    hide Looks;
    hide Reach;
    hide Schedule;
    Arrives(hits, Schedule(c, slot, false, Retry).0, With(v, o, UopOf(v, o).(lastDep := Some(p))));
  }

  lemma BlockLooks(c: Core, v: View, slot: nat, o: Obj, p: Obj, n: nat)
    requires Looks(c, v) && slot < |v.ring.cells| && v.ring.cells[slot] == o < 2
    requires var u := UopOf(v, o); !u.bogus && !u.srcsRdy && u.lastDep.None? && u.srcs == [Src(Some(p), n)]
    requires p < 2 && UopOf(v, p).valid && UopOf(v, p).num == n && UopOf(v, p).thread == UopOf(v, o).thread && UopOf(v, p).done == 0
    ensures Looks(Schedule(c, slot, false, Retry).0, With(v, o, UopOf(v, o).(lastDep := Some(p))))
  {
    var u := UopOf(v, o);
    assert Cell(c, slot) == o && At(c, o) == u && At(c, p) == UopOf(v, p);
    assert Blocks(c, u.thread, u.srcs[0]);
    assert FirstBlocking(c, u, 0).None?;
    assert FirstBlocking(c, u, 1) == Some(0);
    assert CheckSrcs(c, o) == (Put(c, o, u.(lastDep := Some(p))), false);
    PutLooks(c, v, o, u.(lastDep := Some(p)));
    hide CheckSrcs;
    hide Put;
    hide Looks;
  }

  /** A writer and its reader are in the scheduler; the reader was tried and waits for the writer's object. */
  const WAITING := START.(a := Fresh(0, []).(stage := InSched),
                          b := Fresh(1, [Src(Some(0), 0)]).(stage := InSched, lastDep := Some(0)),
                          ring := R.Ring([0, 1, 0, 0], 0, 2, 0), sched := [0, 1], src := Src(Some(0), 0), prog := [WRITER, READER])

  lemma PairReached(hits: set<Hit>)
    ensures Reached(hits, WAITING)
  {
    hide Reached;
    StartReached(hits);
    FetchStep(hits, START, 0, WRITER);
    assert [] + [WRITER] == [WRITER];
    var v1 := START.(a := Fresh(0, []), front := [0], src := Src(Some(0), 0), prog := [WRITER]);
    AllocateStep(hits, v1, 0);
    assert R.Fresh(2).cells == [0, 0, 0, 0];
    var r := R.Ring([0, 0, 0, 0], 0, 1, 1);
    assert R.Push(v1.ring, 0) == r;
    assert [] + [0] == [0];
    var v2 := v1.(a := Fresh(0, []).(stage := Queued), front := [], ring := r, queue := [0]);
    FetchStep(hits, v2, 1, READER);
    assert [WRITER] + [READER] == [WRITER, READER];
    var v3 := v2.(b := Fresh(1, [Src(Some(0), 0)]), front := [1], prog := [WRITER, READER]);
    AllocateStep(hits, v3, 1);
    assert R.Push(r, 1) == WAITING.ring;
    assert [0] + [1] == [0, 1];
    var v4 := v3.(b := v3.b.(stage := Queued), front := [], ring := WAITING.ring, queue := [0, 1]);
    PairListed(hits, v4);
  }

  lemma PairListed(hits: set<Hit>, v: View)
    requires Reached(hits, v) && v == WAITING.(a := WAITING.a.(stage := Queued), b := WAITING.b.(stage := Queued, lastDep := None), queue := [0, 1], sched := [])
    ensures Reached(hits, WAITING)
  {
    hide Reached;
    MoveStep(hits, v, 0, [1], 0);
    assert [] + [0] == [0] && [0] + [1] == [0, 1];
    var w := v.(a := WAITING.a, queue := [1], sched := [0]);
    assert [1] + [] == [1];
    MoveStep(hits, w, 1, [], 1);
    BlockStep(hits, w.(b := w.b.(stage := InSched), queue := [], sched := [0, 1]), 1, 1, 0, 0);
  }

  /** The writer is done and retires, and its object is given to a third uop that executes for a hundred
      cycles. */
  const STALE := WAITING.(now := 2, a := Fresh(2, []).(srcsRdy := true, done := 102, stage := Executed),
                          ring := R.Ring([0, 1, 0, 0], 1, 3, 0), sched := [1], prog := [WRITER, READER, NOP], retired := [Name(0, 0)])

  lemma WriterLeaves(hits: set<Hit>)
    ensures Reached(hits, WAITING.(now := 2, a := WAITING.a.(srcsRdy := true, done := 2, valid := false, num := 0, thread := None, stage := Pooled),
                                   ring := R.Ring([0, 1, 0, 0], 1, 2, 1), sched := [1], retired := [Name(0, 0)]))
  {
    hide Reached;
    PairReached(hits);
    ExecStep(hits, WAITING, 0, 0, Latency(1));
    assert Drop([0, 1], 0) == [1] by { assert [0, 1][..1] == [0] && [0][..0] == []; }
    assert WAITING.fills + multiset{} == WAITING.fills;
    var v := WAITING.(a := WAITING.a.(srcsRdy := true, done := 2, stage := Executed), sched := [1]);
    TickStep(hits, v);
    RetireStep(hits, v.(now := 2), 0);
    assert [] + [Name(0, 0)] == [Name(0, 0)];
  }

  lemma StaleReached(hits: set<Hit>)
    ensures Reached(hits, STALE)
  {
    hide Reached;
    WriterLeaves(hits);
    var v := WAITING.(now := 2, a := WAITING.a.(srcsRdy := true, done := 2, valid := false, num := 0, thread := None, stage := Pooled),
                      ring := R.Ring([0, 1, 0, 0], 1, 2, 1), sched := [1], retired := [Name(0, 0)]);
    FetchStep(hits, v, 0, NOP);
    assert [WRITER, READER] + [NOP] == STALE.prog;
    var w := v.(a := Fresh(2, []), front := [0], prog := STALE.prog);
    AllocateStep(hits, w, 0);
    assert R.Push(w.ring, 0) == STALE.ring;
    assert [] + [2] == [2];
    var x := w.(a := w.a.(stage := Queued), front := [], ring := STALE.ring, queue := [2]);
    assert [2] + [] == [2] && [1] + [2] == [1, 2];
    MoveStep(hits, x, 2, [], 0);
    ExecStep(hits, x.(a := x.a.(stage := InSched), queue := [], sched := [1, 2]), 2, 0, Latency(100));
    assert Drop([1, 2], 2) == [1] by { assert [1, 2][..1] == [1] && [1][..0] == []; }
    assert WAITING.fills + multiset{} == WAITING.fills;
  }

  lemma StaleLooks(c: Core)
    requires Looks(c, STALE)
    ensures Cell(c, 1) == 1 && 1 in c.sched && LiveObj(c, 1) && c.now == 2
    ensures var u := c.objs[1];
            && !u.bogus && !u.srcsRdy && u.num == 1 && u.lastDep == Some(0) && AllFinished(c, u)
            && At(c, 0).num == 2 && At(c, 0).done == 102
  {
    assert At(c, 1) == STALE.b && At(c, 0) == STALE.a;
    assert !Unfinished(c, c.objs[1], c.objs[1].srcs[0]);
  }

  /** A run without any fill in which a uop whose one source has retired is held back, though a port is free,
      because a uop fetched after it is done only a hundred cycles later. */
  lemma HeldBackByYounger()
    ensures exists c, slot :: Reach({}, c) && slot in c.sched && LiveObj(c, Cell(c, slot))
              && var u := c.objs[Cell(c, slot)];
                 && !u.bogus && AllFinished(c, u) && (forall out :: !Schedule(c, slot, true, out).1)
                 && u.lastDep.Some? && At(c, u.lastDep.value).num > u.num && At(c, u.lastDep.value).done == c.now + 100
  {
    StaleReached({});
    hide Reach;
    hide Looks;
    var c :| Reach({}, c) && Looks(c, STALE);
    StaleLooks(c);
    hide AllFinished;
    hide Schedule;
    hide STALE;
    forall out
      ensures !Schedule(c, 1, true, out).1
    {
      HeldBackIff(c, 1, out);
    }
  }
}
