/**
 When uops retire and when they reach `exec`, said of done cycles and occupancy alone: only what is done
 retires, not before its latency has passed, and whatever may execute does.
 */
module CoreTimes {
  import opened Options
  import opened PQueues
  import opened CoreModel
  import opened CoreInvariant
  import opened CoreDeps
  import opened CorePlaces
  import opened CoreStages
  import opened CoreSteps
  import opened CoreRun
  import R = Robs

  // ---------- retirement ----------

  /** What retires in a run is done: its done cycle is set and no later than now. */
  lemma RetiresDone(cfg: Config, states: seq<Core>, ops: seq<Op>, i: nat)
    requires IsRun(cfg, states, ops) && i < |ops| && ops[i].DoRetire?
    ensures R.Valid(states[i].rob) && R.Items(states[i].rob) != []
    ensures var c := states[i]; 0 < At(c, R.Items(c.rob)[0]).done <= c.now
  {
  }

  /** At step `j` the oldest uop, named `n`, retires and is done. */
  ghost predicate RetiresAt(states: seq<Core>, ops: seq<Op>, j: nat, n: Name) {
    && j < |ops| && |ops| <= |states| && ops[j].DoRetire? && R.Valid(states[j].rob) && R.Items(states[j].rob) != []
    && var u := At(states[j], R.Items(states[j].rob)[0]);
       u.thread == Some(n.thread) && u.num == n.num && 0 < u.done <= states[j].now
  }

  lemma {:induction false} RetiredWereDone(cfg: Config, states: seq<Core>, ops: seq<Op>, i: nat, n: Name)
    requires IsRun(cfg, states, ops) && i < |states| && n in states[i].retired
    ensures exists j :: 0 <= j < i && RetiresAt(states, ops, j, n)
  {
    hide Exec;
    hide IsRun;
    hide RetiresAt;
    hide Shape;
    hide OpOk;
    RunSized(cfg, states, ops);
    if i == 0 {
      RunStart(cfg, states, ops);
    } else {
      RunStep(cfg, states, ops, i - 1);
      if n in states[i - 1].retired {
        RetiredWereDone(cfg, states, ops, i - 1, n);
      } else {
        RetiredNew(cfg, states[i - 1], ops[i - 1], n);
        RetiresHere(cfg, states, ops, i - 1, n);
      }
    }
  }

  lemma RunStart(cfg: Config, states: seq<Core>, ops: seq<Op>)
    requires IsRun(cfg, states, ops)
    ensures states[0].retired == []
  {
  }

  lemma RunStep(cfg: Config, states: seq<Core>, ops: seq<Op>, i: nat)
    requires IsRun(cfg, states, ops) && i < |ops|
    ensures |states| == |ops| + 1 && Shape(states[i]) && OpOk(cfg, states[i], ops[i])
    ensures states[i + 1] == Exec(cfg, states[i], ops[i])
  {
  }

  lemma RetiresHere(cfg: Config, states: seq<Core>, ops: seq<Op>, i: nat, n: Name)
    requires |states| == |ops| + 1 && i < |ops| && Shape(states[i]) && ops[i].DoRetire? && OpOk(cfg, states[i], ops[i])
    requires var u := At(states[i], R.Items(states[i].rob)[0]);
             u.thread == Some(n.thread) && u.num == n.num && 0 < u.done <= states[i].now
    ensures RetiresAt(states, ops, i, n)
  {
  }

  lemma RetiredNew(cfg: Config, c: Core, op: Op, n: Name)
    requires Shape(c) && OpOk(cfg, c, op) && n in Exec(cfg, c, op).retired && n !in c.retired
    ensures op.DoRetire? && R.Items(c.rob) != []
    ensures var u := At(c, R.Items(c.rob)[0]); u.thread == Some(n.thread) && u.num == n.num && 0 < u.done <= c.now
  {
    match op
    case DoSchedule(slot, port, out) => ScheduleUpdates(c, slot, port, out);
    case DoMove(q) => MoveUpdates(c, q);
    case _ =>
  }

  /** The writer was done, no later than the clock then, in some state up to `i`. */
  ghost predicate WasDone(states: seq<Core>, i: nat, t: nat, w: nat) {
    exists j, p :: 0 <= j <= i && j < |states| && Holds(states[j], p, t, w) && 0 < states[j].objs[p].done <= states[j].now
  }

  /** So dataflow order says of every source register that its last earlier writer was done by then, whether
      it is still in flight or has retired. */
  lemma DataflowDone(cfg: Config, states: seq<Core>, ops: seq<Op>, hits: set<Hit>, i: nat)
    requires IsRun(cfg, states, ops) && FillsHit(states, ops, hits) && Harmless(hits) && i < |ops| && ops[i].DoSchedule?
    requires Schedule(states[i], ops[i].slot, ops[i].port, ops[i].out).1 && !At(states[i], Cell(states[i], ops[i].slot)).bogus
    ensures var c := states[i]; var o := Cell(c, ops[i].slot);
            && LiveObj(c, o) && c.objs[o].num < |Program(c, c.objs[o].thread.value)|
            && var t, n := c.objs[o].thread.value, c.objs[o].num; var regs := Program(c, t)[n].srcs;
               forall k :: 0 <= k < |regs| && LastWriter(Program(c, t), n, regs[k]).Some? ==>
                 WasDone(states, i, t, LastWriter(Program(c, t), n, regs[k]).value)
  {
    DataflowOrder(cfg, states, ops, hits, i);
    var c := states[i];
    var o := Cell(c, ops[i].slot);
    var t, n := c.objs[o].thread.value, c.objs[o].num;
    var regs := Program(c, t)[n].srcs;
    forall k | 0 <= k < |regs| && LastWriter(Program(c, t), n, regs[k]).Some?
      ensures WasDone(states, i, t, LastWriter(Program(c, t), n, regs[k]).value)
    {
      FinishedWasDone(cfg, states, ops, i, t, LastWriter(Program(c, t), n, regs[k]));
    }
  }

  lemma FinishedWasDone(cfg: Config, states: seq<Core>, ops: seq<Op>, i: nat, t: nat, w: Option<nat>)
    requires IsRun(cfg, states, ops) && i < |states| && w.Some? && WriterFinished(states[i], t, w)
    ensures WasDone(states, i, t, w.value)
  {
    if Retired(states[i], t, w.value) {
      RetiredWereDone(cfg, states, ops, i, Name(t, w.value));
      var j :| 0 <= j < i && RetiresAt(states, ops, j, Name(t, w.value));
      RunPlaces(cfg, states, ops, j);
      RobLive(states[j], 0);
      assert Holds(states[j], R.Items(states[j].rob)[0], t, w.value);
    } else {
      var p :| Holds(states[i], p, t, w.value) && 0 < states[i].objs[p].done <= states[i].now;
    }
  }

  // ---------- latency ----------

  /** What `exec` writes, by its answer. */
  lemma ReachedDone(c: Core, slot: nat, port: bool, out: Outcome)
    requires Schedule(c, slot, port, out).1 && LiveObj(c, Cell(c, slot))
    ensures var o := Cell(c, slot); var u, v := At(c, o), At(Schedule(c, slot, port, out).0, o);
            && v.thread == u.thread && v.num == u.num && v.valid
            && match out
               case Retry => v.done == u.done && v.stage == u.stage
               case Latency(n) => v.done == c.now + n && v.stage == Executed
               case Miss => v.done == u.done && v.stage == Executed
               case Prefetch(n) => v.done == c.now + n && v.stage == Executed
  {
    var o := Cell(c, slot);
    var b := CheckSrcs(c, o).0;
    CheckUpdates(c, o);
    hide CheckSrcs;
    hide Drop;
    assert Cell(b, slot) == o && b.now == c.now;
  }

  /** Object `p` holds uop `m` of thread `t`, executed with done cycle `d`. */
  predicate Ran(c: Core, p: Obj, t: nat, m: nat, d: nat) {
    Holds(c, p, t, m) && c.objs[p].stage == Executed && c.objs[p].done == d
  }

  lemma RanStays(cfg: Config, c: Core, op: Op, p: Obj, t: nat, m: nat, d: nat)
    requires Staged(c) && FillsOwn(c) && OpOk(cfg, c, op) && Ran(c, p, t, m, d)
    ensures var e := Exec(cfg, c, op);
            || Ran(e, p, t, m, d)
            || (d == 0 && op == DoFill(p))
            || (d != 0 && op.DoRetire? && R.Items(c.rob) != [] && R.Items(c.rob)[0] == p)
  {
    match op
    case DoFetch(o, _, _, _, _, _) =>
      hide Enqueue;
      hide UpdateMap;
      hide Staged;
      hide FillsOwn;
    case DoAllocate => RanAllocates(cfg, c, p, t, m, d);
    case DoMove(q) => RanMoves(c, q, p, t, m, d);
    case DoSchedule(slot, port, out) => RanSchedules(c, slot, port, out, p, t, m, d);
    case DoRetire => RanRetires(c, p, t, m, d);
    case DoFill(o) => RanFills(c, o, p, t, m, d);
    case AgeFront => hide Staged;
    case AgeQueue(_) => hide Staged;
    case Tick => hide Staged;
  }

  lemma RanMoves(c: Core, q: nat, p: Obj, t: nat, m: nat, d: nat)
    requires Staged(c) && q < 3 && Ready(c.queues[q]) && Ran(c, p, t, m, d)
    ensures Ran(Move(c, q), p, t, m, d)
  {
    var k := HeadEntry(c, q);
    assert At(c, R.At(c.rob, k)).stage == Queued;
    MoveUpdates(c, q);
    hide Move;
    hide Staged;
    hide QueueOk;
  }

  lemma RanSchedules(c: Core, slot: nat, port: bool, out: Outcome, p: Obj, t: nat, m: nat, d: nat)
    requires Staged(c) && slot in c.sched && Ran(c, p, t, m, d)
    ensures Ran(Schedule(c, slot, port, out).0, p, t, m, d)
  {
    var k := ListedEntry(c, slot);
    assert At(c, Cell(c, slot)).stage == InSched;
    ScheduleUpdates(c, slot, port, out);
    hide Schedule;
    hide Staged;
  }

  lemma RanFills(c: Core, o: Obj, p: Obj, t: nat, m: nat, d: nat)
    requires FillsOwn(c) && o in c.fills && Ran(c, p, t, m, d)
    ensures Ran(Fill(c, o), p, t, m, d) || (d == 0 && o == p)
  {
    assert At(c, o).done == 0;
    hide FillsOwn;
  }

  lemma RanAllocates(cfg: Config, c: Core, p: Obj, t: nat, m: nat, d: nat)
    requires Staged(c) && CanAllocate(cfg, c) && Ran(c, p, t, m, d)
    ensures Ran(Allocate(cfg, c), p, t, m, d)
  {
    HeadLive(c);
    assert c.front[0][0].data != p;
    hide Staged;
    hide Enqueue;
    hide Dequeue;
    hide R.Push;
  }

  lemma RanRetires(c: Core, p: Obj, t: nat, m: nat, d: nat)
    requires R.Valid(c.rob) && CanRetire(c) && Ran(c, p, t, m, d)
    ensures Ran(Retire(c), p, t, m, d) || (d != 0 && R.Items(c.rob)[0] == p)
  {
    hide R.Pop;
  }

  lemma OwnRun(cfg: Config, states: seq<Core>, ops: seq<Op>, k: nat)
    requires IsRun(cfg, states, ops) && NoPrefetch(ops) && k < |states|
    ensures Staged(states[k]) && FillsOwn(states[k])
  {
    NoPrefetchHits(cfg, states, ops);
    RunStages(cfg, states, ops, {Running}, k);
    OwnFills(cfg, states, ops, k);
  }

  /** Between its execution at `i` and step `k` the uop ran with done cycle `d`, unless in between a fill came
      for it, if `d` is 0, or it retired, otherwise. */
  lemma {:induction false} RanUntil(cfg: Config, states: seq<Core>, ops: seq<Op>, i: nat, k: nat, p: Obj, t: nat, m: nat, d: nat)
    requires |states| == |ops| + 1 && IsRun(cfg, states, ops) && NoPrefetch(ops) && i <= k < |states| && Ran(states[i], p, t, m, d)
    ensures || Ran(states[k], p, t, m, d)
            || (d == 0 && exists j :: i <= j < k && ops[j] == DoFill(p) && Ran(states[j], p, t, m, 0))
            || (d != 0 && Name(t, m) in states[k].retired)
  {
    hide Exec;
    hide Ran;
    hide Staged;
    hide FillsOwn;
    hide IsRun;
    hide Shape;
    hide OpOk;
    hide NoPrefetch;
    if i < k {
      RunSized(cfg, states, ops);
      RunStep(cfg, states, ops, k - 1);
      RanUntil(cfg, states, ops, i, k - 1, p, t, m, d);
      OwnRun(cfg, states, ops, k - 1);
      RanNext(cfg, states[k - 1], ops[k - 1], p, t, m, d);
      if d == 0 && ops[k - 1] == DoFill(p) && Ran(states[k - 1], p, t, m, 0) { assert i <= k - 1 < k && ops[k - 1] == DoFill(p); }
    }
  }

  lemma RunSized(cfg: Config, states: seq<Core>, ops: seq<Op>)
    requires IsRun(cfg, states, ops)
    ensures |states| == |ops| + 1
  {
  }

  lemma RanNext(cfg: Config, c: Core, op: Op, p: Obj, t: nat, m: nat, d: nat)
    requires Staged(c) && FillsOwn(c) && OpOk(cfg, c, op)
    ensures var e := Exec(cfg, c, op);
            && (Ran(c, p, t, m, d) ==> Ran(e, p, t, m, d) || (d == 0 && op == DoFill(p)) || (d != 0 && Name(t, m) in e.retired))
            && (Name(t, m) in c.retired ==> Name(t, m) in e.retired)
  {
    RetiredGrows(cfg, c, op);
    if Ran(c, p, t, m, d) {
      RanStays(cfg, c, op, p, t, m, d);
      if op.DoRetire? && R.Items(c.rob) != [] && R.Items(c.rob)[0] == p { RetiresName(c, p, t, m); }
    }
    hide Exec;
    hide Ran;
    hide Staged;
  }

  lemma RetiresName(c: Core, p: Obj, t: nat, m: nat)
    requires R.Valid(c.rob) && R.Items(c.rob) != [] && R.Items(c.rob)[0] == p && Holds(c, p, t, m)
    ensures Name(t, m) in Retire(c).retired
  {
    hide R.Pop;
    assert Retire(c).retired == c.retired + [Name(t, m)];
  }

  lemma RetiredGrows(cfg: Config, c: Core, op: Op)
    requires Shape(c) && OpOk(cfg, c, op)
    ensures c.retired <= Exec(cfg, c, op).retired
  {
    match op
    case DoSchedule(slot, port, out) => ScheduleUpdates(c, slot, port, out);
    case DoMove(q) => MoveUpdates(c, q);
    case _ =>
  }

  /** The oldest uop has not retired before. */
  lemma HeadIsNew(cfg: Config, states: seq<Core>, ops: seq<Op>, j: nat, t: nat, m: nat)
    requires IsRun(cfg, states, ops) && j < |states| && R.Valid(states[j].rob) && R.Items(states[j].rob) != []
    requires Holds(states[j], R.Items(states[j].rob)[0], t, m)
    ensures Name(t, m) !in states[j].retired
  {
    RunPlaces(cfg, states, ops, j);
    var c := states[j];
    var n := |c.retired|;
    assert Window(c)[0] == R.Items(c.rob)[0];
    assert Names(c, Window(c))[0] == Name(t, m);
    assert c.fetched[n] == Name(t, m);
    forall x | 0 <= x < n
      ensures c.retired[x] != Name(t, m)
    {
      assert c.fetched[x] == c.retired[x];
    }
  }

  /** Without tracked software prefetches: a uop that `exec` answers with a latency of `n` cycles retires no
      earlier than `n` cycles later. */
  lemma LatencyKept(cfg: Config, states: seq<Core>, ops: seq<Op>, i: nat, j: nat)
    requires IsRun(cfg, states, ops) && NoPrefetch(ops) && i < j < |ops|
    requires ops[i].DoSchedule? && ops[i].out.Latency? && Schedule(states[i], ops[i].slot, ops[i].port, ops[i].out).1
    requires ops[j].DoRetire? && R.Valid(states[j].rob) && R.Items(states[j].rob) != []
    requires var o, h := Cell(states[i], ops[i].slot), R.Items(states[j].rob)[0];
             At(states[j], h).thread == At(states[i], o).thread && At(states[j], h).num == At(states[i], o).num
    ensures states[j].now >= states[i].now + ops[i].out.n
  {
    var n := ops[i].out.n;
    var o, t, m := Begins(cfg, states, ops, i);
    RanUntil(cfg, states, ops, i + 1, j, o, t, m, states[i].now + n);
    hide Schedule;
    hide IsRun;
    Retiring(cfg, states, ops, j, o, t, m, states[i].now + n);
  }

  /** The uop that `exec` answered, as it stands after the step. */
  lemma Begins(cfg: Config, states: seq<Core>, ops: seq<Op>, i: nat) returns (o: Obj, t: nat, m: nat)
    requires IsRun(cfg, states, ops) && NoPrefetch(ops) && i < |ops| && ops[i].DoSchedule? && (ops[i].out.Latency? || ops[i].out.Miss?)
    requires Schedule(states[i], ops[i].slot, ops[i].port, ops[i].out).1
    ensures o == Cell(states[i], ops[i].slot) && At(states[i], o).thread == Some(t) && At(states[i], o).num == m
    ensures Ran(states[i + 1], o, t, m, if ops[i].out.Latency? then states[i].now + ops[i].out.n else 0)
  {
    var c, slot := states[i], ops[i].slot;
    RunSized(cfg, states, ops);
    RunStep(cfg, states, ops, i);
    OwnRun(cfg, states, ops, i);
    hide IsRun;
    hide NoPrefetch;
    hide FillsOwn;
    hide Schedule;
    hide QueueOk;
    o, t, m := Listed(c, slot);
    hide Staged;
    ReachedDone(c, slot, ops[i].port, ops[i].out);
  }

  lemma Listed(c: Core, slot: nat) returns (o: Obj, t: nat, m: nat)
    requires Staged(c) && slot in c.sched
    ensures o == Cell(c, slot) && LiveObj(c, o) && c.objs[o].thread == Some(t) && c.objs[o].num == m
  {
    var k := ListedEntry(c, slot);
    o := Cell(c, slot);
    t, m := c.objs[o].thread.value, c.objs[o].num;
  }

  /** A uop that ran with a done cycle and retires now is done. */
  lemma Retiring(cfg: Config, states: seq<Core>, ops: seq<Op>, j: nat, o: Obj, t: nat, m: nat, d: nat)
    requires IsRun(cfg, states, ops) && NoPrefetch(ops) && j < |ops| && ops[j].DoRetire?
    requires R.Valid(states[j].rob) && R.Items(states[j].rob) != []
    requires var h := R.Items(states[j].rob)[0]; At(states[j], h).thread == Some(t) && At(states[j], h).num == m
    ensures Name(t, m) !in states[j].retired && (Ran(states[j], o, t, m, d) ==> 0 < d <= states[j].now)
  {
    var h := R.Items(states[j].rob)[0];
    RunPlaces(cfg, states, ops, j);
    RobLive(states[j], 0);
    assert Holds(states[j], h, t, m);
    HeadIsNew(cfg, states, ops, j, t, m);
    SameHolds(cfg, states, ops, j, o, h, t, m);
    RetiresDone(cfg, states, ops, j);
    hide IsRun;
    hide Places;
  }

  /** And a uop that misses retires only after a fill for it, in a later cycle. */
  lemma MissWaits(cfg: Config, states: seq<Core>, ops: seq<Op>, i: nat, j: nat)
    requires IsRun(cfg, states, ops) && NoPrefetch(ops) && i < j < |ops|
    requires ops[i].DoSchedule? && ops[i].out.Miss? && Schedule(states[i], ops[i].slot, ops[i].port, ops[i].out).1
    requires ops[j].DoRetire? && R.Valid(states[j].rob) && R.Items(states[j].rob) != []
    requires var o, h := Cell(states[i], ops[i].slot), R.Items(states[j].rob)[0];
             At(states[j], h).thread == At(states[i], o).thread && At(states[j], h).num == At(states[i], o).num
    ensures exists k :: i < k < j && ops[k] == DoFill(Cell(states[i], ops[i].slot)) && states[j].now > states[k].now
  {
    var o, t, m := Begins(cfg, states, ops, i);
    RanUntil(cfg, states, ops, i + 1, j, o, t, m, 0);
    hide Schedule;
    hide IsRun;
    Retiring(cfg, states, ops, j, o, t, m, 0);
    var k :| i + 1 <= k < j && ops[k] == DoFill(o) && Ran(states[k], o, t, m, 0);
    var d := states[k].now + 1;
    FilledRan(cfg, states, ops, k, o, t, m);
    RanUntil(cfg, states, ops, k + 1, j, o, t, m, d);
    Retiring(cfg, states, ops, j, o, t, m, d);
  }

  lemma FilledRan(cfg: Config, states: seq<Core>, ops: seq<Op>, k: nat, o: Obj, t: nat, m: nat)
    requires IsRun(cfg, states, ops) && k < |ops| && ops[k] == DoFill(o) && Ran(states[k], o, t, m, 0)
    ensures Ran(states[k + 1], o, t, m, states[k].now + 1)
  {
  }

  /** A uop is in one object. */
  lemma SameHolds(cfg: Config, states: seq<Core>, ops: seq<Op>, j: nat, p: Obj, q: Obj, t: nat, m: nat)
    requires IsRun(cfg, states, ops) && j < |states| && Holds(states[j], q, t, m)
    ensures Holds(states[j], p, t, m) ==> p == q
  {
    RunPlaces(cfg, states, ops, j);
    if Holds(states[j], p, t, m) { OneHolder(states[j], p, q, t, m); }
  }

  lemma OneHolder(c: Core, p: Obj, q: Obj, t: nat, m: nat)
    requires R.Valid(c.rob) && WindowOk(c) && OrderOk(c) && Holds(c, p, t, m) && Holds(c, q, t, m)
    ensures p == q
  {
    var i := Position(c, p, t, m);
    var j := Position(c, q, t, m);
    FetchedOnce(c, |c.retired| + i, |c.retired| + j);
  }

  lemma Position(c: Core, p: Obj, t: nat, m: nat) returns (i: nat)
    requires R.Valid(c.rob) && WindowOk(c) && OrderOk(c) && Holds(c, p, t, m)
    ensures i < |Window(c)| && Window(c)[i] == p
    ensures |c.retired| + i < |c.fetched| && c.fetched[|c.retired| + i] == Name(t, m)
  {
    var w := Window(c);
    assert At(c, p).valid;
    assert p in w;
    assert c.fetched == c.retired + Names(c, w);
    hide Window;
    i :| 0 <= i < |w| && w[i] == p;
    assert Names(c, w)[i] == Name(t, m);
  }

  lemma FetchedOnce(c: Core, x: nat, y: nat)
    requires R.Valid(c.rob) && OrderOk(c) && x < |c.fetched| && y < |c.fetched| && c.fetched[x] == c.fetched[y]
    ensures x == y
  {
  }

  // ---------- reaching exec ----------

  /** A source whose uop is in flight and not done. */
  predicate Unfinished(c: Core, u: Uop, s: Src) {
    s.obj.Some? && s.obj.value in c.objs &&
    var v := c.objs[s.obj.value];
    v.valid && v.thread == u.thread && v.num == s.num && !(0 < v.done <= c.now)
  }

  /** A bogus uop always reaches `exec`. Another does exactly when a port is free and it was marked ready, or
      the producer it last waited for, if any, has a done cycle no later than now and no source is a uop in
      flight that is not done. */
  lemma ReachesIff(c: Core, slot: nat, port: bool, out: Outcome)
    requires LiveObj(c, Cell(c, slot))
    ensures var u := c.objs[Cell(c, slot)];
            Schedule(c, slot, port, out).1 <==>
              u.bogus
              || (port && (u.srcsRdy
                           || ((u.lastDep.Some? ==> At(c, u.lastDep.value).done <= c.now)
                               && forall k :: 0 <= k < |u.srcs| ==> !Unfinished(c, u, u.srcs[k]))))
  {
    var u := c.objs[Cell(c, slot)];
    forall k | 0 <= k < |u.srcs|
      ensures Unfinished(c, u, u.srcs[k]) <==> Blocks(c, u.thread, u.srcs[k])
    {
    }
  }

  /** A check that finds a source unfinished records the first such source, unless the producer recorded before
      has a done cycle no earlier; nothing else changes. */
  lemma CheckRecords(c: Core, o: Obj)
    requires LiveObj(c, o) && !CheckSrcs(c, o).1
    ensures var u := c.objs[o]; var d := CheckSrcs(c, o).0; var v := At(d, o);
            exists k :: 0 <= k < |u.srcs| && Unfinished(c, u, u.srcs[k]) && (forall j :: 0 <= j < k ==> !Unfinished(c, u, u.srcs[j]))
                        && v == u.(lastDep := if u.lastDep.Some? && At(c, u.lastDep.value).done >= At(c, u.srcs[k].obj.value).done
                                              then u.lastDep else u.srcs[k].obj)
  {
    var u := c.objs[o];
    forall k | 0 <= k < |u.srcs|
      ensures Unfinished(c, u, u.srcs[k]) <==> Blocks(c, u.thread, u.srcs[k])
    {
    }
    var k := FirstBlocks(c, u, |u.srcs|);
    assert Unfinished(c, u, u.srcs[k]);
  }

  lemma {:induction false} FirstBlocks(c: Core, u: Uop, n: nat) returns (k: nat)
    requires n <= |u.srcs| && FirstBlocking(c, u, n).Some?
    ensures k < n && FirstBlocking(c, u, n) == Some(k) && Blocks(c, u.thread, u.srcs[k])
    ensures forall j :: 0 <= j < k ==> !Blocks(c, u.thread, u.srcs[j])
  {
    if FirstBlocking(c, u, n - 1).Some? { k := FirstBlocks(c, u, n - 1); } else { k := n - 1; }
  }
}
