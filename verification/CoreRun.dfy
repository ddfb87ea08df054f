/** The core's guarantees over whole runs. `CoreStrikes` says which fills they survive. */
module CoreRun {
  import opened Options
  import opened PQueues
  import opened CoreModel
  import opened CoreInvariant
  import opened CoreDeps
  import opened CorePlaces
  import opened CoreStages
  import opened CoreSteps
  import R = Robs

  /** Fills of these kinds leave alone what others rely on. */
  predicate Harmless(hits: set<Hit>) { Waiting !in hits && Finished(true) !in hits }

  lemma {:induction false} RunInv(cfg: Config, states: seq<Core>, ops: seq<Op>, hits: set<Hit>, i: nat)
    requires IsRun(cfg, states, ops) && FillsHit(states, ops, hits) && Harmless(hits) && i < |states|
    ensures Inv(cfg, states[i])
  {
    hide Inv;
    if i == 0 {
      StartKeeps(cfg, states[0]);
    } else {
      RunInv(cfg, states, ops, hits, i - 1);
      ExecKeeps(cfg, states[i - 1], ops[i - 1]);
    }
  }

  // ---------- dataflow ----------

  /** The writer has retired, or is in flight, executed, and done no later than now. */
  ghost predicate WriterFinished(c: Core, t: nat, w: Option<nat>) {
    w.Some? ==> Retired(c, t, w.value)
                || exists p :: Holds(c, p, t, w.value) && c.objs[p].stage == Executed && 0 < c.objs[p].done <= c.now
  }

  /** In every run whose fills find neither a uop that has not executed nor a writer that was done: a
      non-bogus uop reaches `exec` only if, for every source register of its instruction, the last earlier
      writer in its thread's program has retired, or has executed with a done cycle no later than now.
      Objects are recycled freely. */
  lemma DataflowOrder(cfg: Config, states: seq<Core>, ops: seq<Op>, hits: set<Hit>, i: nat)
    requires IsRun(cfg, states, ops) && FillsHit(states, ops, hits) && Harmless(hits) && i < |ops| && ops[i].DoSchedule?
    requires Schedule(states[i], ops[i].slot, ops[i].port, ops[i].out).1 && !At(states[i], Cell(states[i], ops[i].slot)).bogus
    ensures var c := states[i]; var o := Cell(c, ops[i].slot);
            && LiveObj(c, o) && SrcsOk(c, o)
            && var t, n := c.objs[o].thread.value, c.objs[o].num; var regs := Program(c, t)[n].srcs;
               forall k :: 0 <= k < |regs| ==> WriterFinished(c, t, LastWriter(Program(c, t), n, regs[k]))
  {
    RunInv(cfg, states, ops, hits, i);
    var c, slot := states[i], ops[i].slot;
    var o := Cell(c, slot);
    var k0 := ListedEntry(c, slot);
    assert LiveObj(c, o) && SrcsOk(c, o);
    ExecOnlyWhenReady(c, slot, ops[i].port, ops[i].out);
    var t, n := c.objs[o].thread.value, c.objs[o].num;
    var prog := Program(c, t);
    forall k | 0 <= k < |prog[n].srcs|
      ensures WriterFinished(c, t, LastWriter(prog, n, prog[n].srcs[k]))
    {
      DoneIsExecuted(cfg, c, t, LastWriter(prog, n, prog[n].srcs[k]));
    }
  }

  lemma DoneIsExecuted(cfg: Config, c: Core, t: nat, w: Option<nat>)
    requires Inv(cfg, c) && WriterDone(c, t, w)
    ensures WriterFinished(c, t, w)
  {
    if w.Some? && !Retired(c, t, w.value) {
      var p :| Holds(c, p, t, w.value) && 0 < c.objs[p].done <= c.now;
      assert LiveObj(c, p) && StageOk(c.objs[p]);
    }
  }

  // ---------- queues ----------

  /** Every index in an alloc queue names a live reorder-buffer entry whose uop waits in that queue,
      and every waiting uop's index is in its queue, once. */
  lemma IndicesNameUops(cfg: Config, states: seq<Core>, ops: seq<Op>, hits: set<Hit>, i: nat, q: nat)
    requires IsRun(cfg, states, ops) && FillsHit(states, ops, hits) && Waiting !in hits && i < |states| && q < 3
    ensures Shape(states[i])
    ensures var c := states[i]; var xs := Datas(Flat(c.queues[q]));
            && Distinct(xs)
            && (forall x :: x in xs <==> exists k: nat :: k < R.Entries(c.rob) && x == R.Slot(c.rob, k) && InQueue(c, q, k))
            && (forall x :: x in xs ==> LiveObj(c, Cell(c, x)) && At(c, Cell(c, x)).done == 0)
  {
    RunStages(cfg, states, ops, hits, i);
    var c := states[i];
    var xs := Datas(Flat(c.queues[q]));
    assert QueueOk(c, q);
    forall x | x in xs
      ensures exists k: nat :: k < R.Entries(c.rob) && x == R.Slot(c.rob, k) && InQueue(c, q, k)
      ensures LiveObj(c, Cell(c, x)) && At(c, Cell(c, x)).done == 0
    {
      var k: nat :| Names1(c, x, Queued, k) && InQueue(c, q, k);
      assert k < R.Entries(c.rob) && x == R.Slot(c.rob, k) && InQueue(c, q, k);
      CellAt(c, k);
      QueuedNotDone(c, q, k);
    }
  }

  /** The uop a reorder-buffer index stands for. */
  function UopAt(c: Core, slot: nat): (Obj, Option<nat>, nat) {
    (Cell(c, slot), At(c, Cell(c, slot)).thread, At(c, Cell(c, slot)).num)
  }

  /** No step changes what an index in an alloc queue stands for: up to and including the step that
      takes it out, it stands for the uop it was enqueued for. */
  lemma IndexKeepsUop(cfg: Config, states: seq<Core>, ops: seq<Op>, hits: set<Hit>, i: nat, q: nat, x: nat)
    requires IsRun(cfg, states, ops) && FillsHit(states, ops, hits) && Waiting !in hits && i < |ops| && q < 3
    requires x in Datas(Flat(states[i].queues[q]))
    ensures UopAt(states[i + 1], x) == UopAt(states[i], x)
  {
    RunStages(cfg, states, ops, hits, i);
    var c, op := states[i], ops[i];
    assert QueueOk(c, q);
    var k: nat :| Names1(c, x, Queued, k) && InQueue(c, q, k);
    CellAt(c, k);
    QueuedNotDone(c, q, k);
    RobLive(c, k);
    WaitingKeepsUop(cfg, c, op, k);
  }

  lemma WaitingKeepsUop(cfg: Config, c: Core, op: Op, k: nat)
    requires Shape(c) && WindowOk(c) && StagesOk(c) && OpOk(cfg, c, op) && k < R.Entries(c.rob)
    requires LiveObj(c, R.At(c.rob, k)) && At(c, R.At(c.rob, k)).stage == Queued && At(c, R.At(c.rob, k)).done == 0
    ensures UopAt(Exec(cfg, c, op), R.Slot(c.rob, k)) == UopAt(c, R.Slot(c.rob, k))
  {
    var x := R.Slot(c.rob, k);
    CellAt(c, k);
    match op
    case DoAllocate =>
      HeadLive(c);
      R.SlotsDiffer(c.rob, k, R.Entries(c.rob));
    case DoMove(p) => MoveKeepsNames(c, p, Cell(c, x), x);
    case DoSchedule(slot, port, out) => ScheduleKeepsNames(c, slot, port, out, x);
    case DoRetire =>
      if k > 0 { RobDistinct(c, 0, k); }
    case _ =>
  }

  lemma MoveKeepsNames(c: Core, p: nat, o: Obj, x: nat)
    requires p < |c.queues| && Ready(c.queues[p]) && o == Cell(c, x)
    ensures UopAt(Move(c, p), x) == UopAt(c, x)
  {
  }

  lemma ScheduleKeepsNames(c: Core, slot: nat, port: bool, out: Outcome, x: nat)
    ensures UopAt(Schedule(c, slot, port, out).0, x) == UopAt(c, x)
  {
    CheckKeepsNames(c, Cell(c, slot), x);
    ExecuteKeepsNames(c, slot, out, x);
    ExecuteKeepsNames(CheckSrcs(c, Cell(c, slot)).0, slot, out, x);
    hide CheckSrcs;
    hide Execute;
    hide UopAt;
  }

  lemma CheckKeepsNames(c: Core, o: Obj, x: nat)
    ensures UopAt(CheckSrcs(c, o).0, x) == UopAt(c, x)
  {
    hide UopAt;
    hide FirstBlocking;
    hide Put;
    var u := At(c, o);
    if !u.srcsRdy {
      var f := FirstBlocking(c, u, |u.srcs|);
      if f.None? { PutKeepsNames(c, o, u.(srcsRdy := true), x); }
      else { PutKeepsNames(c, o, u.(lastDep := Some(u.srcs[f.value].obj.value)), x); }
    }
  }

  lemma PutKeepsNames(c: Core, o: Obj, v: Uop, x: nat)
    requires v.thread == At(c, o).thread && v.num == At(c, o).num
    ensures UopAt(Put(c, o, v), x) == UopAt(c, x)
  {
  }

  lemma ExecuteKeepsNames(c: Core, slot: nat, out: Outcome, x: nat)
    ensures UopAt(Execute(c, slot, out), x) == UopAt(c, x)
  {
    var o, d := Cell(c, slot), Execute(c, slot, out);
    PutKeepsNames(c, o, At(d, o), x);
    assert d.rob == c.rob && (d.objs == c.objs || d.objs == Put(c, o, At(d, o)).objs);
  }

  // ---------- order and conservation ----------

  /** In every run, whatever fills find: retirement follows fetch order, nothing is lost, and each thread retires in program order. */
  lemma RetiresInOrder(cfg: Config, states: seq<Core>, ops: seq<Op>, i: nat)
    requires IsRun(cfg, states, ops) && i < |states|
    ensures R.Valid(states[i].rob)
    ensures var c := states[i];
            && c.fetched == c.retired + Names(c, Window(c))
            && forall j, k :: 0 <= j < k < |c.retired| && c.retired[j].thread == c.retired[k].thread
                              ==> c.retired[j].num < c.retired[k].num
  {
    RunPlaces(cfg, states, ops, i);
    var c := states[i];
    forall j, k | 0 <= j < k < |c.retired| && c.retired[j].thread == c.retired[k].thread
      ensures c.retired[j].num < c.retired[k].num
    {
      assert c.fetched[j] == c.retired[j] && c.fetched[k] == c.retired[k];
    }
  }

  /** In every run, too, free load and store buffers and registers, and the entries that hold them, add up to the
      configured totals, and none is ever below zero. */
  lemma ResourcesConserved(cfg: Config, states: seq<Core>, ops: seq<Op>, i: nat, x: Resource)
    requires IsRun(cfg, states, ops) && i < |states|
    ensures R.Valid(states[i].rob)
    ensures Available(states[i], x) + Users(states[i], R.Items(states[i].rob), x) == Total(cfg, x)
    ensures 0 <= Available(states[i], x) <= Total(cfg, x)
  {
    RunPlaces(cfg, states, ops, i);
  }

  // ---------- runs without tracked prefetches ----------

  /** What requests point to: one each of the uops that have executed and are not done. */
  ghost predicate FillsOwn(c: Core) {
    forall o :: o in c.fills ==> c.fills[o] == 1 && At(c, o).valid && At(c, o).stage == Executed && At(c, o).done == 0
  }

  lemma ScheduleOwn(c: Core, slot: nat, port: bool, out: Outcome)
    requires FillsOwn(c) && At(c, Cell(c, slot)).stage == InSched && At(c, Cell(c, slot)).valid && At(c, Cell(c, slot)).done == 0
    requires !out.Prefetch?
    ensures FillsOwn(Schedule(c, slot, port, out).0)
  {
    var o := Cell(c, slot);
    var b := CheckSrcs(c, o).0;
    CheckUpdates(c, o);
    hide CheckSrcs;
    ExecuteOwn(c, slot, out);
    ExecuteOwn(b, slot, out);
    hide Execute;
  }

  lemma ExecuteOwn(c: Core, slot: nat, out: Outcome)
    requires FillsOwn(c) && At(c, Cell(c, slot)).stage == InSched && At(c, Cell(c, slot)).valid && At(c, Cell(c, slot)).done == 0
    requires !out.Prefetch?
    ensures FillsOwn(Execute(c, slot, out))
  {
    hide Drop;
  }

  lemma ExecOwn(cfg: Config, c: Core, op: Op)
    requires Staged(c) && FillsOwn(c) && OpOk(cfg, c, op) && (op.DoSchedule? ==> !op.out.Prefetch?)
    ensures FillsOwn(Exec(cfg, c, op)) && (op.DoFill? ==> HitOf(c, op.o) == Running)
  {
    match op
    case DoAllocate => AllocateOwn(cfg, c);
    case DoMove(q) => MoveOwn(c, q);
    case DoSchedule(slot, port, out) =>
      var k := ListedEntry(c, slot);
      hide Staged;
      hide Schedule;
      ScheduleOwn(c, slot, port, out);
    case DoRetire => RetireOwn(c);
    case _ =>
      hide Staged;
      hide Enqueue;
      hide Advance;
  }

  lemma AllocateOwn(cfg: Config, c: Core)
    requires Staged(c) && FillsOwn(c) && CanAllocate(cfg, c)
    ensures FillsOwn(Allocate(cfg, c))
  {
    HeadLive(c);
    var o := c.front[0][0].data;
    assert At(c, o).stage == Fetched;
    hide Staged;
    hide Enqueue;
    hide Dequeue;
    hide R.Push;
  }

  lemma MoveOwn(c: Core, q: nat)
    requires Staged(c) && FillsOwn(c) && q < 3 && Ready(c.queues[q])
    ensures FillsOwn(Move(c, q))
  {
    var k := HeadEntry(c, q);
    MoveUpdates(c, q);
    MoveFills(c, q);
    hide Staged;
    hide Move;
    hide Dequeue;
  }

  lemma RetireOwn(c: Core)
    requires Staged(c) && FillsOwn(c) && CanRetire(c)
    ensures FillsOwn(Retire(c))
  {
    hide Staged;
    hide R.Pop;
  }

  lemma MoveFills(c: Core, q: nat)
    requires q < |c.queues| && Ready(c.queues[q])
    ensures Move(c, q).fills == c.fills
  {
  }

  /** Without tracked software prefetches a fill only ever finds the uop that waits for it, so the
      guarantees above hold of every such run. */
  lemma {:induction false} OwnFills(cfg: Config, states: seq<Core>, ops: seq<Op>, n: nat)
    requires IsRun(cfg, states, ops) && NoPrefetch(ops) && n <= |ops|
    ensures FillsHit(states, ops[..n], {Running}) && FillsOwn(states[n])
  {
    if n > 0 {
      OwnFills(cfg, states, ops, n - 1);
      var before := ops[..n - 1];
      assert IsRun(cfg, states[..n], before);
      assert FillsHit(states[..n], before, {Running});
      RunStages(cfg, states[..n], before, {Running}, n - 1);
      ExecOwn(cfg, states[n - 1], ops[n - 1]);
    }
  }

  lemma NoPrefetchHits(cfg: Config, states: seq<Core>, ops: seq<Op>)
    requires IsRun(cfg, states, ops) && NoPrefetch(ops)
    ensures FillsHit(states, ops, {Running}) && Harmless({Running})
  {
    OwnFills(cfg, states, ops, |ops|);
    assert ops[..|ops|] == ops;
  }
}
