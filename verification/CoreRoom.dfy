/**
 When a uop is allocated and where it goes, said of occupancy: the entries of the reorder buffer that hold
 resources and the entries waiting in the queues.
 */
module CoreRoom {
  import opened Options
  import opened PQueues
  import opened CoreModel
  import opened CoreInvariant
  import opened CorePlaces
  import opened CoreRun
  import R = Robs

  /** The allocation queue a uop of kind `k` waits in. */
  predicate WaitsIn(cfg: Config, k: Kind, q: nat) {
    if cfg.oneQueue then q == 0
    else match k
         case Load => q == 1
         case Store => q == 1
         case FpOp => q == 2
         case _ => q == 0
  }

  /** Uops in flight that hold a resource of kind `x` leave one over. */
  predicate Spare(cfg: Config, c: Core, x: Resource)
    requires R.Valid(c.rob)
  {
    Users(c, R.Items(c.rob), x) < Total(cfg, x)
  }

  /** In every run: the oldest uop of the front end is allocated exactly when it is through the front-end
      stages, the reorder buffer holds fewer uops than it may, the uops in flight leave over a load buffer for
      a load, a store buffer for a store and a register for arithmetic, and its queue is below its bound. */
  lemma AllocatesIff(cfg: Config, states: seq<Core>, ops: seq<Op>, i: nat, q: nat)
    requires IsRun(cfg, states, ops) && i < |states| && states[i].front != [] && states[i].front[0] != []
    requires WaitsIn(cfg, At(states[i], states[i].front[0][0].data).kind, q)
    ensures var c := states[i]; var k := At(c, c.front[0][0].data).kind;
            && Shape(c) && q < 3
            && (CanAllocate(cfg, c) <==>
                  && |R.Items(c.rob)| < |c.rob.cells| / 2
                  && (k == Load ==> Spare(cfg, c, Lb)) && (k == Store ==> Spare(cfg, c, Sb))
                  && (k == IntOp ==> Spare(cfg, c, Int)) && (k == FpOp ==> Spare(cfg, c, Fp))
                  && |Flat(c.queues[q])| < cfg.allocCap)
  {
    RunPlaces(cfg, states, ops, i);
    var c := states[i];
    FlatCount(c.queues[q]);
    forall x
      ensures Available(c, x) == Total(cfg, x) - Users(c, R.Items(c.rob), x)
    {
      ResourcesConserved(cfg, states, ops, i, x);
    }
    hide IsRun;
    hide Places;
    hide Users;
    hide R.Items;
    assert Available(c, Lb) == c.lb && Available(c, Sb) == c.sb && Available(c, Int) == c.ints && Available(c, Fp) == c.fps;
  }

  /** The allocated uop leaves the front end, becomes the youngest entry of the reorder buffer, holds what its
      kind needs, and its entry's index joins the end of its queue. */
  lemma AllocatedSaid(cfg: Config, c: Core, q: nat)
    requires Shape(c) && Places(cfg, c) && CanAllocate(cfg, c) && WaitsIn(cfg, At(c, Flat(c.front)[0].data).kind, q)
    ensures var o := Flat(c.front)[0].data; var d := Allocate(cfg, c);
            && Flat(d.front) == Flat(c.front)[1..] && R.Valid(d.rob) && R.Items(d.rob) == R.Items(c.rob) + [o]
            && (forall p :: 0 <= p < 3 && p != q ==> d.queues[p] == c.queues[p])
            && Flat(d.queues[q]) == Flat(c.queues[q]) + [Item(0, R.Slot(d.rob, |R.Items(c.rob)|))]
            && (At(d, o).kind == Load ==> Uses(At(d, o), Lb)) && (At(d, o).kind == Store ==> Uses(At(d, o), Sb))
            && (At(d, o).kind == IntOp ==> Uses(At(d, o), Int)) && (At(d, o).kind == FpOp ==> Uses(At(d, o), Fp))
  {
    DequeueFifo(c.front);
    var o := c.front[0][0].data;
    assert Flat(c.front)[0].data == o;
    R.PushAppends(c.rob, o);
    EnqueueFifo(c.queues[q], Item(0, c.rob.last));
    hide Flat;
    hide Enqueue;
    hide Dequeue;
    hide R.Push;
    hide R.Items;
  }

  /** A uop that leaves its queue is done at once when it is bogus or has a done cycle; any other is listed
      with the scheduler, behind those listed before. */
  lemma MovedSaid(c: Core, q: nat)
    requires Shape(c) && q < 3 && Ready(c.queues[q])
    ensures Flat(c.queues[q]) != []
    ensures var slot := Flat(c.queues[q])[0].data; var u := At(c, Cell(c, slot));
            var d := Move(c, q); var v := At(d, Cell(c, slot));
            && Flat(d.queues[q]) == Flat(c.queues[q])[1..]
            && (u.bogus || u.done != 0 ==> v.done == c.now && v.stage == Executed && d.sched == c.sched)
            && (!u.bogus && u.done == 0 ==> v.done == 0 && v.stage == InSched && d.sched == c.sched + [slot])
  {
    DequeueFifo(c.queues[q]);
    hide Flat;
    hide Dequeue;
    hide R.Valid;
  }

  /** A fetched uop is the last of its thread, waits at the end of the front end, and has neither executed nor
      recorded anything. */
  lemma FetchedSaid(cfg: Config, c: Core, o: Obj, t: nat, ins: Instr, kind: Kind, bogus: bool, extra: seq<Src>)
    requires Shape(c) && Places(cfg, c)
    ensures var d := Fetch(c, o, t, ins, kind, bogus, extra); var u := At(d, o);
            && Program(d, t) == Program(c, t) + [ins] && u.num == |Program(c, t)| && u.thread == Some(t) && u.valid
            && u.kind == kind && u.bogus == bogus && u.done == 0 && u.stage == Fetched && !u.srcsRdy && u.lastDep.None?
            && |u.srcs| == |ins.srcs| + |extra| && u.srcs[|ins.srcs|..] == extra
            && Flat(d.front) == Flat(c.front) + [Item(0, o)]
            && forall x :: x != o ==> At(d, x) == At(c, x)
  {
    EnqueueFifo(c.front, Item(0, o));
    hide Flat;
    hide Enqueue;
    hide UpdateMap;
  }
}
