/**
 Dependences of the core: kept by every step but a fill that finds a uop that has not executed or a
 writer that was done.
 */
module CoreSteps {
  import opened Options
  import opened PQueues
  import opened CoreModel
  import opened CoreInvariant
  import opened CoreDeps
  import opened CorePlaces
  import opened CoreStages
  import R = Robs

  lemma SameObjsEvolves(c: Core, d: Core)
    requires d.objs == c.objs && d.program == c.program && d.regMap == c.regMap && c.now <= d.now && d.retired == c.retired
    ensures Evolves(c, d)
  {
    forall o
      ensures EvolvesObj(c, d, o)
    {
    }
  }

  lemma UpdateEvolves(c: Core, d: Core, o: Obj, v: Uop)
    requires LiveObj(c, o) && d.objs == c.objs[o := v] && d.program == c.program && d.regMap == c.regMap
    requires d.now == c.now && d.retired == c.retired
    requires var u := c.objs[o];
             && v.valid && v.num == u.num && v.thread == u.thread && v.srcs == u.srcs
             && (0 < u.done <= c.now && Dests(c, o) != [] ==> v.done == u.done) && (v.srcsRdy ==> u.srcsRdy)
    ensures Evolves(c, d)
  {
    var e := Put(c, o, v);
    PutEvolves(c, o, v);
    SameObjsEvolves(e, d);
    EvolvesTrans(c, e, d);
  }

  lemma MoveEvolves(c: Core, q: nat)
    requires Staged(c) && q < 3 && Ready(c.queues[q])
    ensures Evolves(c, Move(c, q))
  {
    hide Evolves;
    hide Move;
    var k := HeadEntry(c, q);
    QueuedNotDone(c, q, k);
    var d, o := Move(c, q), R.At(c.rob, k);
    MovePuts(c, q);
    UpdateEvolves(c, d, o, At(d, o));
  }

  lemma MovePuts(c: Core, q: nat)
    requires q < |c.queues| && Ready(c.queues[q])
    ensures var o, d := Cell(c, c.queues[q][0][0].data), Move(c, q);
            && d.objs == c.objs[o := At(d, o)] && At(d, o) == At(c, o).(stage := At(d, o).stage, done := At(d, o).done)
            && d == c.(objs := d.objs, queues := d.queues, sched := d.sched)
  {
    hide Dequeue;
  }

  lemma ExecuteEvolves(c: Core, slot: nat, out: Outcome)
    requires LiveObj(c, Cell(c, slot)) && At(c, Cell(c, slot)).done == 0
    ensures Evolves(c, Execute(c, slot, out))
  {
    hide Evolves;
    hide Drop;
    var d, o := Execute(c, slot, out), Cell(c, slot);
    if out.Retry? { SameObjsEvolves(c, d); } else { UpdateEvolves(c, d, o, At(d, o)); }
  }

  lemma ScheduleLinks(c: Core, slot: nat, port: bool, out: Outcome)
    requires Staged(c) && Linking(c) && slot in c.sched
    ensures Linking(Schedule(c, slot, port, out).0)
  {
    var k := ListedEntry(c, slot);
    hide Staged;
    hide MapOk;
    hide DepsOk;
    hide Evolves;
    var o := Cell(c, slot);
    var b := CheckSrcs(c, o).0;
    CheckKeepsDeps(c, o);
    hide CheckSrcs;
    ExecuteEvolves(c, slot, out);
    EvolvesDeps(c, Execute(c, slot, out));
    ExecuteEvolves(b, slot, out);
    EvolvesDeps(b, Execute(b, slot, out));
    hide Execute;
  }

  lemma FillEvolves(c: Core, o: Obj)
    requires HitOf(c, o) != Waiting && HitOf(c, o) != Finished(true) && (At(c, o).valid ==> LiveObj(c, o))
    ensures Evolves(c, Fill(c, o))
  {
    var d := Fill(c, o);
    forall x
      ensures EvolvesObj(c, d, x)
    {
    }
  }

  lemma RetireEvolves(c: Core)
    requires R.Valid(c.rob) && R.Entries(c.rob) > 0 && LiveObj(c, R.At(c.rob, 0))
    ensures Evolves(c, Retire(c))
  {
    var d, o := Retire(c), R.At(c.rob, 0);
    assert Name(c.objs[o].thread.value, c.objs[o].num) in d.retired;
    forall x
      ensures EvolvesObj(c, d, x)
    {
    }
  }

  lemma AllocateEvolves(cfg: Config, c: Core)
    requires Shape(c) && CanAllocate(cfg, c) && LiveObj(c, c.front[0][0].data)
    ensures Evolves(c, Allocate(cfg, c))
  {
    hide Evolves;
    var o, d := c.front[0][0].data, Allocate(cfg, c);
    UpdateEvolves(c, d, o, At(d, o));
  }

  /** Every step but fetch and scheduling. */
  lemma ExecEvolves(cfg: Config, c: Core, op: Op)
    requires Staged(c) && OpOk(cfg, c, op) && !op.DoFetch? && !op.DoSchedule?
    requires op.DoFill? ==> HitOf(c, op.o) != Waiting && HitOf(c, op.o) != Finished(true)
    ensures Evolves(c, Exec(cfg, c, op))
  {
    hide Evolves;
    hide StagesOk;
    hide QueueOk;
    hide SchedOk;
    match op
    case DoAllocate => HeadLive(c); AllocateEvolves(cfg, c);
    case DoMove(q) => MoveEvolves(c, q);
    case DoFill(o) => ValidLive(c, o); FillEvolves(c, o);
    case DoRetire => RobLive(c, 0); RetireEvolves(c);
    case AgeFront => SameObjsEvolves(c, Exec(cfg, c, op));
    case AgeQueue(_) => SameObjsEvolves(c, Exec(cfg, c, op));
    case Tick => SameObjsEvolves(c, Exec(cfg, c, op));
    case _ =>
  }

  lemma ValidLive(c: Core, o: Obj)
    requires R.Valid(c.rob) && WindowOk(c)
    ensures At(c, o).valid ==> LiveObj(c, o)
  {
  }

  lemma ExecLinks(cfg: Config, c: Core, op: Op)
    requires Staged(c) && Linking(c) && OpOk(cfg, c, op)
    requires op.DoFill? ==> HitOf(c, op.o) != Waiting && HitOf(c, op.o) != Finished(true)
    ensures Linking(Exec(cfg, c, op))
  {
    StagedShape(c);
    hide Staged;
    hide MapOk;
    hide DepsOk;
    hide Evolves;
    match op
    case DoFetch(o, t, ins, kind, bogus, extra) => FetchDeps(c, o, t, ins, kind, bogus, extra);
    case DoSchedule(slot, port, out) => ScheduleLinks(c, slot, port, out);
    case _ =>
      ExecEvolves(cfg, c, op);
      EvolvesDeps(c, Exec(cfg, c, op));
  }

  /** Every step keeps the whole invariant, fills of those two kinds apart. */
  lemma ExecKeeps(cfg: Config, c: Core, op: Op)
    requires Inv(cfg, c) && OpOk(cfg, c, op)
    requires op.DoFill? ==> HitOf(c, op.o) != Waiting && HitOf(c, op.o) != Finished(true)
    ensures Inv(cfg, Exec(cfg, c, op))
  {
    ExecPlaces(cfg, c, op);
    ExecKeepsStages(cfg, c, op);
    ExecLinks(cfg, c, op);
    hide Places;
    hide Staged;
    hide Linking;
    hide Exec;
  }

  lemma StartKeeps(cfg: Config, c: Core)
    requires IsStart(cfg, c)
    ensures Inv(cfg, c)
  {
    StartPlaces(cfg, c);
    StartStages(cfg, c);
  }
}
