/**
 The out-of-order core on the x86 path: register dependences recorded at fetch (src/map.cc),
 allocation into the reorder buffer and the alloc queues (src/allocate.cc), the scheduler's
 readiness check (src/schedule.cc) and in-order retirement (src/retire.cc). Uop objects come from a
 pool and are recycled; `Obj` is the identity of an object. Which object the pool hands out, which
 waiting uop the scheduler tries, and what execution answers are parameters of the steps.
 */
module CoreModel {
  import opened Options
  import opened PQueues
  import R = Robs

  type Obj = nat
  type Reg = nat

  /** A uop's name: its thread and its number in that thread's program. */
  datatype Name = Name(thread: nat, num: nat)

  /** `src_info_c`: no object stands for the invalid uop every map entry starts with. */
  datatype Src = Src(obj: Option<Obj>, num: nat)

  datatype Kind = Load | Store | IntOp | FpOp | Other

  datatype Stage = Pooled | Fetched | Queued | InSched | Executed

  datatype Uop = Uop(valid: bool, num: nat, thread: Option<nat>, done: nat, srcs: seq<Src>, srcsRdy: bool,
                     lastDep: Option<Obj>, bogus: bool, kind: Kind, queue: nat, stage: Stage,
                     reqLb: bool, reqSb: bool, reqInt: bool, reqFp: bool)

  const NOBODY := Uop(false, 0, None, 0, [], false, None, false, Other, 0, Pooled, false, false, false, false)

  datatype Instr = Instr(srcs: seq<Reg>, dests: seq<Reg>)

  datatype Config = Config(robSize: nat, frontCap: nat, allocCap: nat, sb: nat, lb: nat, ints: nat, fps: nat,
                           oneQueue: bool)

  /** `regMap` holds the map entries; `program` what each thread has fetched; `fills` the uop
      objects that memory requests still point to, misses and tracked software prefetches alike; `fetched` and `retired` the names in order. */
  datatype Core = Core(now: nat, objs: map<Obj, Uop>, regMap: map<(nat, Reg), Src>, program: map<nat, seq<Instr>>,
                       front: Lanes<Obj>, rob: R.Ring, queues: seq<Lanes<nat>>, sched: seq<nat>,
                       sb: int, lb: int, ints: int, fps: int, fills: multiset<Obj>,
                       fetched: seq<Name>, retired: seq<Name>)

  function At(c: Core, o: Obj): Uop { if o in c.objs then c.objs[o] else NOBODY }

  function Put(c: Core, o: Obj, u: Uop): Core { c.(objs := c.objs[o := u]) }

  function Program(c: Core, t: nat): seq<Instr> { if t in c.program then c.program[t] else [] }

  function Lookup(m: map<(nat, Reg), Src>, t: nat, r: Reg): Src { if (t, r) in m then m[(t, r)] else Src(None, 0) }

  // ---------- fetch: map_c ----------

  /** `read_reg_map`: one source per source register. */
  function ReadMap(m: map<(nat, Reg), Src>, t: nat, regs: seq<Reg>): (ss: seq<Src>)
    ensures |ss| == |regs| && forall i :: 0 <= i < |regs| ==> ss[i] == Lookup(m, t, regs[i])
  {
    if regs == [] then [] else ReadMap(m, t, regs[..|regs|-1]) + [Lookup(m, t, regs[|regs|-1])]
  }

  /** `update_map`: the uop becomes the last writer of its destinations. */
  function UpdateMap(m: map<(nat, Reg), Src>, t: nat, dests: seq<Reg>, s: Src): map<(nat, Reg), Src> {
    if dests == [] then m else UpdateMap(m, t, dests[..|dests|-1], s)[(t, dests[|dests|-1]) := s]
  }

  /** A uop is taken from the pool, numbered, given its sources and put in the front-end queue;
      `extra` are its memory dependences. */
  function Fetch(c: Core, o: Obj, t: nat, ins: Instr, kind: Kind, bogus: bool, extra: seq<Src>): Core
    requires c.front != []
  {
    var num := |Program(c, t)|;
    var u := Uop(true, num, Some(t), 0, ReadMap(c.regMap, t, ins.srcs) + extra, false, None, bogus, kind, 0, Fetched,
                 false, false, false, false);
    Put(c, o, u).(regMap := UpdateMap(c.regMap, t, ins.dests, Src(Some(o), num)),
                  program := c.program[t := Program(c, t) + [ins]],
                  front := Enqueue(c.front, Item(0, o)),
                  fetched := c.fetched + [Name(t, num)])
  }

  // ---------- allocation ----------

  function QueueFor(cfg: Config, k: Kind): (q: nat)
    ensures q < 3
  {
    if cfg.oneQueue then 0 else if k == FpOp then 2 else if k == Load || k == Store then 1 else 0
  }

  function One(b: bool): nat { if b then 1 else 0 }

  predicate HasRoom(cfg: Config, c: Core, k: Kind)
    requires |c.queues| == 3
  {
    && c.rob.free >= 1 && c.sb >= One(k == Store) && c.lb >= One(k == Load) && c.ints >= One(k == IntOp)
    && c.fps >= One(k == FpOp) && Count(c.queues[QueueFor(cfg, k)]) < cfg.allocCap
  }

  /** The body of the width loop once resources are there. */
  function Allocate(cfg: Config, c: Core): Core
    requires Ready(c.front) && |c.queues| == 3 && R.Valid(c.rob)
    requires forall q :: 0 <= q < 3 ==> c.queues[q] != []
  {
    var o := c.front[0][0].data;
    var u := At(c, o);
    var q := QueueFor(cfg, u.kind);
    Put(c, o, u.(reqSb := u.kind == Store || u.reqSb, reqLb := u.kind == Load || u.reqLb,
                 reqInt := u.kind == IntOp || u.reqInt, reqFp := u.kind == FpOp || u.reqFp,
                 queue := q, stage := Queued))
      .(sb := c.sb - One(u.kind == Store), lb := c.lb - One(u.kind == Load),
        ints := c.ints - One(u.kind == IntOp), fps := c.fps - One(u.kind == FpOp),
        queues := c.queues[q := Enqueue(c.queues[q], Item(0, c.rob.last))],
        rob := R.Push(c.rob, o), front := Dequeue(c.front))
  }

  predicate CanAllocate(cfg: Config, c: Core)
    requires |c.queues| == 3
  {
    Ready(c.front) && HasRoom(cfg, c, At(c, c.front[0][0].data).kind)
  }

  // ---------- scheduling ----------

  /** The object in reorder-buffer entry `slot`. */
  function Cell(c: Core, slot: nat): Obj { if slot < |c.rob.cells| then c.rob.cells[slot] else 0 }

  /** One iteration of `schedule_c::advance` on queue `q`: bogus uops, and uops that have a done cycle
      already, are finished on the spot. */
  function Move(c: Core, q: nat): Core
    requires q < |c.queues| && Ready(c.queues[q])
  {
    var slot := c.queues[q][0][0].data;
    var o := Cell(c, slot);
    var u := At(c, o);
    var d := c.(queues := c.queues[q := Dequeue(c.queues[q])]);
    if u.bogus || u.done != 0 then Put(d, o, u.(done := c.now, stage := Executed))
    else Put(d, o, u.(stage := InSched)).(sched := c.sched + [slot])
  }

  /** A source is waited for only if its object still is the recorded uop of the same thread. */
  predicate Current(c: Core, t: Option<nat>, s: Src) {
    s.obj.Some? && At(c, s.obj.value).valid && At(c, s.obj.value).num == s.num && At(c, s.obj.value).thread == t
  }

  predicate Blocks(c: Core, t: Option<nat>, s: Src) {
    Current(c, t, s) && (At(c, s.obj.value).done == 0 || c.now < At(c, s.obj.value).done)
  }

  /** The first blocking source among the first `n`. */
  function FirstBlocking(c: Core, u: Uop, n: nat): (r: Option<nat>)
    requires n <= |u.srcs|
    ensures r.Some? ==> r.value < n && Blocks(c, u.thread, u.srcs[r.value])
    ensures r.None? ==> forall i :: 0 <= i < n ==> !Blocks(c, u.thread, u.srcs[i])
  {
    if n == 0 then None
    else
      var r := FirstBlocking(c, u, n - 1);
      if r.Some? then r else if Blocks(c, u.thread, u.srcs[n - 1]) then Some(n - 1) else None
  }

  /** `check_srcs`. */
  function CheckSrcs(c: Core, o: Obj): (Core, bool) {
    var u := At(c, o);
    if u.srcsRdy then (c, true)
    else
      match FirstBlocking(c, u, |u.srcs|)
      case None => (Put(c, o, u.(srcsRdy := true)), true)
      case Some(i) =>
        var s := u.srcs[i].obj.value;
        if u.lastDep.None? || At(c, u.lastDep.value).done < At(c, s).done
        then (Put(c, o, u.(lastDep := Some(s))), false)
        else (c, false)
  }

  /** What `exec_c::exec` answers: not now, a latency, a miss whose fill sets the done cycle, or a
      software prefetch with a tracked request. */
  datatype Outcome = Retry | Latency(n: nat) | Miss | Prefetch(n: nat)

  function Execute(c: Core, slot: nat, out: Outcome): Core {
    var o := Cell(c, slot);
    var u := At(c, o);
    match out
    case Retry => c
    case Latency(n) => Unlist(Put(c, o, u.(done := c.now + n, stage := Executed)), slot)
    case Miss => Unlist(Put(c, o, u.(stage := Executed)), slot).(fills := c.fills + multiset{o})
    case Prefetch(n) => Unlist(Put(c, o, u.(done := c.now + n, stage := Executed)), slot).(fills := c.fills + multiset{o})
  }

  function Drop(xs: seq<nat>, x: nat): seq<nat> {
    if xs == [] then [] else Drop(xs[..|xs|-1], x) + (if xs[|xs|-1] == x then [] else [xs[|xs|-1]])
  }

  function Unlist(c: Core, slot: nat): Core { c.(sched := Drop(c.sched, slot)) }

  /** `uop_schedule`; the flag says that `exec` was reached. */
  function Schedule(c: Core, slot: nat, port: bool, out: Outcome): (Core, bool) {
    var o := Cell(c, slot);
    var u := At(c, o);
    if !u.bogus && !u.srcsRdy && u.lastDep.Some? && c.now < At(c, u.lastDep.value).done then (c, false)
    else if u.bogus then (Execute(c, slot, out), true)
    else
      var (d, ready) := CheckSrcs(c, o);
      if ready && port then (Execute(d, slot, out), true) else (d, false)
  }

  /** `dcu_c::done` of a request that points to object `o`, whatever uop the object holds by then. */
  function Fill(c: Core, o: Obj): Core { Put(c, o, At(c, o).(done := c.now + 1)).(fills := c.fills - multiset{o}) }

  // ---------- retirement ----------

  predicate CanRetire(c: Core)
    requires R.Valid(c.rob)
  {
    R.Entries(c.rob) > 0 && 0 < At(c, R.At(c.rob, 0)).done <= c.now
  }

  /** `uop_c::free`, which leaves the resource flags alone, and then the release of what the flags
      name. */
  function Retire(c: Core): Core
    requires R.Valid(c.rob) && R.Entries(c.rob) > 0
  {
    var o := R.At(c.rob, 0);
    var u := At(c, o);
    Put(c, o, u.(valid := false, num := 0, thread := None, stage := Pooled))
      .(rob := R.Pop(c.rob), lb := c.lb + One(u.reqLb), sb := c.sb + One(u.reqSb),
        ints := c.ints + One(u.reqInt), fps := c.fps + One(u.reqFp),
        retired := c.retired + (if u.thread.Some? then [Name(u.thread.value, u.num)] else []))
  }

  // ---------- runs ----------

  datatype Op =
    | DoFetch(o: Obj, t: nat, ins: Instr, kind: Kind, bogus: bool, extra: seq<Src>)
    | DoAllocate
    | AgeFront
    | AgeQueue(q: nat)
    | DoMove(q: nat)
    | DoSchedule(slot: nat, port: bool, out: Outcome)
    | DoFill(o: Obj)
    | DoRetire
    | Tick

  predicate Shape(c: Core) {
    R.Valid(c.rob) && c.front != [] && |c.queues| == 3 && forall q :: 0 <= q < 3 ==> c.queues[q] != []
  }

  /** What the source checks before each step. A fill comes for a request that is out. */
  predicate OpOk(cfg: Config, c: Core, op: Op)
    requires Shape(c)
  {
    match op
    case DoFetch(o, _, _, _, _, _) => !At(c, o).valid && Count(c.front) < cfg.frontCap
    case DoAllocate => CanAllocate(cfg, c)
    case AgeFront => true
    case AgeQueue(q) => q < 3
    case DoMove(q) => q < 3 && Ready(c.queues[q])
    case DoSchedule(slot, _, out) => slot in c.sched && (out.Latency? || out.Prefetch? ==> out.n > 0)
    case DoFill(o) => o in c.fills
    case DoRetire => CanRetire(c)
    case Tick => true
  }

  function Exec(cfg: Config, c: Core, op: Op): Core
    requires Shape(c) && OpOk(cfg, c, op)
  {
    match op
    case DoFetch(o, t, ins, kind, bogus, extra) => Fetch(c, o, t, ins, kind, bogus, extra)
    case DoAllocate => Allocate(cfg, c)
    case AgeFront => c.(front := Advance(c.front))
    case AgeQueue(q) => c.(queues := c.queues[q := Advance(c.queues[q])])
    case DoMove(q) => Move(c, q)
    case DoSchedule(slot, port, out) => Schedule(c, slot, port, out).0
    case DoFill(o) => Fill(c, o)
    case DoRetire => Retire(c)
    case Tick => c.(now := c.now + 1)
  }

  /** An empty core. */
  predicate IsStart(cfg: Config, c: Core) {
    && Shape(c) && c.objs == map[] && c.regMap == map[] && c.program == map[]
    && Flat(c.front) == [] && (forall q :: 0 <= q < 3 ==> Flat(c.queues[q]) == [])
    && R.Items(c.rob) == [] && c.sched == [] && c.fills == multiset{} && c.fetched == [] && c.retired == []
    && c.sb == cfg.sb && c.lb == cfg.lb && c.ints == cfg.ints && c.fps == cfg.fps
  }

  ghost predicate IsRun(cfg: Config, states: seq<Core>, ops: seq<Op>) {
    && |states| == |ops| + 1 && IsStart(cfg, states[0])
    && forall i :: 0 <= i < |ops| ==>
         Shape(states[i]) && OpOk(cfg, states[i], ops[i]) && states[i + 1] == Exec(cfg, states[i], ops[i])
  }

  // ---------- what a fill finds ----------

  /** The destination registers of the instruction an object holds. */
  function Dests(c: Core, o: Obj): seq<Reg> {
    var u := At(c, o);
    if u.thread.Some? && u.num < |Program(c, u.thread.value)| then Program(c, u.thread.value)[u.num].dests else []
  }

  /** A fill may find its object in the pool, holding a uop that has not executed, one that has but is
      not done yet, or one that is done, with or without destination registers. */
  datatype Hit = Gone | Waiting | Running | Finished(writes: bool)

  function HitOf(c: Core, o: Obj): Hit {
    var u := At(c, o);
    if !u.valid then Gone
    else if u.stage != Executed then Waiting
    else if 0 < u.done <= c.now then Finished(Dests(c, o) != [])
    else Running
  }

  /** All fills of the run are of kinds in `hits`. */
  predicate FillsHit(states: seq<Core>, ops: seq<Op>, hits: set<Hit>) {
    |ops| <= |states| && forall i :: 0 <= i < |ops| && ops[i].DoFill? ==> HitOf(states[i], ops[i].o) in hits
  }

  /** No software prefetch with a tracked request is executed. */
  predicate NoPrefetch(ops: seq<Op>) {
    forall i :: 0 <= i < |ops| && ops[i].DoSchedule? ==> !ops[i].out.Prefetch?
  }
}
