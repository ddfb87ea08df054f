/**
 What the core keeps, in three layers: places, order and resources, which every step keeps; stages and
 queues, which are kept unless a fill finds a uop that has not executed; and dependences, which are kept
 unless a fill also finds a writer that was done.
 */
module CoreInvariant {
  import opened Options
  import opened PQueues
  import opened CoreModel
  import R = Robs

  // ---------- program order ----------

  /** The last of the first `n` instructions that writes `r`. */
  function LastWriter(prog: seq<Instr>, n: nat, r: Reg): (w: Option<nat>)
    requires n <= |prog|
    ensures w.Some? ==> w.value < n && r in prog[w.value].dests
    ensures forall m :: (if w.Some? then w.value + 1 else 0) <= m < n ==> r !in prog[m].dests
  {
    if n == 0 then None else if r in prog[n - 1].dests then Some(n - 1) else LastWriter(prog, n - 1, r)
  }

  lemma {:induction false} LastWriterPrefix(prog: seq<Instr>, more: seq<Instr>, n: nat, r: Reg)
    requires n <= |prog|
    ensures LastWriter(prog + more, n, r) == LastWriter(prog, n, r)
  {
    if n > 0 { LastWriterPrefix(prog, more, n - 1, r); }
  }

  /** Object `o` holds uop `m` of thread `t`. */
  predicate Holds(c: Core, o: Obj, t: nat, m: nat) {
    o in c.objs && c.objs[o].valid && c.objs[o].thread == Some(t) && c.objs[o].num == m
  }

  predicate Retired(c: Core, t: nat, m: nat) { Name(t, m) in c.retired }

  /** A recorded source names the last writer, and points to its object while it is in flight. */
  predicate Linked(c: Core, t: nat, w: Option<nat>, s: Src) {
    match w
    case None => s.obj.None?
    case Some(m) => s.num == m && s.obj.Some? && (Retired(c, t, m) || Holds(c, s.obj.value, t, m))
  }

  /** The writer has retired, or is done no later than now. */
  ghost predicate WriterDone(c: Core, t: nat, w: Option<nat>) {
    w.Some? ==> Retired(c, t, w.value) || exists o :: Holds(c, o, t, w.value) && 0 < c.objs[o].done <= c.now
  }

  // ---------- the window ----------

  function Datas<T>(xs: seq<Item<T>>): (ys: seq<T>)
    ensures |ys| == |xs| && forall i :: 0 <= i < |xs| ==> ys[i] == xs[i].data
  {
    seq(|xs|, i requires 0 <= i < |xs| => xs[i].data)
  }

  /** The uops in flight, oldest first. */
  function Window(c: Core): seq<Obj>
    requires R.Valid(c.rob)
  {
    R.Items(c.rob) + Datas(Flat(c.front))
  }

  function NameOf(u: Uop): Name { Name(if u.thread.Some? then u.thread.value else 0, u.num) }

  function Names(c: Core, xs: seq<Obj>): (ns: seq<Name>)
    ensures |ns| == |xs| && forall i :: 0 <= i < |xs| ==> ns[i] == NameOf(At(c, xs[i]))
  {
    seq(|xs|, i requires 0 <= i < |xs| => NameOf(At(c, xs[i])))
  }

  predicate Distinct<T(==)>(xs: seq<T>) {
    forall i, j :: 0 <= i < j < |xs| ==> xs[i] != xs[j]
  }

  predicate LiveObj(c: Core, o: Obj) { o in c.objs && c.objs[o].valid && c.objs[o].thread.Some? }

  ghost predicate WindowOk(c: Core)
    requires R.Valid(c.rob)
  {
    && Distinct(Window(c)) && (forall o :: o in Window(c) ==> LiveObj(c, o))
    && (forall o :: At(c, o).valid ==> o in Window(c))
    && Level(Flat(c.front), 0)
  }

  /** What was fetched is what retired followed by what is in flight, and each thread's uops come in
      the order of its program. */
  ghost predicate OrderOk(c: Core)
    requires R.Valid(c.rob)
  {
    && c.fetched == c.retired + Names(c, Window(c))
    && (forall i, j :: 0 <= i < j < |c.fetched| && c.fetched[i].thread == c.fetched[j].thread
                       ==> c.fetched[i].num < c.fetched[j].num)
    && (forall n :: n in c.fetched ==> n.num < |Program(c, n.thread)|)
  }

  // ---------- dependences ----------

  ghost predicate MapOk(c: Core) {
    forall t: nat, r: Reg :: Linked(c, t, LastWriter(Program(c, t), |Program(c, t)|, r), Lookup(c.regMap, t, r))
  }

  /** The sources of a uop follow its instruction's source registers. */
  predicate SrcsOk(c: Core, o: Obj)
    requires LiveObj(c, o)
  {
    var u := c.objs[o];
    && u.num < |Program(c, u.thread.value)|
    && var prog := Program(c, u.thread.value); var regs := prog[u.num].srcs;
       && |regs| <= |u.srcs|
       && forall i :: 0 <= i < |regs| ==> Linked(c, u.thread.value, LastWriter(prog, u.num, regs[i]), u.srcs[i])
  }

  ghost predicate ReadyOk(c: Core, o: Obj)
    requires LiveObj(c, o) && SrcsOk(c, o)
  {
    var u := c.objs[o];
    var prog := Program(c, u.thread.value);
    u.srcsRdy ==> forall i :: 0 <= i < |prog[u.num].srcs| ==>
                    WriterDone(c, u.thread.value, LastWriter(prog, u.num, prog[u.num].srcs[i]))
  }

  ghost predicate DepsOk(c: Core) {
    forall o :: LiveObj(c, o) ==> SrcsOk(c, o) && ReadyOk(c, o)
  }

  // ---------- stages, queues and resources ----------

  /** A done cycle is had by executed uops only. */
  predicate StageOk(u: Uop) {
    && (u.done != 0 ==> u.stage == Executed)
    && (u.stage == Queued ==> u.queue < 3)
  }

  ghost predicate StagesOk(c: Core)
    requires R.Valid(c.rob)
  {
    && (forall o :: LiveObj(c, o) ==> StageOk(c.objs[o]))
    && (forall o :: o in R.Items(c.rob) ==> At(c, o).stage in {Queued, InSched, Executed})
    && (forall o :: o in Datas(Flat(c.front)) ==> At(c, o).stage == Fetched)
  }

  /** Index `slot` is that of a live entry whose uop is in stage `g`. */
  predicate Names1(c: Core, slot: nat, g: Stage, k: nat)
    requires R.Valid(c.rob)
  {
    k < R.Entries(c.rob) && slot == R.Slot(c.rob, k) && At(c, R.At(c.rob, k)).stage == g
  }

  predicate InQueue(c: Core, q: nat, k: nat)
    requires R.Valid(c.rob) && k < R.Entries(c.rob)
  {
    At(c, R.At(c.rob, k)).stage == Queued && At(c, R.At(c.rob, k)).queue == q
  }

  /** The indices in an alloc queue are, without repetition, those of the entries waiting there. */
  ghost predicate QueueOk(c: Core, q: nat)
    requires Shape(c) && q < 3
  {
    var xs := Datas(Flat(c.queues[q]));
    && Distinct(xs) && Level(Flat(c.queues[q]), 0)
    && (forall x :: x in xs ==> exists k :: Names1(c, x, Queued, k) && InQueue(c, q, k))
    && (forall k :: 0 <= k < R.Entries(c.rob) && InQueue(c, q, k) ==> R.Slot(c.rob, k) in xs)
  }

  ghost predicate SchedOk(c: Core)
    requires R.Valid(c.rob)
  {
    && Distinct(c.sched)
    && (forall x :: x in c.sched ==> exists k :: Names1(c, x, InSched, k))
    && (forall k :: 0 <= k < R.Entries(c.rob) && At(c, R.At(c.rob, k)).stage == InSched ==> R.Slot(c.rob, k) in c.sched)
  }

  datatype Resource = Lb | Sb | Int | Fp

  predicate Uses(u: Uop, x: Resource) {
    match x
    case Lb => u.reqLb
    case Sb => u.reqSb
    case Int => u.reqInt
    case Fp => u.reqFp
  }

  function Users(c: Core, xs: seq<Obj>, x: Resource): nat {
    if xs == [] then 0 else Users(c, xs[..|xs|-1], x) + One(Uses(At(c, xs[|xs|-1]), x))
  }

  function Available(c: Core, x: Resource): int {
    match x
    case Lb => c.lb
    case Sb => c.sb
    case Int => c.ints
    case Fp => c.fps
  }

  function Total(cfg: Config, x: Resource): int {
    match x
    case Lb => cfg.lb
    case Sb => cfg.sb
    case Int => cfg.ints
    case Fp => cfg.fps
  }

  /** Free buffers and registers and their holders in the reorder buffer add up. */
  ghost predicate ResourcesOk(cfg: Config, c: Core)
    requires R.Valid(c.rob)
  {
    forall x :: Available(c, x) + Users(c, R.Items(c.rob), x) == Total(cfg, x) && Available(c, x) >= 0
  }

  /** Uops in the front end hold nothing yet. */
  ghost predicate FrontFree(c: Core) {
    forall o :: o in Datas(Flat(c.front)) ==>
      !At(c, o).reqLb && !At(c, o).reqSb && !At(c, o).reqInt && !At(c, o).reqFp
  }

  ghost predicate Places(cfg: Config, c: Core) {
    && Shape(c) && WindowOk(c) && OrderOk(c) && ResourcesOk(cfg, c) && FrontFree(c)
    && forall q :: 0 <= q < 3 ==> Level(Flat(c.queues[q]), 0)
  }

  ghost predicate Staged(c: Core) {
    && Shape(c) && WindowOk(c) && StagesOk(c) && (forall q :: 0 <= q < 3 ==> QueueOk(c, q)) && SchedOk(c)
  }

  ghost predicate Linking(c: Core) { MapOk(c) && DepsOk(c) }

  ghost predicate Inv(cfg: Config, c: Core) { Places(cfg, c) && Staged(c) && Linking(c) }
}
