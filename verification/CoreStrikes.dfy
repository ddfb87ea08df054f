/**
 Which fills the core's guarantees survive. A tracked software prefetch retires before its fill, which
 then writes the done cycle of whatever uop its object holds. For every set of kinds of fills: all runs
 with such fills execute in dataflow order exactly when the set has neither fills that find a uop that has
 not executed nor ones that find a writer that was done, and all keep the alloc queues' indices exactly
 when it has none of the former.
 */
module CoreStrikes {
  import opened Options
  import opened PQueues
  import opened CoreModel
  import opened CoreInvariant
  import opened CoreDeps
  import opened CoreStages
  import opened CoreRun
  import R = Robs

  // ---------- the two properties ----------

  /** What the step should respect: a non-bogus uop that reaches `exec` has the last earlier writers of its
      instruction's source registers retired, or done no later than now. */
  ghost predicate InOrderAt(c: Core, op: Op) {
    op.DoSchedule? && Schedule(c, op.slot, op.port, op.out).1 && LiveObj(c, Cell(c, op.slot)) ==>
      var u := At(c, Cell(c, op.slot)); var t := u.thread.value; var prog := Program(c, t);
      u.bogus || u.num >= |prog|
      || forall k :: 0 <= k < |prog[u.num].srcs| ==> WriterDone(c, t, LastWriter(prog, u.num, prog[u.num].srcs[k]))
  }

  ghost predicate AllInOrder(states: seq<Core>, ops: seq<Op>) {
    |ops| <= |states| && forall i :: 0 <= i < |ops| ==> InOrderAt(states[i], ops[i])
  }

  /** Every index in an alloc queue is that of a live entry. */
  ghost predicate IndicesLive(c: Core) {
    Shape(c) && forall q, x :: 0 <= q < 3 && x in Datas(Flat(c.queues[q])) ==> exists k: nat :: k < R.Entries(c.rob) && x == R.Slot(c.rob, k)
  }

  // ---------- a small core ----------

  const SMALL := Config(2, 2, 2, 1, 1, 1, 1, true)

  /** A core of one thread, two objects and one alloc queue without latency, as far as it matters. */
  datatype View = View(now: nat, a: Uop, b: Uop, front: seq<Obj>, ring: R.Ring, queue: seq<nat>, sched: seq<nat>,
                       fills: multiset<Obj>, src: Src, prog: seq<Instr>, retired: seq<Name>)

  function Lane(xs: seq<nat>): (ls: seq<Item<nat>>)
    ensures |ls| == |xs| && forall i :: 0 <= i < |xs| ==> ls[i] == Item(0, xs[i])
  {
    seq(|xs|, i requires 0 <= i < |xs| => Item(0, xs[i]))
  }

  predicate OnlyTwo(objs: map<Obj, Uop>) { forall o :: o in objs && objs[o].valid ==> o < 2 }

  ghost predicate Looks(c: Core, v: View) {
    && c.now == v.now && At(c, 0) == v.a && At(c, 1) == v.b && OnlyTwo(c.objs)
    && c.front == [Lane(v.front)] && c.queues == [[Lane(v.queue)], [[]], [[]]] && c.rob == v.ring && c.sched == v.sched
    && c.fills == v.fills && Lookup(c.regMap, 0, 1) == v.src && Program(c, 0) == v.prog && c.retired == v.retired
    && c.sb == c.lb == c.ints == c.fps == 1
  }

  ghost predicate Reach(hits: set<Hit>, c: Core) {
    exists states, ops :: IsRun(SMALL, states, ops) && FillsHit(states, ops, hits) && states[|ops|] == c
  }

  ghost predicate Reached(hits: set<Hit>, v: View) { exists c :: Reach(hits, c) && Looks(c, v) }

  lemma Longer(states: seq<Core>, ops: seq<Op>, hits: set<Hit>, op: Op) returns (more: seq<Core>, steps: seq<Op>)
    requires IsRun(SMALL, states, ops) && FillsHit(states, ops, hits)
    requires var c := states[|ops|]; Shape(c) && OpOk(SMALL, c, op) && (op.DoFill? ==> HitOf(c, op.o) in hits)
    ensures IsRun(SMALL, more, steps) && FillsHit(more, steps, hits)
    ensures steps == ops + [op] && more[..|states|] == states && more[|steps|] == Exec(SMALL, states[|ops|], op)
  {
    hide Exec;
    hide OpOk;
    hide Shape;
    hide IsStart;
    hide HitOf;
    more, steps := states + [Exec(SMALL, states[|ops|], op)], ops + [op];
  }

  lemma Goes(hits: set<Hit>, c: Core, op: Op)
    requires Reach(hits, c) && Shape(c) && OpOk(SMALL, c, op) && (op.DoFill? ==> HitOf(c, op.o) in hits)
    ensures Reach(hits, Exec(SMALL, c, op))
  {
    var states, ops :| IsRun(SMALL, states, ops) && FillsHit(states, ops, hits) && states[|ops|] == c;
    var more, steps := Longer(states, ops, hits, op);
  }

  lemma LooksShape(c: Core, v: View)
    requires Looks(c, v) && R.Valid(v.ring)
    ensures Shape(c)
  {
  }

  function UopOf(v: View, o: Obj): Uop { if o == 0 then v.a else v.b }

  function With(v: View, o: Obj, u: Uop): View { if o == 0 then v.(a := u) else v.(b := u) }

  // ---------- its steps ----------

  lemma LaneEnds(xs: seq<nat>, x: nat)
    ensures Enqueue([Lane(xs)], Item(0, x)) == [Lane(xs + [x])] && Count([Lane(xs)]) == |xs|
    ensures Dequeue([Lane([x] + xs)]) == [Lane(xs)] && Lane([x] + xs)[0].data == x
  {
    RankedLevel(Lane(xs), Item(0, x));
    assert Lane(xs) + [Item(0, x)] == Lane(xs + [x]);
    assert Enqueue([Lane(xs)], Item(0, x)) == [Ranked(Lane(xs), Item(0, x))];
    assert [Lane(xs)][1..] == [];
    assert Lane([x] + xs)[1..] == Lane(xs);
  }

  function Fresh(num: nat, srcs: seq<Src>): Uop {
    Uop(true, num, Some(0), 0, srcs, false, None, false, Other, 0, Fetched, false, false, false, false)
  }

  lemma Arrives(hits: set<Hit>, c: Core, v: View)
    requires Reach(hits, c) && Looks(c, v)
    ensures Reached(hits, v)
  {
  }

  /** The same core with one of the two objects updated. */
  lemma PutLooks(c: Core, v: View, o: Obj, u: Uop)
    requires Looks(c, v) && o < 2
    ensures Looks(Put(c, o, u), With(v, o, u))
  {
  }

  function FetchView(v: View, o: Obj, ins: Instr): View {
    With(v, o, Fresh(|v.prog|, if ins.srcs == [] then [] else [v.src]))
      .(front := [o], src := if ins.dests == [] then v.src else Src(Some(o), |v.prog|), prog := v.prog + [ins])
  }

  lemma FetchStep(hits: set<Hit>, v: View, o: Obj, ins: Instr)
    requires Reached(hits, v) && R.Valid(v.ring) && o < 2 && !UopOf(v, o).valid && v.front == []
    requires ins.srcs in {[], [1]} && ins.dests in {[], [1]}
    ensures Reached(hits, FetchView(v, o, ins))
  {
    var c :| Reach(hits, c) && Looks(c, v);
    LooksShape(c, v);
    FetchLooks(c, v, o, ins);
    hide Looks;
    hide Fetch;
    hide FetchView;
    hide R.Valid;
    Goes(hits, c, DoFetch(o, 0, ins, Other, false, []));
    Arrives(hits, Fetch(c, o, 0, ins, Other, false, []), FetchView(v, o, ins));
  }

  lemma FetchLooks(c: Core, v: View, o: Obj, ins: Instr)
    requires Looks(c, v) && Shape(c) && o < 2 && !UopOf(v, o).valid && v.front == []
    requires ins.srcs in {[], [1]} && ins.dests in {[], [1]}
    ensures OpOk(SMALL, c, DoFetch(o, 0, ins, Other, false, []))
    ensures Looks(Fetch(c, o, 0, ins, Other, false, []), FetchView(v, o, ins))
  {
    hide UpdateMap;
    hide ReadMap;
    hide Fetch;
    hide Enqueue;
    FetchOk(c, v, o, ins);
    UpdateMapLookup(c.regMap, 0, ins.dests, Src(Some(o), |v.prog|), 0, 1);
    OneSource(c.regMap, v.src, ins.srcs);
    PutLooks(c, v, o, Fresh(|v.prog|, ReadMap(c.regMap, 0, ins.srcs)));
    FetchPuts(c, v, o, ins);
    hide Put;
    hide OpOk;
    hide Shape;
  }

  lemma FetchOk(c: Core, v: View, o: Obj, ins: Instr)
    requires Looks(c, v) && Shape(c) && o < 2 && !UopOf(v, o).valid && v.front == []
    ensures OpOk(SMALL, c, DoFetch(o, 0, ins, Other, false, [])) && Enqueue(c.front, Item(0, o)) == [Lane([o])]
  {
    LaneEnds([], o);
    assert [] + [o] == [o];
    hide Enqueue;
    hide Count;
  }

  lemma OneSource(m: map<(nat, Reg), Src>, src: Src, srcs: seq<Reg>)
    requires srcs in {[], [1]} && Lookup(m, 0, 1) == src
    ensures var ss := ReadMap(m, 0, srcs); ss + [] == ss == if srcs == [] then [] else [src]
  {
    assert srcs == [1] ==> srcs[..0] == [];
  }

  lemma FetchPuts(c: Core, v: View, o: Obj, ins: Instr)
    requires Looks(c, v) && ReadMap(c.regMap, 0, ins.srcs) + [] == ReadMap(c.regMap, 0, ins.srcs)
    ensures var d := Put(c, o, Fresh(|v.prog|, ReadMap(c.regMap, 0, ins.srcs)));
            Fetch(c, o, 0, ins, Other, false, [])
            == d.(regMap := UpdateMap(c.regMap, 0, ins.dests, Src(Some(o), |v.prog|)), program := c.program[0 := v.prog + [ins]],
                  front := Enqueue(c.front, Item(0, o)), fetched := c.fetched + [Name(0, |v.prog|)])
  {
    hide Enqueue;
    hide UpdateMap;
    hide ReadMap;
    hide OnlyTwo;
    hide Put;
  }

  lemma AllocateStep(hits: set<Hit>, v: View, o: Obj)
    requires Reached(hits, v) && R.Valid(v.ring) && v.ring.free >= 1 && o < 2 && v.front == [o] && |v.queue| < 2
    requires UopOf(v, o).kind == Other
    ensures Reached(hits, With(v, o, UopOf(v, o).(queue := 0, stage := Queued))
                            .(front := [], ring := R.Push(v.ring, o), queue := v.queue + [v.ring.last]))
  {
    var c :| Reach(hits, c) && Looks(c, v);
    LooksShape(c, v);
    AllocateLooks(c, v, o);
    Goes(hits, c, DoAllocate);
    hide Reached;
    hide Looks;
    hide Reach;
    hide Allocate;
    Arrives(hits, Allocate(SMALL, c),
            With(v, o, UopOf(v, o).(queue := 0, stage := Queued))
              .(front := [], ring := R.Push(v.ring, o), queue := v.queue + [v.ring.last]));
  }

  lemma AllocateLooks(c: Core, v: View, o: Obj)
    requires Looks(c, v) && Shape(c) && R.Valid(v.ring) && v.ring.free >= 1 && o < 2 && v.front == [o] && |v.queue| < 2
    requires UopOf(v, o).kind == Other
    ensures CanAllocate(SMALL, c)
    ensures Looks(Allocate(SMALL, c), With(v, o, UopOf(v, o).(queue := 0, stage := Queued))
                                        .(front := [], ring := R.Push(v.ring, o), queue := v.queue + [v.ring.last]))
  {
    var u := UopOf(v, o).(queue := 0, stage := Queued);
    LaneEnds([], o);
    LaneEnds(v.queue, v.ring.last);
    assert [o] + [] == [o];
    AllocatePuts(c, v, o);
    PutLooks(c, v, o, u);
    hide Put;
    hide Enqueue;
    hide Dequeue;
    hide Count;
    hide R.Push;
    hide Allocate;
    hide CanAllocate;
    assert c.queues[0 := [Lane(v.queue + [v.ring.last])]] == [[Lane(v.queue + [v.ring.last])], [[]], [[]]];
  }

  lemma AllocatePuts(c: Core, v: View, o: Obj)
    requires Looks(c, v) && Shape(c) && v.ring.free >= 1 && o < 2 && v.front == [o] && |v.queue| < 2
    requires UopOf(v, o).kind == Other && Count(c.queues[0]) == |v.queue|
    ensures CanAllocate(SMALL, c)
    ensures Allocate(SMALL, c) == Put(c, o, UopOf(v, o).(queue := 0, stage := Queued))
              .(queues := c.queues[0 := Enqueue(c.queues[0], Item(0, v.ring.last))], rob := R.Push(c.rob, o), front := Dequeue(c.front))
  {
    assert c.front[0][0] == Item(0, o);
    assert At(c, o) == UopOf(v, o);
    hide OnlyTwo;
    hide Enqueue;
    hide Dequeue;
    hide Count;
    hide R.Push;
    hide R.Valid;
    hide Put;
  }

  lemma MoveStep(hits: set<Hit>, v: View, slot: nat, rest: seq<nat>, o: Obj)
    requires Reached(hits, v) && R.Valid(v.ring) && v.queue == [slot] + rest && slot < |v.ring.cells| && v.ring.cells[slot] == o < 2
    requires !UopOf(v, o).bogus && UopOf(v, o).done == 0
    ensures Reached(hits, With(v, o, UopOf(v, o).(stage := InSched)).(queue := rest, sched := v.sched + [slot]))
  {
    var c :| Reach(hits, c) && Looks(c, v);
    LooksShape(c, v);
    MoveLooks(c, v, slot, rest, o);
    Goes(hits, c, DoMove(0));
    hide Reached;
    hide Looks;
    hide Reach;
    hide Move;
    Arrives(hits, Move(c, 0), With(v, o, UopOf(v, o).(stage := InSched)).(queue := rest, sched := v.sched + [slot]));
  }

  lemma MoveLooks(c: Core, v: View, slot: nat, rest: seq<nat>, o: Obj)
    requires Looks(c, v) && v.queue == [slot] + rest && slot < |v.ring.cells| && v.ring.cells[slot] == o < 2
    requires !UopOf(v, o).bogus && UopOf(v, o).done == 0
    ensures Ready(c.queues[0])
    ensures Looks(Move(c, 0), With(v, o, UopOf(v, o).(stage := InSched)).(queue := rest, sched := v.sched + [slot]))
  {
    LaneEnds(rest, slot);
    PutLooks(c, v, o, UopOf(v, o).(stage := InSched));
    assert c.queues[0][0][0] == Item(0, slot) && Cell(c, slot) == o;
    hide Dequeue;
    assert c.queues[0 := [Lane(rest)]] == [[Lane(rest)], [[]], [[]]];
  }

  /** A uop without sources executes. */
  lemma ExecStep(hits: set<Hit>, v: View, slot: nat, o: Obj, out: Outcome)
    requires Reached(hits, v) && R.Valid(v.ring) && slot in v.sched && slot < |v.ring.cells| && v.ring.cells[slot] == o < 2
    requires var u := UopOf(v, o); !u.bogus && !u.srcsRdy && u.lastDep.None? && u.srcs == []
    requires (out.Latency? || out.Prefetch?) && out.n > 0
    ensures Reached(hits, With(v, o, UopOf(v, o).(srcsRdy := true, done := v.now + out.n, stage := Executed))
                            .(sched := Drop(v.sched, slot), fills := v.fills + if out.Prefetch? then multiset{o} else multiset{}))
  {
    var c :| Reach(hits, c) && Looks(c, v);
    LooksShape(c, v);
    Goes(hits, c, DoSchedule(slot, true, out));
    ExecLooks(c, v, slot, o, out);
    hide Reached;
    hide Looks;
    hide Reach;
    hide Schedule;
    hide Drop;
    Arrives(hits, Schedule(c, slot, true, out).0,
            With(v, o, UopOf(v, o).(srcsRdy := true, done := v.now + out.n, stage := Executed))
              .(sched := Drop(v.sched, slot), fills := v.fills + if out.Prefetch? then multiset{o} else multiset{}));
  }

  lemma ExecLooks(c: Core, v: View, slot: nat, o: Obj, out: Outcome)
    requires Looks(c, v) && slot < |v.ring.cells| && v.ring.cells[slot] == o < 2
    requires var u := UopOf(v, o); !u.bogus && !u.srcsRdy && u.lastDep.None? && u.srcs == []
    requires out.Latency? || out.Prefetch?
    ensures Looks(Schedule(c, slot, true, out).0,
                  With(v, o, UopOf(v, o).(srcsRdy := true, done := v.now + out.n, stage := Executed))
                    .(sched := Drop(v.sched, slot), fills := v.fills + if out.Prefetch? then multiset{o} else multiset{}))
  {
    var u := UopOf(v, o).(srcsRdy := true, done := v.now + out.n, stage := Executed);
    ExecPuts(c, v, slot, o, out);
    PutLooks(c, v, o, u);
    assert v.fills + multiset{} == v.fills;
    hide Drop;
    hide Schedule;
    hide Put;
  }

  lemma ExecPuts(c: Core, v: View, slot: nat, o: Obj, out: Outcome)
    requires Looks(c, v) && slot < |v.ring.cells| && v.ring.cells[slot] == o < 2
    requires var u := UopOf(v, o); !u.bogus && !u.srcsRdy && u.lastDep.None? && u.srcs == []
    requires out.Latency? || out.Prefetch?
    ensures var w := UopOf(v, o).(srcsRdy := true, done := v.now + out.n, stage := Executed);
            Schedule(c, slot, true, out).0
            == Put(c, o, w).(sched := Drop(c.sched, slot), fills := if out.Prefetch? then c.fills + multiset{o} else c.fills)
  {
    var u := UopOf(v, o);
    assert Cell(c, slot) == o && At(c, o) == u;
    hide Looks;
    hide Drop;
    var w := u.(srcsRdy := true);
    assert CheckSrcs(c, o) == (Put(c, o, w), true);
    var d := Put(c, o, w);
    hide CheckSrcs;
    assert Schedule(c, slot, true, out).0 == Execute(d, slot, out);
    hide Schedule;
    assert Cell(d, slot) == o && At(d, o) == w;
    var z := w.(done := c.now + out.n, stage := Executed);
    assert Put(d, o, z) == Put(c, o, z);
  }

  /** A uop whose one source is done is marked ready, and no port is free. */
  lemma FlagStep(hits: set<Hit>, v: View, slot: nat, o: Obj, p: Obj, n: nat)
    requires Reached(hits, v) && R.Valid(v.ring) && slot in v.sched && slot < |v.ring.cells| && v.ring.cells[slot] == o < 2
    requires var u := UopOf(v, o); !u.bogus && !u.srcsRdy && u.lastDep.None? && u.srcs == [Src(Some(p), n)]
    requires p < 2 && 0 < UopOf(v, p).done <= v.now
    ensures Reached(hits, With(v, o, UopOf(v, o).(srcsRdy := true)))
  {
    var c :| Reach(hits, c) && Looks(c, v);
    LooksShape(c, v);
    Goes(hits, c, DoSchedule(slot, false, Retry));
    FlagLooks(c, v, slot, o, p, n);
    hide Reached;
    hide Looks;
    hide Reach;
    hide Schedule;
    Arrives(hits, Schedule(c, slot, false, Retry).0, With(v, o, UopOf(v, o).(srcsRdy := true)));
  }

  lemma FlagLooks(c: Core, v: View, slot: nat, o: Obj, p: Obj, n: nat)
    requires Looks(c, v) && slot < |v.ring.cells| && v.ring.cells[slot] == o < 2
    requires var u := UopOf(v, o); !u.bogus && !u.srcsRdy && u.lastDep.None? && u.srcs == [Src(Some(p), n)]
    requires p < 2 && 0 < UopOf(v, p).done <= v.now
    ensures Looks(Schedule(c, slot, false, Retry).0, With(v, o, UopOf(v, o).(srcsRdy := true)))
  {
    var u := UopOf(v, o);
    assert Cell(c, slot) == o && At(c, o) == u && At(c, p) == UopOf(v, p);
    assert !Blocks(c, u.thread, u.srcs[0]);
    assert FirstBlocking(c, u, 0).None?;
    assert FirstBlocking(c, u, 1).None?;
    assert CheckSrcs(c, o) == (Put(c, o, u.(srcsRdy := true)), true);
    PutLooks(c, v, o, u.(srcsRdy := true));
    hide CheckSrcs;
    hide Put;
    hide Looks;
  }

  lemma FillStep(hits: set<Hit>, v: View, o: Obj, h: Hit)
    requires Reached(hits, v) && R.Valid(v.ring) && o in v.fills && o < 2 && h in hits
    requires var u := UopOf(v, o);
             && u.valid && u.thread == Some(0) && u.num < |v.prog|
             && h == if u.stage != Executed then Waiting else if 0 < u.done <= v.now then Finished(v.prog[u.num].dests != []) else Running
    ensures Reached(hits, With(v, o, UopOf(v, o).(done := v.now + 1)).(fills := v.fills - multiset{o}))
  {
    var c :| Reach(hits, c) && Looks(c, v);
    LooksShape(c, v);
    FillLooks(c, v, o);
    hide Looks;
    Goes(hits, c, DoFill(o));
    Arrives(hits, Fill(c, o), With(v, o, UopOf(v, o).(done := v.now + 1)).(fills := v.fills - multiset{o}));
    hide Reach;
    hide Reached;
  }

  lemma FillLooks(c: Core, v: View, o: Obj)
    requires Looks(c, v) && o < 2
    ensures At(c, o) == UopOf(v, o) && Program(c, 0) == v.prog && c.now == v.now && c.fills == v.fills
    ensures Looks(Fill(c, o), With(v, o, UopOf(v, o).(done := v.now + 1)).(fills := v.fills - multiset{o}))
  {
    assert At(c, o) == UopOf(v, o);
    var u := UopOf(v, o).(done := v.now + 1);
    PutLooks(c, v, o, u);
    var d := Put(c, o, u);
    assert Fill(c, o) == d.(fills := c.fills - multiset{o}) && d.fills == c.fills;
    hide Put;
    hide Fill;
    hide OnlyTwo;
  }

  lemma TickStep(hits: set<Hit>, v: View)
    requires Reached(hits, v) && R.Valid(v.ring)
    ensures Reached(hits, v.(now := v.now + 1))
  {
    var c :| Reach(hits, c) && Looks(c, v);
    LooksShape(c, v);
    Goes(hits, c, Tick);
    Arrives(hits, c.(now := c.now + 1), v.(now := v.now + 1));
  }

  lemma RetireStep(hits: set<Hit>, v: View, o: Obj)
    requires Reached(hits, v) && R.Valid(v.ring) && R.Entries(v.ring) > 0 && R.At(v.ring, 0) == o < 2
    requires var u := UopOf(v, o);
             0 < u.done <= v.now && u.thread.Some? && !u.reqLb && !u.reqSb && !u.reqInt && !u.reqFp
    ensures var u := UopOf(v, o);
            Reached(hits, With(v, o, u.(valid := false, num := 0, thread := None, stage := Pooled))
                            .(ring := R.Pop(v.ring), retired := v.retired + [Name(u.thread.value, u.num)]))
  {
    var c :| Reach(hits, c) && Looks(c, v);
    LooksShape(c, v);
    var u := UopOf(v, o);
    assert At(c, o) == u;
    Goes(hits, c, DoRetire);
    RetireLooks(c, v, o);
    hide Looks;
    hide Retire;
    hide R.Pop;
    hide R.Valid;
    hide R.Entries;
    Arrives(hits, Retire(c), With(v, o, u.(valid := false, num := 0, thread := None, stage := Pooled))
                               .(ring := R.Pop(v.ring), retired := v.retired + [Name(u.thread.value, u.num)]));
    hide Reach;
    hide Reached;
  }

  lemma RetireLooks(c: Core, v: View, o: Obj)
    requires Looks(c, v) && R.Valid(v.ring) && R.Entries(v.ring) > 0 && R.At(v.ring, 0) == o < 2
    requires var u := UopOf(v, o); u.thread.Some? && !u.reqLb && !u.reqSb && !u.reqInt && !u.reqFp
    ensures var u := UopOf(v, o);
            Looks(Retire(c), With(v, o, u.(valid := false, num := 0, thread := None, stage := Pooled))
                               .(ring := R.Pop(v.ring), retired := v.retired + [Name(u.thread.value, u.num)]))
  {
    hide R.Pop;
    hide R.Valid;
    hide R.Entries;
    var u := UopOf(v, o);
    assert At(c, o) == u;
    PutLooks(c, v, o, u.(valid := false, num := 0, thread := None, stage := Pooled));
  }

  // ---------- the runs ----------

  const NOP := Instr([], [])
  const WRITER := Instr([], [1])
  const READER := Instr([1], [])

  const START := View(1, NOBODY, NOBODY, [], R.Fresh(2), [], [], multiset{}, Src(None, 0), [], [])

  lemma StartReached(hits: set<Hit>)
    ensures Reached(hits, START)
  {
    var c := Core(1, map[], map[], map[], [[]], R.Fresh(2), [[[]], [[]], [[]]], [], 1, 1, 1, 1, multiset{}, [], []);
    assert Flat(c.front) == [];
    forall q | 0 <= q < 3
      ensures Flat(c.queues[q]) == []
    {
      assert c.queues[q] == [[]];
    }
    var none: seq<Op> := [];
    assert IsRun(SMALL, [c], none) && FillsHit([c], none, hits) && [c][|none|] == c;
    assert Lane([]) == [];
    assert Reach(hits, c);
    assert Looks(c, START);
  }

  /** A prefetch was fetched into object 0, executed and retired, its request still out, and a writer was
      fetched into the object. */
  const PREFETCHED := View(2, Fresh(1, []).(queue := 0, stage := Queued), NOBODY, [], R.Ring([0, 0, 0, 0], 1, 2, 1), [1], [],
                           multiset{0}, Src(Some(0), 1), [NOP, WRITER], [Name(0, 0)])

  lemma Prefetched(hits: set<Hit>)
    ensures Reached(hits, PREFETCHED)
  {
    hide Reached;
    StartReached(hits);
    FetchStep(hits, START, 0, NOP);
    var v1 := START.(a := Fresh(0, []), front := [0], prog := [NOP]);
    assert [] + [NOP] == [NOP];
    AllocateStep(hits, v1, 0);
    assert R.Fresh(2).cells == [0, 0, 0, 0];
    var r := R.Ring([0, 0, 0, 0], 0, 1, 1);
    assert R.Push(v1.ring, 0) == r;
    var v2 := v1.(a := Fresh(0, []).(stage := Queued), front := [], ring := r, queue := [0]);
    assert [] + [0] == [0];
    assert [0] + [] == [0];
    MoveStep(hits, v2, 0, [], 0);
    var v3 := v2.(a := Fresh(0, []).(stage := InSched), queue := [], sched := [0]);
    ExecStep(hits, v3, 0, 0, Prefetch(1));
    assert Drop([0], 0) == [];
    assert multiset{} + multiset{0} == multiset{0};
    var v4 := v3.(a := Fresh(0, []).(srcsRdy := true, done := 2, stage := Executed), sched := [], fills := multiset{0});
    TickStep(hits, v4);
    RetireStep(hits, v4.(now := 2), 0);
    var v6 := v4.(now := 2, a := v4.a.(valid := false, num := 0, thread := None, stage := Pooled),
                  ring := R.Ring([0, 0, 0, 0], 1, 1, 2), retired := [Name(0, 0)]);
    assert [] + [Name(0, 0)] == [Name(0, 0)];
    SecondUop(hits, v6);
  }

  lemma SecondUop(hits: set<Hit>, v: View)
    requires Reached(hits, v) && v == PREFETCHED.(a := v.a, ring := R.Ring([0, 0, 0, 0], 1, 1, 2), queue := [],
                                                  src := Src(None, 0), prog := [NOP]) && !v.a.valid
    ensures Reached(hits, PREFETCHED)
  {
    hide Reached;
    FetchStep(hits, v, 0, WRITER);
    assert [NOP] + [WRITER] == [NOP, WRITER];
    var w := v.(a := Fresh(1, []), front := [0], src := Src(Some(0), 1), prog := [NOP, WRITER]);
    AllocateStep(hits, w, 0);
    assert R.Push(w.ring, 0) == R.Ring([0, 0, 0, 0], 1, 2, 1);
    assert [] + [1] == [1];
  }

  /** A reader was fetched behind the writer, and both are in the scheduler. */
  const BOTH := PREFETCHED.(a := Fresh(1, []).(stage := InSched), b := Fresh(2, [Src(Some(0), 1)]).(stage := InSched),
                            ring := R.Ring([0, 0, 1, 0], 1, 3, 0), queue := [], sched := [1, 2], prog := [NOP, WRITER, READER])

  lemma BothListed(hits: set<Hit>)
    ensures Reached(hits, BOTH)
  {
    hide Reached;
    Prefetched(hits);
    FetchStep(hits, PREFETCHED, 1, READER);
    assert [NOP, WRITER] + [READER] == [NOP, WRITER, READER];
    var v1 := PREFETCHED.(b := Fresh(2, [Src(Some(0), 1)]), front := [1], prog := [NOP, WRITER, READER]);
    AllocateStep(hits, v1, 1);
    assert R.Push(v1.ring, 1) == BOTH.ring;
    assert [1] + [2] == [1, 2];
    var v2 := v1.(b := v1.b.(stage := Queued), front := [], ring := BOTH.ring, queue := [1, 2]);
    MoveStep(hits, v2, 1, [2], 0);
    assert [] + [1] == [1];
    var v3 := v2.(a := BOTH.a, queue := [2], sched := [1]);
    assert [2] + [] == [2];
    MoveStep(hits, v3, 2, [], 1);
  }

  /** The writer executes and is done, the reader is marked ready but finds no port, the fill puts the
      writer's done cycle off, and the reader executes. */
  lemma LateWriter(hits: set<Hit>)
    requires Finished(true) in hits
    ensures exists states, ops :: IsRun(SMALL, states, ops) && FillsHit(states, ops, hits) && !AllInOrder(states, ops)
  {
    hide Reached;
    BothListed(hits);
    ExecStep(hits, BOTH, 1, 0, Latency(1));
    assert Drop([1, 2], 1) == [2] by { assert [1, 2][..1] == [1] && [1][..0] == []; }
    assert BOTH.fills + multiset{} == BOTH.fills;
    var v1 := BOTH.(a := BOTH.a.(srcsRdy := true, done := 3, stage := Executed), sched := [2]);
    TickStep(hits, v1);
    var v2 := v1.(now := 3);
    FlagStep(hits, v2, 2, 1, 0, 1);
    var v3 := v2.(b := v2.b.(srcsRdy := true));
    FillStep(hits, v3, 0, Finished(true));
    var v4 := v3.(a := v3.a.(done := 4), fills := multiset{});
    assert v3.fills - multiset{0} == multiset{};
    ReaderGoes(hits, v4);
  }

  /** The fill gives the writer a done cycle before it executes, the reader is marked ready, and then the
      writer executes, to be done later. */
  lemma EarlyWriter(hits: set<Hit>)
    requires Waiting in hits
    ensures exists states, ops :: IsRun(SMALL, states, ops) && FillsHit(states, ops, hits) && !AllInOrder(states, ops)
  {
    hide Reached;
    BothListed(hits);
    FillStep(hits, BOTH, 0, Waiting);
    assert BOTH.fills - multiset{0} == multiset{};
    var v1 := BOTH.(a := BOTH.a.(done := 3), fills := multiset{});
    TickStep(hits, v1);
    var v2 := v1.(now := 3);
    FlagStep(hits, v2, 2, 1, 0, 1);
    var v3 := v2.(b := v2.b.(srcsRdy := true));
    ExecStep(hits, v3, 1, 0, Latency(5));
    assert Drop([1, 2], 1) == [2] by { assert [1, 2][..1] == [1] && [1][..0] == []; }
    assert v3.fills + multiset{} == v3.fills;
    ReaderGoes(hits, v3.(a := v3.a.(srcsRdy := true, done := 8, stage := Executed), sched := [2]));
  }

  /** The reader, marked ready, reaches `exec` while its writer is not done. */
  lemma ReaderGoes(hits: set<Hit>, v: View)
    requires Reached(hits, v) && v == BOTH.(now := 3, a := v.a, b := BOTH.b.(srcsRdy := true), sched := [2], fills := v.fills)
    requires v.a == BOTH.a.(srcsRdy := true, stage := Executed, done := v.a.done) && v.a.done > 3
    ensures exists states, ops :: IsRun(SMALL, states, ops) && FillsHit(states, ops, hits) && !AllInOrder(states, ops)
  {
    hide InOrderAt;
    var c :| Reach(hits, c) && Looks(c, v);
    var states, ops :| IsRun(SMALL, states, ops) && FillsHit(states, ops, hits) && states[|ops|] == c;
    var op := DoSchedule(2, true, Latency(1));
    ReaderLate(c, v);
    ReaderOk(c, v);
    hide Looks;
    hide Schedule;
    hide OpOk;
    hide BOTH;
    var more, steps := Longer(states, ops, hits, op);
    assert more[|ops|] == c && steps[|ops|] == op;
    Violates(more, steps, |ops|);
    hide AllInOrder;
    hide IsRun;
    hide FillsHit;
  }

  lemma ReaderOk(c: Core, v: View)
    requires Looks(c, v) && R.Valid(v.ring) && 2 in v.sched
    ensures Shape(c) && OpOk(SMALL, c, DoSchedule(2, true, Latency(1)))
  {
    LooksShape(c, v);
  }

  lemma Violates(states: seq<Core>, ops: seq<Op>, i: nat)
    requires i < |ops| < |states| && !InOrderAt(states[i], ops[i])
    ensures !AllInOrder(states, ops)
  {
  }

  lemma ReaderLate(c: Core, v: View)
    requires Looks(c, v) && v == BOTH.(now := 3, a := v.a, b := BOTH.b.(srcsRdy := true), sched := [2], fills := v.fills)
    requires v.a == BOTH.a.(srcsRdy := true, stage := Executed, done := v.a.done) && v.a.done > 3
    ensures !InOrderAt(c, DoSchedule(2, true, Latency(1)))
  {
    assert Cell(c, 2) == 1 && At(c, 1) == v.b;
    assert LiveObj(c, 1) && Schedule(c, 2, true, Latency(1)).1;
    var prog := v.prog;
    assert prog[2].srcs[0] == 1 && LastWriter(prog, 2, 1) == Some(1);
    assert Name(0, 1) !in c.retired;
    forall p | Holds(c, p, 0, 1)
      ensures !(0 < c.objs[p].done <= c.now)
    {
      assert p == 0;
    }
    assert !WriterDone(c, 0, Some(1));
  }

  /** The fill finds the writer in the alloc queue, and it retires from there. */
  lemma IndexDangles(hits: set<Hit>)
    requires Waiting in hits
    ensures exists c :: Reach(hits, c) && Shape(c) && !IndicesLive(c)
  {
    Prefetched(hits);
    hide Reached;
    FillStep(hits, PREFETCHED, 0, Waiting);
    assert PREFETCHED.fills - multiset{0} == multiset{};
    var v1 := PREFETCHED.(a := PREFETCHED.a.(done := 3), fills := multiset{});
    TickStep(hits, v1);
    var v2 := v1.(now := 3);
    RetireStep(hits, v2, 0);
    var v3 := v2.(a := v2.a.(valid := false, num := 0, thread := None, stage := Pooled), ring := R.Ring([0, 0, 0, 0], 2, 2, 2),
                  retired := v2.retired + [Name(0, 1)]);
    Dangling(hits, v3);
  }

  lemma Dangling(hits: set<Hit>, v: View)
    requires Reached(hits, v) && R.Valid(v.ring) && R.Entries(v.ring) == 0 && v.queue == [1]
    ensures exists c :: Reach(hits, c) && Shape(c) && !IndicesLive(c)
  {
    var c :| Reach(hits, c) && Looks(c, v);
    LooksShape(c, v);
    assert Flat([Lane([1])]) == Lane([1]) + Flat([]);
    assert Datas(Flat(c.queues[0]))[0] == 1;
    assert 1 in Datas(Flat(c.queues[0]));
  }

  // ---------- which fills are harmless ----------

  lemma HarmlessOrder(cfg: Config, states: seq<Core>, ops: seq<Op>, hits: set<Hit>)
    requires IsRun(cfg, states, ops) && FillsHit(states, ops, hits) && Harmless(hits)
    ensures AllInOrder(states, ops)
  {
    forall i | 0 <= i < |ops|
      ensures InOrderAt(states[i], ops[i])
    {
      if ops[i].DoSchedule? && Schedule(states[i], ops[i].slot, ops[i].port, ops[i].out).1
         && !At(states[i], Cell(states[i], ops[i].slot)).bogus
      {
        RunInv(cfg, states, ops, hits, i);
        var k := ListedEntry(states[i], ops[i].slot);
        ExecOnlyWhenReady(states[i], ops[i].slot, ops[i].port, ops[i].out);
      }
    }
  }

  /** All runs with fills of kinds in `hits` execute in dataflow order if and only if no fill may find a uop
      that has not executed, or one that was done and has destination registers. */
  lemma OrderIff(hits: set<Hit>)
    ensures (forall cfg, states, ops :: IsRun(cfg, states, ops) && FillsHit(states, ops, hits) ==> AllInOrder(states, ops))
            <==> Harmless(hits)
  {
    if Harmless(hits) {
      forall cfg, states, ops | IsRun(cfg, states, ops) && FillsHit(states, ops, hits)
        ensures AllInOrder(states, ops)
      {
        HarmlessOrder(cfg, states, ops, hits);
      }
    } else if Waiting in hits {
      EarlyWriter(hits);
    } else {
      LateWriter(hits);
    }
  }

  /** All runs with fills of kinds in `hits` keep the alloc queues' indices live if and only if no fill may
      find a uop that has not executed. */
  lemma IndicesIff(hits: set<Hit>)
    ensures (forall cfg, states, ops, i :: IsRun(cfg, states, ops) && FillsHit(states, ops, hits) && 0 <= i < |states| ==> IndicesLive(states[i]))
            <==> Waiting !in hits
  {
    hide IndicesLive;
    if Waiting !in hits {
      forall cfg, states, ops, i | IsRun(cfg, states, ops) && FillsHit(states, ops, hits) && 0 <= i < |states|
        ensures IndicesLive(states[i])
      {
        StayLive(cfg, states, ops, hits, i);
      }
    } else {
      IndexDangles(hits);
      var c :| Reach(hits, c) && Shape(c) && !IndicesLive(c);
      var states, ops :| IsRun(SMALL, states, ops) && FillsHit(states, ops, hits) && states[|ops|] == c;
      assert !IndicesLive(states[|ops|]);
    }
  }

  lemma StayLive(cfg: Config, states: seq<Core>, ops: seq<Op>, hits: set<Hit>, i: nat)
    requires IsRun(cfg, states, ops) && FillsHit(states, ops, hits) && Waiting !in hits && i < |states|
    ensures IndicesLive(states[i])
  {
    RunStages(cfg, states, ops, hits, i);
    var c := states[i];
    forall q, x | 0 <= q < 3 && x in Datas(Flat(c.queues[q]))
      ensures exists k: nat :: k < R.Entries(c.rob) && x == R.Slot(c.rob, k)
    {
      assert QueueOk(c, q);
      var k: nat :| Names1(c, x, Queued, k) && InQueue(c, q, k);
      assert k < R.Entries(c.rob) && x == R.Slot(c.rob, k);
    }
  }
}
