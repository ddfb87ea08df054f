/**
 The core's stages as the source runs them: loops over sources, destinations and pipeline width that
 update the map, the uop objects, the queues and the reorder buffer in place. Every method is proved
 equal to its function in `CoreModel`, and the width loops to runs of allocation or retirement steps.
 */
module CorePipeline {
  import opened Options
  import opened PQueues
  import M = CoreModel
  import R = Robs

  // ---------- a whole cycle of allocation or retirement ----------

  lemma AllocateShape(cfg: M.Config, c: M.Core)
    requires M.Shape(c) && M.CanAllocate(cfg, c)
    ensures M.Shape(M.Allocate(cfg, c))
  {
    R.PushAppends(c.rob, c.front[0][0].data);
  }

  lemma RetireShape(c: M.Core)
    requires M.Shape(c) && M.CanRetire(c)
    ensures M.Shape(M.Retire(c))
  {
    R.PopDrops(c.rob);
  }

  /** `allocate_c::run_a_cycle` with `n` slots of width left: it stops at the first uop that does not
      fit. */
  function Allocates(cfg: M.Config, c: M.Core, n: nat): (d: M.Core)
    requires M.Shape(c)
    ensures M.Shape(d)
    decreases n
  {
    if n == 0 || !M.CanAllocate(cfg, c) then c
    else
      AllocateShape(cfg, c);
      Allocates(cfg, M.Allocate(cfg, c), n - 1)
  }

  /** `retire_c::run_a_cycle`: it stops at the first uop that is not done. */
  function Retires(c: M.Core, n: nat): (d: M.Core)
    requires M.Shape(c)
    ensures M.Shape(d)
    decreases n
  {
    if n == 0 || !M.CanRetire(c) then c
    else
      RetireShape(c);
      Retires(M.Retire(c), n - 1)
  }

  /** The width loop ends with the width used up or with a uop that does not fit, and not before. */
  lemma {:induction false} AllocatesSaid(cfg: M.Config, c: M.Core, n: nat) returns (k: nat)
    requires M.Shape(c)
    ensures k <= n && (k == n || !M.CanAllocate(cfg, Allocates(cfg, c, n)))
    ensures |R.Items(Allocates(cfg, c, n).rob)| == |R.Items(c.rob)| + k
    decreases n
  {
    k := 0;
    if n > 0 && M.CanAllocate(cfg, c) {
      AllocateShape(cfg, c);
      R.PushAppends(c.rob, c.front[0][0].data);
      k := AllocatesSaid(cfg, M.Allocate(cfg, c), n - 1);
      k := k + 1;
      hide R.Push;
      hide M.CanAllocate;
    }
  }

  /** The `k` oldest uops of `c` are done, and what stopped the loop is the width, an empty buffer or an
      oldest uop that is not done. */
  predicate StopsAt(c: M.Core, n: nat, k: nat)
    requires R.Valid(c.rob)
  {
    var xs := R.Items(c.rob);
    && k <= n && k <= |xs|
    && (forall i :: 0 <= i < k ==> 0 < M.At(c, xs[i]).done <= c.now)
    && (k == n || k == |xs| || M.At(c, xs[k]).done == 0 || M.At(c, xs[k]).done > c.now)
  }

  /** The uops that retire are the longest run of done ones from the oldest on that fits the width. */
  lemma {:induction false} RetiresSaid(c: M.Core, n: nat) returns (k: nat)
    requires M.Shape(c)
    ensures StopsAt(c, n, k) && R.Items(Retires(c, n).rob) == R.Items(c.rob)[k..]
    decreases n
  {
    k := 0;
    if n > 0 && M.CanRetire(c) {
      RetireShape(c);
      RetireFrame(c);
      var d := M.Retire(c);
      k := RetiresSaid(d, n - 1);
      StopsNext(c, d, n - 1, k);
      k := k + 1;
    }
  }

  lemma StopsNext(c: M.Core, d: M.Core, n: nat, k: nat)
    requires R.Valid(c.rob) && R.Valid(d.rob) && R.Items(c.rob) != [] && R.Items(d.rob) == R.Items(c.rob)[1..]
    requires d.now == c.now && forall o :: M.At(d, o).done == M.At(c, o).done
    requires StopsAt(d, n, k) && 0 < M.At(c, R.Items(c.rob)[0]).done <= c.now
    ensures StopsAt(c, n + 1, k + 1)
  {
    var xs, ys := R.Items(c.rob), R.Items(d.rob);
    hide R.Items;
    hide M.At;
    assert forall i :: 0 <= i < |ys| ==> ys[i] == xs[i + 1];
  }

  lemma RetireFrame(c: M.Core)
    requires M.Shape(c) && M.CanRetire(c)
    ensures var d := M.Retire(c);
            && R.Valid(d.rob) && R.Items(c.rob) != [] && R.Items(d.rob) == R.Items(c.rob)[1..] && d.now == c.now
            && (forall o :: M.At(d, o).done == M.At(c, o).done)
    ensures 0 < M.At(c, R.Items(c.rob)[0]).done <= c.now
  {
    R.PopDrops(c.rob);
    hide R.Pop;
  }

  lemma MoveShape(c: M.Core, q: nat)
    requires M.Shape(c) && q < 3 && Ready(c.queues[q])
    ensures M.Shape(M.Move(c, q))
  {
  }

  /** `schedule_c::advance` on queue `q` when the scheduler's limits stop it after `n` uops. */
  function Moves(c: M.Core, q: nat, n: nat): (d: M.Core)
    requires M.Shape(c) && q < 3
    ensures M.Shape(d)
    decreases n
  {
    if n == 0 || !Ready(c.queues[q]) then c
    else
      MoveShape(c, q);
      Moves(M.Move(c, q), q, n - 1)
  }

  /** Uops leave the queue until none is ready or the limit is reached, and not before. */
  lemma {:induction false} MovesSaid(c: M.Core, q: nat, n: nat) returns (k: nat)
    requires M.Shape(c) && q < 3
    ensures k <= n && (k == n || !Ready(Moves(c, q, n).queues[q]))
    ensures k <= |Flat(c.queues[q])| && Flat(Moves(c, q, n).queues[q]) == Flat(c.queues[q])[k..]
    decreases n
  {
    k := 0;
    if n > 0 && Ready(c.queues[q]) {
      MoveShape(c, q);
      DequeueFifo(c.queues[q]);
      k := MovesSaid(M.Move(c, q), q, n - 1);
      k := k + 1;
      hide Flat;
    }
  }

  // ---------- the stages ----------

  class Pipeline {
    const cfg: M.Config
    var now: nat
    var objs: map<M.Obj, M.Uop>
    var regMap: map<(nat, M.Reg), M.Src>
    var program: map<nat, seq<M.Instr>>
    var front: Lanes<M.Obj>
    var rob: R.Ring
    var queues: seq<Lanes<nat>>
    var sched: seq<nat>
    var sb: int
    var lb: int
    var ints: int
    var fps: int
    var fills: multiset<M.Obj>
    var fetched: seq<M.Name>
    var retired: seq<M.Name>

    ghost function State(): M.Core
      reads this
    {
      M.Core(now, objs, regMap, program, front, rob, queues, sched, sb, lb, ints, fps, fills, fetched, retired)
    }

    function At(o: M.Obj): M.Uop
      reads this
      ensures At(o) == M.At(State(), o)
    {
      if o in objs then objs[o] else M.NOBODY
    }

    constructor (config: M.Config, frontLatency: nat, allocLatency: nat)
      requires config.robSize > 0
      ensures cfg == config && M.IsStart(cfg, State())
    {
      cfg := config;
      now, objs, regMap, program := 0, map[], map[], map[];
      front := Empty(frontLatency + 1);
      rob := R.Fresh(config.robSize);
      queues := [Empty(allocLatency + 1), Empty(allocLatency + 1), Empty(allocLatency + 1)];
      sched, fills, fetched, retired := [], multiset{}, [], [];
      sb, lb, ints, fps := config.sb, config.lb, config.ints, config.fps;
      new;
      FlatEmpty<M.Obj>(frontLatency + 1);
      FlatEmpty<nat>(allocLatency + 1);
    }

    /** `read_reg_map`. */
    method ReadRegMap(t: nat, regs: seq<M.Reg>) returns (ss: seq<M.Src>)
      ensures ss == M.ReadMap(regMap, t, regs)
    {
      ss := [];
      var i := 0;
      while i < |regs|
        invariant i <= |regs| && ss == M.ReadMap(regMap, t, regs[..i])
      {
        assert regs[..i + 1][..i] == regs[..i];
        ss := ss + [M.Lookup(regMap, t, regs[i])];
        i := i + 1;
      }
      assert regs[..i] == regs;
    }

    /** `update_map`. */
    method UpdateRegMap(t: nat, dests: seq<M.Reg>, s: M.Src)
      modifies this`regMap
      ensures regMap == M.UpdateMap(old(regMap), t, dests, s)
    {
      var i := 0;
      while i < |dests|
        invariant i <= |dests| && regMap == M.UpdateMap(old(regMap), t, dests[..i], s)
      {
        assert dests[..i + 1][..i] == dests[..i];
        regMap := regMap[(t, dests[i]) := s];
        i := i + 1;
      }
      assert dests[..i] == dests;
    }

    /** `map_uop` and the entry into the front-end queue: sources are read before the uop becomes the
        last writer of its destinations. */
    method FetchUop(o: M.Obj, t: nat, ins: M.Instr, kind: M.Kind, bogus: bool, extra: seq<M.Src>)
      requires front != []
      modifies this
      ensures State() == M.Fetch(old(State()), o, t, ins, kind, bogus, extra)
    {
      hide M.ReadMap;
      hide M.UpdateMap;
      hide Enqueue;
      ghost var d := M.Fetch(State(), o, t, ins, kind, bogus, extra);
      var prog := if t in program then program[t] else [];
      var num := |prog|;
      var ss := ReadRegMap(t, ins.srcs);
      UpdateRegMap(t, ins.dests, M.Src(Some(o), num));
      Enter(o, M.Uop(true, num, Some(t), 0, ss + extra, false, None, bogus, kind, 0, M.Fetched,
                     false, false, false, false), M.Name(t, num), prog + [ins]);
      assert objs == d.objs;
      assert program == d.program && regMap == d.regMap;
    }

    method Enter(o: M.Obj, u: M.Uop, name: M.Name, prog: seq<M.Instr>)
      requires front != []
      modifies this`objs, this`program, this`front, this`fetched
      ensures objs == old(objs)[o := u] && program == old(program)[name.thread := prog]
      ensures front == Enqueue(old(front), Item(0, o)) && fetched == old(fetched) + [name]
    {
      objs := objs[o := u];
      program := program[name.thread := prog];
      front := Enqueue(front, Item(0, o));
      fetched := fetched + [name];
    }

    /** `check_srcs`: the loop returns at the first source that is not ready. */
    method CheckSrcs(o: M.Obj) returns (ready: bool)
      modifies this`objs
      ensures (State(), ready) == M.CheckSrcs(old(State()), o)
    {
      var u := At(o);
      if u.srcsRdy { return true; }
      var i := 0;
      while i < |u.srcs|
        invariant i <= |u.srcs| && State() == old(State()) && M.FirstBlocking(State(), u, i).None?
      {
        var s := u.srcs[i];
        if s.obj.Some? {
          var src := At(s.obj.value);
          if src.valid && src.num == s.num && src.thread == u.thread && (src.done == 0 || now < src.done) {
            FirstBlocks(State(), u, i, |u.srcs|);
            if u.lastDep.None? || At(u.lastDep.value).done < src.done {
              objs := objs[o := u.(lastDep := Some(s.obj.value))];
            }
            return false;
          }
        }
        i := i + 1;
      }
      objs := objs[o := u.(srcsRdy := true)];
      return true;
    }

    /** `uop_schedule`, with the answers of the ports and of `exec`. */
    method UopSchedule(slot: nat, port: bool, out: M.Outcome) returns (reached: bool)
      modifies this
      ensures (State(), reached) == M.Schedule(old(State()), slot, port, out)
    {
      hide M.CheckSrcs;
      hide M.Drop;
      var o := if slot < |rob.cells| then rob.cells[slot] else 0;
      var u := At(o);
      if !u.bogus && !u.srcsRdy && u.lastDep.Some? && now < At(u.lastDep.value).done { return false; }
      if !u.bogus {
        var ready := CheckSrcs(o);
        if !ready || !port { return false; }
      }
      Execute(slot, out);
      return true;
    }

    /** `exec`: on success the uop leaves the scheduler. */
    method Execute(slot: nat, out: M.Outcome)
      modifies this
      ensures State() == M.Execute(old(State()), slot, out)
    {
      hide M.Drop;
      var o := if slot < |rob.cells| then rob.cells[slot] else 0;
      var u := At(o);
      match out {
        case Retry =>
        case Latency(n) => Finish(o, slot, u.(done := now + n, stage := M.Executed));
        case Miss =>
          Finish(o, slot, u.(stage := M.Executed));
          fills := fills + multiset{o};
        case Prefetch(n) =>
          Finish(o, slot, u.(done := now + n, stage := M.Executed));
          fills := fills + multiset{o};
      }
    }

    method Finish(o: M.Obj, slot: nat, u: M.Uop)
      modifies this`objs, this`sched
      ensures State() == M.Unlist(M.Put(old(State()), o, u), slot)
    {
      objs := objs[o := u];
      sched := M.Drop(sched, slot);
    }

    /** `schedule_c::advance`. */
    method Advance(q: nat, limit: nat)
      requires M.Shape(State()) && q < 3
      modifies this
      ensures State() == Moves(old(State()), q, limit)
    {
      hide M.Move;
      hide R.Valid;
      var n := 0;
      while n < limit && queues[q][0] != []
        invariant n <= limit && M.Shape(State())
        invariant Moves(State(), q, limit - n) == Moves(old(State()), q, limit)
        decreases limit - n
      {
        MoveShape(State(), q);
        MoveOne(q);
        n := n + 1;
      }
    }

    /** A bogus uop, and one with a done cycle, is finished without entering the scheduler. */
    method MoveOne(q: nat)
      requires M.Shape(State()) && q < 3 && Ready(queues[q])
      modifies this`objs, this`queues, this`sched
      ensures State() == M.Move(old(State()), q)
    {
      hide Dequeue;
      var slot := queues[q][0][0].data;
      var o := if slot < |rob.cells| then rob.cells[slot] else 0;
      var u := At(o);
      queues := queues[q := Dequeue(queues[q])];
      if u.bogus || u.done != 0 {
        objs := objs[o := u.(done := now, stage := M.Executed)];
      } else {
        objs := objs[o := u.(stage := M.InSched)];
        sched := sched + [slot];
      }
    }

    /** `dcu_c::done` of a request that points to object `o`. */
    method FillUop(o: M.Obj)
      modifies this`objs, this`fills
      ensures State() == M.Fill(old(State()), o)
    {
      objs := objs[o := At(o).(done := now + 1)];
      fills := fills - multiset{o};
    }

    /** `allocate_c::run_a_cycle`. */
    method AllocateCycle(width: nat)
      requires M.Shape(State())
      modifies this
      ensures State() == Allocates(cfg, old(State()), width)
    {
      hide M.Allocate;
      hide M.HasRoom;
      hide R.Valid;
      var n := 0;
      while n < width && M.CanAllocate(cfg, State0())
        invariant n <= width && M.Shape(State())
        invariant Allocates(cfg, State(), width - n) == Allocates(cfg, old(State()), width)
        decreases width - n
      {
        AllocateShape(cfg, State());
        AllocateOne();
        n := n + 1;
      }
    }

    function State0(): (c: M.Core)
      reads this
      ensures c == State()
    {
      M.Core(now, objs, regMap, program, front, rob, queues, sched, sb, lb, ints, fps, fills, fetched, retired)
    }

    /** One of the four resources is taken, and the uop marked with it. */
    method TakeResources(u: M.Uop) returns (v: M.Uop)
      modifies this`sb, this`lb, this`ints, this`fps
      ensures v == u.(reqSb := u.kind == M.Store || u.reqSb, reqLb := u.kind == M.Load || u.reqLb,
                      reqInt := u.kind == M.IntOp || u.reqInt, reqFp := u.kind == M.FpOp || u.reqFp)
      ensures sb == old(sb) - M.One(u.kind == M.Store) && lb == old(lb) - M.One(u.kind == M.Load)
      ensures ints == old(ints) - M.One(u.kind == M.IntOp) && fps == old(fps) - M.One(u.kind == M.FpOp)
    {
      v := u;
      if u.kind == M.Store { sb := sb - 1; v := v.(reqSb := true); }
      if u.kind == M.Load { lb := lb - 1; v := v.(reqLb := true); }
      if u.kind == M.IntOp { ints := ints - 1; v := v.(reqInt := true); }
      if u.kind == M.FpOp { fps := fps - 1; v := v.(reqFp := true); }
    }

    method AllocateOne()
      requires M.Shape(State()) && M.CanAllocate(cfg, State())
      modifies this
      ensures State() == M.Allocate(cfg, old(State()))
    {
      hide R.Push;
      hide R.Valid;
      hide Enqueue;
      hide Dequeue;
      hide M.HasRoom;
      hide M.QueueFor;
      hide M.One;
      ghost var d := M.Allocate(cfg, State());
      assert M.Shape(State()) && Ready(front);
      var o := front[0][0].data;
      var u := At(o);
      var q := M.QueueFor(cfg, u.kind);
      var longer := queues[q := Enqueue(queues[q], Item(0, rob.last))];
      var v := TakeResources(u);
      Place(o, v.(queue := q, stage := M.Queued), longer);
      assert objs == d.objs;
      assert sb == d.sb && lb == d.lb && ints == d.ints && fps == d.fps;
    }

    /** The uop goes from the front-end queue into the reorder buffer, its index into a queue. */
    method Place(o: M.Obj, v: M.Uop, longer: seq<Lanes<nat>>)
      requires Ready(front) && R.Valid(rob)
      modifies this`queues, this`objs, this`rob, this`front
      ensures queues == longer && objs == old(objs)[o := v]
      ensures rob == R.Push(old(rob), o) && front == Dequeue(old(front))
    {
      queues := longer;
      objs := objs[o := v];
      rob := R.Push(rob, o);
      front := Dequeue(front);
    }

    /** `retire_c::run_a_cycle` on the x86 path. */
    method RetireCycle(width: nat) returns (count: nat)
      requires M.Shape(State())
      modifies this
      ensures State() == Retires(old(State()), width)
      ensures StopsAt(old(State()), width, count) && R.Items(rob) == R.Items(old(rob))[count..]
    {
      hide M.Retire;
      hide R.Valid;
      count := 0;
      ghost var c := State();
      while count < width && M.CanRetire(State0())
        invariant count <= width && M.Shape(State())
        invariant Retires(State(), width - count) == Retires(c, width)
        invariant R.Valid(c.rob) && count <= |R.Items(c.rob)| && R.Items(rob) == R.Items(c.rob)[count..]
        decreases width - count
      {
        RetireShape(State());
        RetireFrame(State());
        RetireOne();
        count := count + 1;
      }
      ghost var k := RetiresSaid(c, width);
      assert |R.Items(c.rob)| - k == |R.Items(c.rob)| - count;
    }

    /** The uop is freed first; its resource flags are read afterwards. */
    method RetireOne()
      requires M.Shape(State()) && M.CanRetire(State())
      modifies this
      ensures State() == M.Retire(old(State()))
    {
      hide R.Pop;
      hide R.Valid;
      hide R.At;
      ghost var d := M.Retire(State());
      var o := R.Front(rob);
      var u := At(o);
      var freed := Vacate(o, u);
      ReturnResources(freed);
      assert objs == d.objs;
      assert sb == d.sb && lb == d.lb && ints == d.ints && fps == d.fps;
    }

    /** The oldest entry is popped and its object freed. */
    method Vacate(o: M.Obj, u: M.Uop) returns (freed: M.Uop)
      requires R.Valid(rob) && R.Entries(rob) > 0
      modifies this`rob, this`retired, this`objs
      ensures freed == u.(valid := false, num := 0, thread := None, stage := M.Pooled)
      ensures rob == R.Pop(old(rob)) && objs == old(objs)[o := freed]
      ensures retired == old(retired) + if u.thread.Some? then [M.Name(u.thread.value, u.num)] else []
    {
      rob := R.Pop(rob);
      if u.thread.Some? { retired := retired + [M.Name(u.thread.value, u.num)]; }
      freed := u.(valid := false, num := 0, thread := None, stage := M.Pooled);
      objs := objs[o := freed];
    }

    method ReturnResources(u: M.Uop)
      modifies this`sb, this`lb, this`ints, this`fps
      ensures sb == old(sb) + M.One(u.reqSb) && lb == old(lb) + M.One(u.reqLb)
      ensures ints == old(ints) + M.One(u.reqInt) && fps == old(fps) + M.One(u.reqFp)
    {
      if u.reqLb { lb := lb + 1; }
      if u.reqSb { sb := sb + 1; }
      if u.reqInt { ints := ints + 1; }
      if u.reqFp { fps := fps + 1; }
    }
  }

  /** The first blocking source is the first one the loop stops at. */
  lemma {:induction false} FirstBlocks(c: M.Core, u: M.Uop, i: nat, n: nat)
    requires i < n <= |u.srcs| && M.FirstBlocking(c, u, i).None? && M.Blocks(c, u.thread, u.srcs[i])
    ensures M.FirstBlocking(c, u, n) == Some(i)
  {
    if n > i + 1 { FirstBlocks(c, u, i, n - 1); }
  }
}
