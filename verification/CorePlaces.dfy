/**
 Places, order and resources of the core: what every step keeps, whatever uop a fill finds.
 */
module CorePlaces {
  import opened Options
  import opened PQueues
  import opened CoreModel
  import opened CoreInvariant
  import R = Robs

  // ---------- updates of one object ----------

  /** The parts of a uop that places, names and resources depend on. */
  predicate SameHolder(u: Uop, v: Uop) {
    && v.valid == u.valid && v.thread == u.thread && v.num == u.num
    && v.reqLb == u.reqLb && v.reqSb == u.reqSb && v.reqInt == u.reqInt && v.reqFp == u.reqFp
  }

  /** `d` is `c` with object `o` updated, and queues, scheduler list and clock as they may be. */
  ghost predicate Updated(c: Core, d: Core, o: Obj) {
    && d.rob == c.rob && d.front == c.front && d.fetched == c.fetched && d.retired == c.retired
    && d.sb == c.sb && d.lb == c.lb && d.ints == c.ints && d.fps == c.fps
    && d.program == c.program && d.regMap == c.regMap
    && (forall x :: x != o ==> (x in d.objs <==> x in c.objs) && At(d, x) == At(c, x))
  }

  lemma {:induction false} UsersSame(c: Core, d: Core, xs: seq<Obj>, x: Resource)
    requires forall o :: o in xs ==> Uses(At(d, o), x) == Uses(At(c, o), x)
    ensures Users(d, xs, x) == Users(c, xs, x)
  {
    if xs != [] { UsersSame(c, d, xs[..|xs|-1], x); }
  }

  lemma UpdatedPlaces(cfg: Config, c: Core, d: Core, o: Obj)
    requires R.Valid(c.rob) && WindowOk(c) && OrderOk(c) && ResourcesOk(cfg, c) && FrontFree(c)
    requires Updated(c, d, o) && SameHolder(At(c, o), At(d, o))
    ensures WindowOk(d) && OrderOk(d) && ResourcesOk(cfg, d) && FrontFree(d)
  {
    assert Window(d) == Window(c);
    forall x
      ensures SameHolder(At(c, x), At(d, x)) && (LiveObj(d, x) <==> LiveObj(c, x))
    {
    }
    assert Names(d, Window(d)) == Names(c, Window(c));
    forall x
      ensures Available(d, x) + Users(d, R.Items(d.rob), x) == Total(cfg, x) && Available(d, x) >= 0
    {
      UsersSame(c, d, R.Items(c.rob), x);
      assert Available(c, x) >= 0 && Available(c, x) + Users(c, R.Items(c.rob), x) == Total(cfg, x);
    }
  }

  /** An update of one object that leaves the queues level. */
  lemma UpdateKeeps(cfg: Config, c: Core, d: Core, o: Obj)
    requires Places(cfg, c) && Updated(c, d, o) && SameHolder(At(c, o), At(d, o)) && |d.queues| == 3
    requires forall q :: 0 <= q < 3 ==> d.queues[q] != [] && Level(Flat(d.queues[q]), 0)
    ensures Places(cfg, d)
  {
    UpdatedPlaces(cfg, c, d, o);
    hide WindowOk;
    hide OrderOk;
    hide ResourcesOk;
    hide FrontFree;
    hide Level;
  }

  /** The entries of the reorder buffer hold different objects. */
  lemma RobDistinct(c: Core, j: nat, k: nat)
    requires R.Valid(c.rob) && WindowOk(c) && j < R.Entries(c.rob) && k < R.Entries(c.rob) && j != k
    ensures R.At(c.rob, j) != R.At(c.rob, k)
  {
    var w := Window(c);
    assert w[j] == R.At(c.rob, j) && w[k] == R.At(c.rob, k);
    if j < k { assert w[j] != w[k]; } else { assert w[k] != w[j]; }
  }

  lemma RobLive(c: Core, k: nat)
    requires R.Valid(c.rob) && WindowOk(c) && k < R.Entries(c.rob)
    ensures LiveObj(c, R.At(c.rob, k)) && R.At(c.rob, k) in R.Items(c.rob)
  {
    assert Window(c)[k] == R.At(c.rob, k);
    assert R.Items(c.rob)[k] == R.At(c.rob, k);
    assert R.At(c.rob, k) in Window(c);
  }

  /** The object of a live entry is found at its index. */
  lemma CellAt(c: Core, k: nat)
    requires R.Valid(c.rob) && k < R.Entries(c.rob)
    ensures Cell(c, R.Slot(c.rob, k)) == R.At(c.rob, k)
  {
  }

  lemma FrontNotRob(c: Core, x: Obj, k: nat)
    requires R.Valid(c.rob) && WindowOk(c) && k < R.Entries(c.rob) && x in Datas(Flat(c.front))
    ensures x != R.At(c.rob, k)
  {
    var w, f := Window(c), Datas(Flat(c.front));
    var i :| 0 <= i < |f| && f[i] == x;
    assert w[k] == R.At(c.rob, k) && w[|R.Items(c.rob)| + i] == x;
  }

  // ---------- the clock and aging ----------

  lemma AgedPlaces(cfg: Config, c: Core, d: Core)
    requires R.Valid(c.rob) && WindowOk(c) && OrderOk(c) && FrontFree(c) && ResourcesOk(cfg, c)
    requires d.objs == c.objs && d.program == c.program && d.retired == c.retired && d.fetched == c.fetched
    requires d.rob == c.rob && Flat(d.front) == Flat(c.front)
    requires d.sb == c.sb && d.lb == c.lb && d.ints == c.ints && d.fps == c.fps
    ensures WindowOk(d) && OrderOk(d) && FrontFree(d) && ResourcesOk(cfg, d)
  {
    assert Window(d) == Window(c);
    assert Names(d, Window(d)) == Names(c, Window(c));
    forall x
      ensures Available(d, x) + Users(d, R.Items(d.rob), x) == Total(cfg, x) && Available(d, x) >= 0
    {
      UsersSame(c, d, R.Items(c.rob), x);
      assert Available(c, x) >= 0 && Available(c, x) + Users(c, R.Items(c.rob), x) == Total(cfg, x);
    }
  }

  lemma AgeKeeps(cfg: Config, c: Core, d: Core)
    requires Places(cfg, c) && d.objs == c.objs && d.program == c.program && d.retired == c.retired
    requires d.fetched == c.fetched && d.rob == c.rob && d.sb == c.sb && d.lb == c.lb && d.ints == c.ints && d.fps == c.fps
    requires Shape(d) && Flat(d.front) == Flat(c.front) && forall q :: 0 <= q < 3 ==> Flat(d.queues[q]) == Flat(c.queues[q])
    ensures Places(cfg, d)
  {
    AgedPlaces(cfg, c, d);
    hide WindowOk;
    hide OrderOk;
    hide ResourcesOk;
    hide FrontFree;
    hide Level;
    hide Flat;
  }

  lemma AgesKeep(cfg: Config, c: Core, q: nat)
    requires Places(cfg, c) && q < 3
    ensures Places(cfg, c.(front := Advance(c.front)))
    ensures Places(cfg, c.(queues := c.queues[q := Advance(c.queues[q])]))
    ensures Places(cfg, c.(now := c.now + 1))
  {
    PlacesShape(cfg, c);
    hide Places;
    hide Flat;
    AdvanceFifo(c.front);
    AdvanceFifo(c.queues[q]);
    AgeKeeps(cfg, c, c.(front := Advance(c.front)));
    AgeKeeps(cfg, c, c.(queues := c.queues[q := Advance(c.queues[q])]));
    AgeKeeps(cfg, c, c.(now := c.now + 1));
  }

  lemma PlacesShape(cfg: Config, c: Core)
    requires Places(cfg, c)
    ensures Shape(c)
  {
  }

  // ---------- scheduling and fills ----------

  lemma LevelTail(c: Core, q: nat)
    requires Shape(c) && q < 3 && Level(Flat(c.queues[q]), 0) && Ready(c.queues[q])
    ensures Level(Flat(Dequeue(c.queues[q])), 0)
  {
    DequeueFifo(c.queues[q]);
    var xs, ys := Flat(c.queues[q]), Flat(Dequeue(c.queues[q]));
    forall i | 0 <= i < |ys|
      ensures ys[i].priority == 0
    {
      assert ys[i] == xs[i + 1];
    }
  }

  lemma MovePlaces(cfg: Config, c: Core, q: nat)
    requires Places(cfg, c) && q < 3 && Ready(c.queues[q])
    ensures Places(cfg, Move(c, q))
  {
    LevelTail(c, q);
    var o, d := Cell(c, c.queues[q][0][0].data), Move(c, q);
    MoveUpdates(c, q);
    UpdateKeeps(cfg, c, d, o);
  }

  lemma MoveUpdates(c: Core, q: nat)
    requires Shape(c) && q < 3 && Ready(c.queues[q])
    ensures var o, d := Cell(c, c.queues[q][0][0].data), Move(c, q);
            Updated(c, d, o) && SameHolder(At(c, o), At(d, o)) && Shape(d) && d.queues == c.queues[q := Dequeue(c.queues[q])]
  {
    hide Dequeue;
    hide R.Valid;
  }

  lemma CheckUpdates(c: Core, o: Obj)
    ensures var d := CheckSrcs(c, o).0;
            && d == c.(objs := d.objs) && (forall x :: x != o ==> (x in d.objs <==> x in c.objs) && At(d, x) == At(c, x))
            && At(d, o) == At(c, o).(srcsRdy := At(d, o).srcsRdy, lastDep := At(d, o).lastDep)
  {
    hide FirstBlocking;
    hide Put;
    var u := At(c, o);
    if !u.srcsRdy {
      var f := FirstBlocking(c, u, |u.srcs|);
      if f.None? { PutOnly(c, o, u.(srcsRdy := true)); }
      else { PutOnly(c, o, u.(lastDep := Some(u.srcs[f.value].obj.value))); }
    }
  }

  lemma PutOnly(c: Core, o: Obj, v: Uop)
    ensures var d := Put(c, o, v);
            d == c.(objs := d.objs) && At(d, o) == v && forall x :: x != o ==> (x in d.objs <==> x in c.objs) && At(d, x) == At(c, x)
  {
  }

  lemma ExecuteUpdates(c: Core, slot: nat, out: Outcome)
    ensures var o, d := Cell(c, slot), Execute(c, slot, out);
            && d == c.(objs := d.objs, sched := d.sched, fills := d.fills)
            && (forall x :: x != o ==> (x in d.objs <==> x in c.objs) && At(d, x) == At(c, x))
            && At(d, o) == At(c, o).(stage := At(d, o).stage, done := At(d, o).done)
  {
    hide Drop;
  }

  lemma ScheduleUpdates(c: Core, slot: nat, port: bool, out: Outcome)
    ensures var o, d := Cell(c, slot), Schedule(c, slot, port, out).0;
            && d == c.(objs := d.objs, sched := d.sched, fills := d.fills)
            && (forall x :: x != o ==> (x in d.objs <==> x in c.objs) && At(d, x) == At(c, x))
            && SameHolder(At(c, o), At(d, o))
  {
    var o := Cell(c, slot);
    var b := CheckSrcs(c, o).0;
    CheckUpdates(c, o);
    ExecuteUpdates(c, slot, out);
    ExecuteUpdates(b, slot, out);
    hide CheckSrcs;
    hide Execute;
    assert Cell(b, slot) == o;
  }

  lemma SchedulePlaces(cfg: Config, c: Core, slot: nat, port: bool, out: Outcome)
    requires Places(cfg, c)
    ensures Places(cfg, Schedule(c, slot, port, out).0)
  {
    ScheduleUpdates(c, slot, port, out);
    hide Schedule;
    UpdateKeeps(cfg, c, Schedule(c, slot, port, out).0, Cell(c, slot));
  }

  lemma FillPlaces(cfg: Config, c: Core, o: Obj)
    requires Places(cfg, c)
    ensures Places(cfg, Fill(c, o))
  {
    UpdateKeeps(cfg, c, Fill(c, o), o);
  }

  // ---------- retirement ----------

  /** What retirement does to the oldest entry, and to the numbering of the others. */
  ghost predicate Popped(c: Core, d: Core, o: Obj)
    requires R.Valid(c.rob) && R.Entries(c.rob) > 0 && R.Valid(d.rob)
  {
    && o == R.At(c.rob, 0) && R.Items(d.rob) == R.Items(c.rob)[1..]
    && (forall k :: 0 <= k < R.Entries(d.rob) ==> R.Slot(d.rob, k) == R.Slot(c.rob, k + 1) && R.At(d.rob, k) == R.At(c.rob, k + 1))
    && d.front == c.front && d.queues == c.queues && d.sched == c.sched && d.fetched == c.fetched
    && d.program == c.program && d.regMap == c.regMap && d.now == c.now
    && (forall x :: x != o ==> (x in d.objs <==> x in c.objs) && At(d, x) == At(c, x)) && !At(d, o).valid
    && d.retired == c.retired + [NameOf(At(c, o))]
  }

  lemma RetirePops(c: Core)
    requires R.Valid(c.rob) && R.Entries(c.rob) > 0 && LiveObj(c, R.At(c.rob, 0))
    ensures R.Valid(Retire(c).rob) && Popped(c, Retire(c), R.At(c.rob, 0))
  {
    R.PopDrops(c.rob);
    var d := Retire(c);
    forall k | 0 <= k < R.Entries(d.rob)
      ensures R.At(d.rob, k) == R.At(c.rob, k + 1)
    {
      assert R.Items(d.rob)[k] == R.Items(c.rob)[k + 1];
    }
  }

  lemma PoppedSplit(c: Core, d: Core, o: Obj)
    requires R.Valid(c.rob) && R.Entries(c.rob) > 0 && R.Valid(d.rob) && Popped(c, d, o)
    ensures Window(c) == [o] + Window(d)
  {
    assert R.Items(c.rob) == [R.Items(c.rob)[0]] + R.Items(c.rob)[1..];
  }

  lemma PoppedDistinct(c: Core, d: Core, o: Obj)
    requires R.Valid(c.rob) && R.Entries(c.rob) > 0 && R.Valid(d.rob) && Popped(c, d, o) && WindowOk(c)
    requires Window(c) == [o] + Window(d)
    ensures WindowOk(d) && o !in Window(d)
  {
    var w, v := Window(c), Window(d);
    forall i | 0 <= i < |v|
      ensures v[i] == w[i + 1] && v[i] != o
    {
      assert w[0] != w[i + 1];
    }
    forall i, j | 0 <= i < j < |v|
      ensures v[i] != v[j]
    {
      assert w[i + 1] != w[j + 1];
    }
    forall x | x in v
      ensures LiveObj(d, x)
    {
      assert x in w && At(d, x) == At(c, x);
    }
    forall x | At(d, x).valid
      ensures x in v
    {
      assert At(c, x).valid && x in w;
    }
  }

  lemma PoppedOrder(c: Core, d: Core, o: Obj)
    requires R.Valid(c.rob) && R.Entries(c.rob) > 0 && R.Valid(d.rob) && Popped(c, d, o) && OrderOk(c)
    requires Window(c) == [o] + Window(d) && o !in Window(d)
    ensures OrderOk(d)
  {
    hide OrderOk;
    hide Window;
    var v := Window(d);
    forall x | x in v
      ensures At(d, x) == At(c, x)
    {
    }
    assert d.fetched == c.fetched && d.program == c.program && d.retired == c.retired + [NameOf(At(c, o))];
    hide Popped;
    NamesTail(c, d, o, v);
    OrderShift(c, d, o);
  }

  lemma OrderShift(c: Core, d: Core, o: Obj)
    requires R.Valid(c.rob) && R.Valid(d.rob) && OrderOk(c)
    requires d.fetched == c.fetched && d.program == c.program && d.retired == c.retired + [NameOf(At(c, o))]
    requires Names(c, Window(c)) == [NameOf(At(c, o))] + Names(d, Window(d))
    ensures OrderOk(d)
  {
    hide Window;
    assert c.retired + ([NameOf(At(c, o))] + Names(d, Window(d))) == (c.retired + [NameOf(At(c, o))]) + Names(d, Window(d));
  }

  lemma NamesTail(c: Core, d: Core, o: Obj, v: seq<Obj>)
    requires forall x :: x in v ==> At(d, x) == At(c, x)
    ensures Names(c, [o] + v) == [NameOf(At(c, o))] + Names(d, v)
  {
    var w := [o] + v;
    forall i | 0 <= i < |w|
      ensures Names(c, w)[i] == ([NameOf(At(c, o))] + Names(d, v))[i]
    {
      if i > 0 { assert v[i - 1] in v; }
    }
  }

  lemma PoppedWindow(c: Core, d: Core, o: Obj)
    requires R.Valid(c.rob) && R.Entries(c.rob) > 0 && R.Valid(d.rob) && Popped(c, d, o) && WindowOk(c) && OrderOk(c)
    ensures WindowOk(d) && OrderOk(d)
  {
    hide WindowOk;
    hide OrderOk;
    PoppedSplit(c, d, o);
    PoppedDistinct(c, d, o);
    PoppedOrder(c, d, o);
  }

  lemma {:induction false} UsersHead(c: Core, xs: seq<Obj>, x: Resource)
    requires xs != []
    ensures Users(c, xs, x) == One(Uses(At(c, xs[0]), x)) + Users(c, xs[1..], x)
  {
    var n := |xs| - 1;
    if n > 0 {
      UsersHead(c, xs[..n], x);
      assert xs[1..][..n - 1] == xs[..n][1..];
    }
  }

  lemma RetireResources(cfg: Config, c: Core)
    requires Shape(c) && R.Entries(c.rob) > 0 && WindowOk(c) && ResourcesOk(cfg, c) && LiveObj(c, R.At(c.rob, 0))
    ensures R.Valid(Retire(c).rob) && ResourcesOk(cfg, Retire(c))
  {
    RetirePops(c);
    hide WindowOk;
    hide Retire;
    var d := Retire(c);
    var xs := R.Items(c.rob);
    forall x
      ensures Available(d, x) + Users(d, R.Items(d.rob), x) == Total(cfg, x) && Available(d, x) >= 0
    {
      assert Available(c, x) >= 0 && Available(c, x) + Users(c, xs, x) == Total(cfg, x);
      UsersHead(c, xs, x);
      RetireOthers(c);
      UsersSame(c, d, xs[1..], x);
      RetireReturns(c, x);
    }
  }

  /** Retirement gives back what the uop's flags name. */
  lemma RetireReturns(c: Core, x: Resource)
    requires R.Valid(c.rob) && R.Entries(c.rob) > 0
    ensures Available(Retire(c), x) == Available(c, x) + One(Uses(At(c, R.At(c.rob, 0)), x))
  {
  }

  lemma RetireOthers(c: Core)
    requires R.Valid(c.rob) && R.Entries(c.rob) > 0 && WindowOk(c)
    ensures forall y :: y in R.Items(c.rob)[1..] ==> At(Retire(c), y) == At(c, y)
  {
    var xs := R.Items(c.rob);
    forall y | y in xs[1..]
      ensures At(Retire(c), y) == At(c, y)
    {
      var k :| 0 <= k < |xs| - 1 && xs[1..][k] == y;
      RobDistinct(c, 0, k + 1);
    }
  }

  lemma PoppedFree(c: Core, d: Core, o: Obj)
    requires R.Valid(c.rob) && R.Entries(c.rob) > 0 && R.Valid(d.rob) && Popped(c, d, o) && WindowOk(c) && FrontFree(c)
    ensures FrontFree(d)
  {
    forall x | x in Datas(Flat(d.front))
      ensures At(d, x) == At(c, x)
    {
      FrontNotRob(c, x, 0);
    }
  }

  lemma RetirePlaces(cfg: Config, c: Core)
    requires Places(cfg, c) && R.Entries(c.rob) > 0
    ensures Places(cfg, Retire(c))
  {
    var d, o := Retire(c), R.At(c.rob, 0);
    RobLive(c, 0);
    hide WindowOk;
    hide OrderOk;
    hide ResourcesOk;
    hide FrontFree;
    hide Level;
    RetirePops(c);
    RetireResources(cfg, c);
    PoppedWindow(c, d, o);
    PoppedFree(c, d, o);
  }

  // ---------- allocation ----------

  /** What allocation does: the front-end head becomes the youngest reorder-buffer entry. */
  ghost predicate Entered(c: Core, d: Core, o: Obj, q: nat)
    requires Shape(c) && Shape(d) && q < 3
  {
    && R.Items(d.rob) == R.Items(c.rob) + [o] && R.Entries(c.rob) < |c.rob.cells|
    && (forall k: nat :: R.Slot(d.rob, k) == R.Slot(c.rob, k))
    && (forall k :: 0 <= k < R.Entries(c.rob) ==> R.At(d.rob, k) == R.At(c.rob, k))
    && R.At(d.rob, R.Entries(c.rob)) == o
    && Datas(Flat(c.front)) == [o] + Datas(Flat(d.front))
    && Flat(d.queues[q]) == Flat(c.queues[q]) + [Item(0, R.Slot(c.rob, R.Entries(c.rob)))]
    && (forall p :: 0 <= p < 3 && p != q ==> d.queues[p] == c.queues[p])
    && d.sched == c.sched && d.fetched == c.fetched && d.retired == c.retired
    && d.program == c.program
    && d.objs.Keys == c.objs.Keys && (forall x :: x != o ==> At(d, x) == At(c, x))
    && At(d, o).stage == Queued && At(d, o).queue == q
    && At(d, o).valid == At(c, o).valid && At(d, o).thread == At(c, o).thread && At(d, o).num == At(c, o).num
    && At(d, o).done == At(c, o).done
  }

  lemma AllocateEnters(cfg: Config, c: Core)
    requires Shape(c) && CanAllocate(cfg, c) && LiveObj(c, c.front[0][0].data)
    requires forall q :: 0 <= q < 3 ==> Level(Flat(c.queues[q]), 0)
    ensures var o := c.front[0][0].data; var d := Allocate(cfg, c);
            Shape(d) && Entered(c, d, o, QueueFor(cfg, At(c, o).kind))
  {
    var o, d := c.front[0][0].data, Allocate(cfg, c);
    var q := QueueFor(cfg, At(c, o).kind);
    R.PushAppends(c.rob, o);
    DequeueFifo(c.front);
    assert Flat(c.front)[0] == c.front[0][0];
    assert Datas(Flat(c.front)) == [o] + Datas(Flat(d.front));
    EnqueueFifo(c.queues[q], Item(0, c.rob.last));
    forall k | 0 <= k < R.Entries(c.rob)
      ensures R.At(d.rob, k) == R.At(c.rob, k)
    {
      assert R.Items(d.rob)[k] == R.Items(c.rob)[k];
    }
    assert R.Items(d.rob)[R.Entries(c.rob)] == o;
  }

  lemma EnteredWindow(c: Core, d: Core, o: Obj, q: nat)
    requires Shape(c) && Shape(d) && q < 3 && Entered(c, d, o, q) && WindowOk(c) && OrderOk(c)
    requires Level(Flat(d.front), 0)
    ensures WindowOk(d) && OrderOk(d)
  {
    hide Enqueue;
    hide R.Slot;
    assert Window(d) == Window(c);
    forall x
      ensures At(d, x).valid == At(c, x).valid && NameOf(At(d, x)) == NameOf(At(c, x)) && (LiveObj(d, x) <==> LiveObj(c, x))
    {
    }
    assert Names(d, Window(d)) == Names(c, Window(c));
  }

  lemma EnteredNew(c: Core, d: Core, o: Obj, q: nat)
    requires Shape(c) && Shape(d) && q < 3 && Entered(c, d, o, q) && WindowOk(c)
    ensures forall k :: 0 <= k < R.Entries(c.rob) ==> R.At(c.rob, k) != o
    ensures R.Entries(d.rob) == R.Entries(c.rob) + 1
  {
    assert |R.Items(d.rob)| == |R.Items(c.rob)| + 1;
    assert o in Datas(Flat(c.front));
    forall k | 0 <= k < R.Entries(c.rob)
      ensures R.At(c.rob, k) != o
    {
      FrontNotRob(c, o, k);
    }
  }

  lemma FrontTail(c: Core, d: Core, o: Obj, x: Obj)
    requires R.Valid(c.rob) && WindowOk(c) && Datas(Flat(c.front)) == [o] + Datas(Flat(d.front)) && x in Datas(Flat(d.front))
    ensures x != o && x in Datas(Flat(c.front))
  {
    var f, g, w, n := Datas(Flat(c.front)), Datas(Flat(d.front)), Window(c), |R.Items(c.rob)|;
    var i :| 0 <= i < |g| && g[i] == x;
    assert f[i + 1] == x && w[n] == o && w[n + i + 1] == x;
  }

  lemma UsersPush(c: Core, xs: seq<Obj>, o: Obj, x: Resource)
    ensures Users(c, xs + [o], x) == Users(c, xs, x) + One(Uses(At(c, o), x))
  {
    assert (xs + [o])[..|xs|] == xs;
  }

  lemma HeadLive(c: Core)
    requires R.Valid(c.rob) && WindowOk(c) && Ready(c.front)
    ensures var o := c.front[0][0].data;
            LiveObj(c, o) && o in Datas(Flat(c.front))
  {
    DequeueFifo(c.front);
    var o := c.front[0][0].data;
    assert Flat(c.front)[0].data == o && Datas(Flat(c.front))[0] == o;
    assert o in Datas(Flat(c.front));
    assert o in Window(c);
  }

  /** Allocation takes what the uop needs and marks it. */
  lemma AllocateTakes(cfg: Config, c: Core, x: Resource)
    requires Shape(c) && CanAllocate(cfg, c) && WindowOk(c) && FrontFree(c) && Available(c, x) >= 0
    ensures var o := c.front[0][0].data; var d := Allocate(cfg, c);
            Available(d, x) == Available(c, x) - One(Uses(At(d, o), x)) && Available(d, x) >= 0
  {
    HeadLive(c);
  }

  lemma AllocateResources(cfg: Config, c: Core, d: Core, o: Obj, q: nat)
    requires Shape(c) && CanAllocate(cfg, c) && WindowOk(c) && FrontFree(c) && ResourcesOk(cfg, c)
    requires d == Allocate(cfg, c) && o == c.front[0][0].data && Shape(d) && q < 3 && Entered(c, d, o, q)
    ensures ResourcesOk(cfg, d)
  {
    hide Allocate;
    hide CanAllocate;
    EnteredNew(c, d, o, q);
    hide WindowOk;
    hide FrontFree;
    var xs := R.Items(c.rob);
    forall y | y in xs
      ensures At(d, y) == At(c, y)
    {
      var k :| 0 <= k < |xs| && xs[k] == y;
      assert R.At(c.rob, k) != o;
    }
    assert R.Items(d.rob) == xs + [o];
    hide Entered;
    forall x
      ensures Available(d, x) + Users(d, R.Items(d.rob), x) == Total(cfg, x) && Available(d, x) >= 0
    {
      assert Available(c, x) >= 0 && Available(c, x) + Users(c, xs, x) == Total(cfg, x);
      UsersPush(d, xs, o, x);
      UsersSame(c, d, xs, x);
      AllocateTakes(cfg, c, x);
    }
  }

  lemma FrontLevel(c: Core)
    requires R.Valid(c.rob) && WindowOk(c) && Ready(c.front)
    ensures Level(Flat(Dequeue(c.front)), 0)
  {
    DequeueFifo(c.front);
    var xs, ys := Flat(c.front), Flat(Dequeue(c.front));
    forall i | 0 <= i < |ys|
      ensures ys[i].priority == 0
    {
      assert ys[i] == xs[i + 1];
    }
  }

  lemma EnteredFree(c: Core, d: Core, o: Obj, q: nat)
    requires Shape(c) && Shape(d) && q < 3 && Entered(c, d, o, q) && WindowOk(c) && FrontFree(c)
    ensures FrontFree(d)
  {
    forall x | x in Datas(Flat(d.front))
      ensures x in Datas(Flat(c.front)) && At(d, x) == At(c, x)
    {
      FrontTail(c, d, o, x);
    }
  }

  lemma AllocatePlaces(cfg: Config, c: Core)
    requires Places(cfg, c) && CanAllocate(cfg, c)
    ensures Places(cfg, Allocate(cfg, c))
  {
    var o, d := c.front[0][0].data, Allocate(cfg, c);
    var q := QueueFor(cfg, At(c, o).kind);
    hide WindowOk;
    hide OrderOk;
    hide ResourcesOk;
    hide FrontFree;
    HeadLive(c);
    FrontLevel(c);
    assert d.front == Dequeue(c.front);
    AllocateEnters(cfg, c);
    AllocateResources(cfg, c, d, o, q);
    hide Allocate;
    hide Flat;
    EnteredWindow(c, d, o, q);
    EnteredFree(c, d, o, q);
    EnteredLevel(c, d, o, q);
  }

  lemma EnteredLevel(c: Core, d: Core, o: Obj, q: nat)
    requires Shape(c) && Shape(d) && q < 3 && Entered(c, d, o, q) && forall p :: 0 <= p < 3 ==> Level(Flat(c.queues[p]), 0)
    ensures forall p :: 0 <= p < 3 ==> Level(Flat(d.queues[p]), 0)
  {
    hide Flat;
  }

  // ---------- fetch ----------

  /** What fetch does: a pooled object becomes the youngest uop in flight. */
  ghost predicate Joined(c: Core, d: Core, o: Obj, t: nat)
    requires Shape(c) && Shape(d)
  {
    && !At(c, o).valid && LiveObj(d, o) && d.objs[o].thread == Some(t) && d.objs[o].num == |Program(c, t)|
    && d.objs[o].stage == Fetched && StageOk(d.objs[o])
    && !At(d, o).reqLb && !At(d, o).reqSb && !At(d, o).reqInt && !At(d, o).reqFp
    && (forall x :: x != o ==> (x in d.objs <==> x in c.objs) && At(d, x) == At(c, x))
    && Flat(d.front) == Flat(c.front) + [Item(0, o)]
    && d.rob == c.rob && d.queues == c.queues && d.sched == c.sched && d.retired == c.retired
    && d.sb == c.sb && d.lb == c.lb && d.ints == c.ints && d.fps == c.fps
    && d.fetched == c.fetched + [Name(t, |Program(c, t)|)]
    && (forall x: nat :: |Program(d, x)| == |Program(c, x)| + if x == t then 1 else 0)
  }

  lemma FetchJoins(c: Core, o: Obj, t: nat, ins: Instr, kind: Kind, bogus: bool, extra: seq<Src>)
    requires Shape(c) && WindowOk(c) && !At(c, o).valid
    ensures var d := Fetch(c, o, t, ins, kind, bogus, extra); Shape(d) && Joined(c, d, o, t)
  {
    EnqueueFifo(c.front, Item(0, o));
  }

  lemma JoinedWindow(c: Core, d: Core, o: Obj, t: nat)
    requires Shape(c) && Shape(d) && Joined(c, d, o, t) && WindowOk(c)
    ensures WindowOk(d) && Window(d) == Window(c) + [o] && o !in Window(c)
  {
    assert Datas(Flat(d.front)) == Datas(Flat(c.front)) + [o];
    assert Window(d) == Window(c) + [o];
    assert o !in Window(c);
    forall x | At(d, x).valid
      ensures x in Window(d)
    {
      if x != o { assert At(c, x).valid; }
    }
    forall x | x in Window(d)
      ensures LiveObj(d, x)
    {
      if x != o { assert x in Window(c) && LiveObj(c, x) && At(d, x) == At(c, x); }
    }
    forall i, j | 0 <= i < j < |Window(d)|
      ensures Window(d)[i] != Window(d)[j]
    {
      assert Window(c)[i] in Window(c);
    }
  }

  lemma JoinedOrder(c: Core, d: Core, o: Obj, t: nat)
    requires Shape(c) && Shape(d) && Joined(c, d, o, t) && OrderOk(c)
    requires Window(d) == Window(c) + [o] && o !in Window(c)
    ensures OrderOk(d)
  {
    var w := Window(c);
    forall i | 0 <= i < |w|
      ensures Names(d, Window(d))[i] == Names(c, w)[i]
    {
      assert w[i] in w;
    }
    assert Names(d, Window(d)) == Names(c, w) + [Name(t, |Program(c, t)|)];
    assert d.retired + (Names(c, w) + [Name(t, |Program(c, t)|)]) == c.fetched + [Name(t, |Program(c, t)|)];
    forall i, j | 0 <= i < j < |d.fetched| && d.fetched[i].thread == d.fetched[j].thread
      ensures d.fetched[i].num < d.fetched[j].num
    {
      assert c.fetched[i] in c.fetched;
    }
    forall n | n in d.fetched
      ensures n.num < |Program(d, n.thread)|
    {
      assert n in c.fetched || n == Name(t, |Program(c, t)|);
    }
  }

  lemma RobUntouched(c: Core, d: Core, o: Obj, t: nat, k: nat)
    requires Shape(c) && Shape(d) && Joined(c, d, o, t) && WindowOk(c) && k < R.Entries(c.rob)
    ensures At(d, R.At(c.rob, k)) == At(c, R.At(c.rob, k))
  {
    RobLive(c, k);
  }

  lemma JoinedResources(cfg: Config, c: Core, d: Core, o: Obj, t: nat)
    requires Shape(c) && Shape(d) && Joined(c, d, o, t) && WindowOk(c) && ResourcesOk(cfg, c) && FrontFree(c)
    ensures ResourcesOk(cfg, d) && FrontFree(d)
  {
    var xs := R.Items(c.rob);
    forall y | y in xs
      ensures At(d, y) == At(c, y)
    {
      var k :| 0 <= k < |xs| && xs[k] == y;
      RobUntouched(c, d, o, t, k);
    }
    forall x
      ensures Available(d, x) + Users(d, R.Items(d.rob), x) == Total(cfg, x) && Available(d, x) >= 0
    {
      assert Available(c, x) >= 0 && Available(c, x) + Users(c, xs, x) == Total(cfg, x);
      UsersSame(c, d, xs, x);
    }
    assert Datas(Flat(d.front)) == Datas(Flat(c.front)) + [o];
  }

  lemma FetchPlaces(cfg: Config, c: Core, o: Obj, t: nat, ins: Instr, kind: Kind, bogus: bool, extra: seq<Src>)
    requires Places(cfg, c) && !At(c, o).valid
    ensures Places(cfg, Fetch(c, o, t, ins, kind, bogus, extra))
  {
    hide WindowOk;
    hide OrderOk;
    hide ResourcesOk;
    hide FrontFree;
    hide Fetch;
    var d := Fetch(c, o, t, ins, kind, bogus, extra);
    FetchJoins(c, o, t, ins, kind, bogus, extra);
    JoinedWindow(c, d, o, t);
    JoinedOrder(c, d, o, t);
    JoinedResources(cfg, c, d, o, t);
  }

  // ---------- all steps ----------

  lemma ExecPlaces(cfg: Config, c: Core, op: Op)
    requires Places(cfg, c) && OpOk(cfg, c, op)
    ensures Places(cfg, Exec(cfg, c, op))
  {
    PlacesShape(cfg, c);
    hide Places;
    match op
    case DoFetch(o, t, ins, kind, bogus, extra) => FetchPlaces(cfg, c, o, t, ins, kind, bogus, extra);
    case DoAllocate => AllocatePlaces(cfg, c);
    case AgeFront => AgesKeep(cfg, c, 0);
    case AgeQueue(q) => AgesKeep(cfg, c, q);
    case DoMove(q) => MovePlaces(cfg, c, q);
    case DoSchedule(slot, port, out) => SchedulePlaces(cfg, c, slot, port, out);
    case DoFill(o) => FillPlaces(cfg, c, o);
    case DoRetire => RetirePlaces(cfg, c);
    case Tick => AgesKeep(cfg, c, 0);
  }

  lemma StartPlaces(cfg: Config, c: Core)
    requires IsStart(cfg, c)
    ensures Places(cfg, c)
  {
    assert Window(c) == [];
    forall x
      ensures Available(c, x) + Users(c, R.Items(c.rob), x) == Total(cfg, x) && Available(c, x) >= 0
    {
    }
  }

  lemma {:induction false} RunPlaces(cfg: Config, states: seq<Core>, ops: seq<Op>, i: nat)
    requires IsRun(cfg, states, ops) && i < |states|
    ensures Places(cfg, states[i])
  {
    hide Places;
    if i == 0 {
      StartPlaces(cfg, states[0]);
    } else {
      RunPlaces(cfg, states, ops, i - 1);
      ExecPlaces(cfg, states[i - 1], ops[i - 1]);
    }
  }
}
