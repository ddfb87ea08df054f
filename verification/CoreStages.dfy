/**
 Stages and queues of the core: kept by every step but a fill that finds a uop that has not executed.
 */
module CoreStages {
  import opened Options
  import opened PQueues
  import opened CoreModel
  import opened CoreInvariant
  import opened CorePlaces
  import R = Robs

  // ---------- from an alloc queue to the scheduler ----------

  lemma SameQueue(c: Core, d: Core, q: nat)
    requires Shape(c) && Shape(d) && q < 3 && QueueOk(c, q) && Flat(d.queues[q]) == Flat(c.queues[q])
    requires d.rob == c.rob
    requires forall k :: 0 <= k < R.Entries(c.rob) ==>
               var u, v := At(c, R.At(c.rob, k)), At(d, R.At(c.rob, k));
               (v.stage == Queued && v.queue == q) == (u.stage == Queued && u.queue == q)
    ensures QueueOk(d, q)
  {
    var xs := Datas(Flat(c.queues[q]));
    assert Datas(Flat(d.queues[q])) == xs;
    forall x | x in xs
      ensures exists k :: Names1(d, x, Queued, k) && InQueue(d, q, k)
    {
      var k :| Names1(c, x, Queued, k) && InQueue(c, q, k);
      assert Names1(d, x, Queued, k) && InQueue(d, q, k);
    }
    forall k | 0 <= k < R.Entries(d.rob) && InQueue(d, q, k)
      ensures R.Slot(d.rob, k) in xs
    {
      assert InQueue(c, q, k);
    }
  }

  lemma SameSched(c: Core, d: Core)
    requires R.Valid(c.rob) && SchedOk(c) && d.rob == c.rob && d.sched == c.sched
    requires forall k :: 0 <= k < R.Entries(c.rob) ==>
               (At(d, R.At(c.rob, k)).stage == InSched) == (At(c, R.At(c.rob, k)).stage == InSched)
    ensures SchedOk(d)
  {
    forall x | x in d.sched
      ensures exists k :: Names1(d, x, InSched, k)
    {
      var k :| Names1(c, x, InSched, k);
      assert Names1(d, x, InSched, k);
    }
  }

  /** The head of an alloc queue names a live entry waiting there. */
  lemma HeadEntry(c: Core, q: nat) returns (k: nat)
    requires Shape(c) && q < 3 && QueueOk(c, q) && Ready(c.queues[q])
    ensures var slot := c.queues[q][0][0].data;
            && Names1(c, slot, Queued, k) && InQueue(c, q, k) && Cell(c, slot) == R.At(c.rob, k)
            && Datas(Flat(c.queues[q])) == [slot] + Datas(Flat(Dequeue(c.queues[q])))
  {
    DequeueFifo(c.queues[q]);
    var slot := c.queues[q][0][0].data;
    assert Datas(Flat(c.queues[q])) == [slot] + Datas(Flat(Dequeue(c.queues[q])));
    assert slot in Datas(Flat(c.queues[q]));
    k :| Names1(c, slot, Queued, k) && InQueue(c, q, k);
    CellAt(c, k);
  }

  /** Entry `k` left queue `q`. */
  lemma QueueLeft(c: Core, d: Core, q: nat, k: nat)
    requires Shape(c) && Shape(d) && q < 3 && WindowOk(c) && QueueOk(c, q) && k < R.Entries(c.rob) && d.rob == c.rob
    requires Datas(Flat(c.queues[q])) == [R.Slot(c.rob, k)] + Datas(Flat(d.queues[q]))
    requires Level(Flat(d.queues[q]), 0)
    requires At(d, R.At(c.rob, k)).stage != Queued && forall x :: x != R.At(c.rob, k) ==> At(d, x) == At(c, x)
    ensures QueueOk(d, q)
  {
    var xs, ys := Datas(Flat(c.queues[q])), Datas(Flat(d.queues[q]));
    forall i, j | 0 <= i < j < |ys|
      ensures ys[i] != ys[j]
    {
      assert ys[i] == xs[i + 1] && ys[j] == xs[j + 1];
    }
    forall x | x in ys
      ensures exists m :: Names1(d, x, Queued, m) && InQueue(d, q, m)
    {
      var i :| 0 <= i < |ys| && ys[i] == x;
      assert xs[i + 1] == x && xs[0] != x;
      assert x in xs;
      var m: nat :| Names1(c, x, Queued, m) && InQueue(c, q, m);
      RobDistinct(c, m, k);
      assert Names1(d, x, Queued, m) && InQueue(d, q, m);
    }
    forall m | 0 <= m < R.Entries(d.rob) && InQueue(d, q, m)
      ensures R.Slot(d.rob, m) in ys
    {
      assert m != k;
      RobDistinct(c, m, k);
      assert InQueue(c, q, m);
      R.SlotsDiffer(c.rob, m, k);
    }
  }

  lemma QueueElsewhere(c: Core, d: Core, q: nat, k: nat)
    requires Shape(c) && Shape(d) && q < 3 && WindowOk(c) && QueueOk(c, q) && k < R.Entries(c.rob) && d.rob == c.rob
    requires Flat(d.queues[q]) == Flat(c.queues[q])
    requires !InQueue(c, q, k) && !(At(d, R.At(c.rob, k)).stage == Queued && At(d, R.At(c.rob, k)).queue == q)
    requires forall x :: x != R.At(c.rob, k) ==> At(d, x) == At(c, x)
    ensures QueueOk(d, q)
  {
    SameQueue(c, d, q);
  }

  /** Entry `k` entered the scheduler. */
  lemma SchedJoined(c: Core, d: Core, k: nat)
    requires R.Valid(c.rob) && WindowOk(c) && SchedOk(c) && k < R.Entries(c.rob) && d.rob == c.rob
    requires At(c, R.At(c.rob, k)).stage != InSched && At(d, R.At(c.rob, k)).stage == InSched
    requires d.sched == c.sched + [R.Slot(c.rob, k)] && forall x :: x != R.At(c.rob, k) ==> At(d, x) == At(c, x)
    ensures SchedOk(d)
  {
    forall x | x in c.sched
      ensures x != R.Slot(c.rob, k) && exists m :: Names1(d, x, InSched, m)
    {
      var m: nat :| Names1(c, x, InSched, m);
      assert m != k;
      RobDistinct(c, m, k);
      R.SlotsDiffer(c.rob, m, k);
      assert Names1(d, x, InSched, m);
    }
    assert Names1(d, R.Slot(c.rob, k), InSched, k);
    forall i, j | 0 <= i < j < |d.sched|
      ensures d.sched[i] != d.sched[j]
    {
      assert c.sched[i] in c.sched;
    }
    forall x | x in d.sched
      ensures exists m :: Names1(d, x, InSched, m)
    {
      assert x in c.sched || x == R.Slot(c.rob, k);
    }
    forall m | 0 <= m < R.Entries(d.rob) && At(d, R.At(d.rob, m)).stage == InSched
      ensures R.Slot(d.rob, m) in d.sched
    {
      if m != k { RobDistinct(c, m, k); }
    }
  }

  lemma {:induction false} DropIn(xs: seq<nat>, x: nat)
    ensures forall y :: y in Drop(xs, x) <==> y in xs && y != x
    ensures Distinct(xs) ==> Distinct(Drop(xs, x))
  {
    if xs != [] {
      var n := |xs| - 1;
      DropIn(xs[..n], x);
      assert xs == xs[..n] + [xs[n]];
      assert Distinct(xs) ==> xs[n] !in xs[..n];
    }
  }

  /** Entry `k` left the scheduler. */
  lemma SchedLeft(c: Core, d: Core, k: nat)
    requires R.Valid(c.rob) && WindowOk(c) && SchedOk(c) && k < R.Entries(c.rob) && d.rob == c.rob
    requires At(d, R.At(c.rob, k)).stage != InSched
    requires d.sched == Drop(c.sched, R.Slot(c.rob, k)) && forall x :: x != R.At(c.rob, k) ==> At(d, x) == At(c, x)
    ensures SchedOk(d)
  {
    DropIn(c.sched, R.Slot(c.rob, k));
    forall x | x in d.sched
      ensures exists m :: Names1(d, x, InSched, m)
    {
      var m: nat :| Names1(c, x, InSched, m);
      assert m != k;
      RobDistinct(c, m, k);
      assert Names1(d, x, InSched, m);
    }
    forall m | 0 <= m < R.Entries(d.rob) && At(d, R.At(d.rob, m)).stage == InSched
      ensures R.Slot(d.rob, m) in d.sched
    {
      assert m != k;
      RobDistinct(c, m, k);
      R.SlotsDiffer(c.rob, m, k);
    }
  }

  /** A stage change of a reorder-buffer entry to one that the buffer allows. */
  lemma StageMoves(c: Core, d: Core, k: nat)
    requires R.Valid(c.rob) && WindowOk(c) && StagesOk(c) && k < R.Entries(c.rob)
    requires Updated(c, d, R.At(c.rob, k)) && SameHolder(At(c, R.At(c.rob, k)), At(d, R.At(c.rob, k)))
    requires At(d, R.At(c.rob, k)).stage in {InSched, Executed} && StageOk(At(d, R.At(c.rob, k)))
    ensures StagesOk(d)
  {
    var o := R.At(c.rob, k);
    RobLive(c, k);
    forall x | x in Datas(Flat(d.front))
      ensures At(d, x).stage == Fetched
    {
      FrontNotRob(c, x, k);
    }
    forall x | LiveObj(d, x)
      ensures StageOk(d.objs[x])
    {
      if x != o {
        assert At(d, x) == At(c, x);
        assert LiveObj(c, x);
      }
    }
  }

  lemma MoveQueues(c: Core, q: nat, k: nat)
    requires Shape(c) && WindowOk(c) && q < 3 && Ready(c.queues[q]) && forall p :: 0 <= p < 3 ==> QueueOk(c, p)
    requires k < R.Entries(c.rob) && InQueue(c, q, k) && Cell(c, c.queues[q][0][0].data) == R.At(c.rob, k)
    requires Datas(Flat(c.queues[q])) == [R.Slot(c.rob, k)] + Datas(Flat(Dequeue(c.queues[q])))
    ensures Shape(Move(c, q)) && forall p :: 0 <= p < 3 ==> QueueOk(Move(c, q), p)
  {
    hide QueueOk;
    hide WindowOk;
    hide Flat;
    hide Move;
    hide Dequeue;
    var d := Move(c, q);
    MoveFrame(c, q, k);
    QueueLevel(c, q);
    LevelTail(c, q);
    forall p | 0 <= p < 3
      ensures QueueOk(d, p)
    {
      assert QueueOk(c, p);
      if p == q { QueueLeft(c, d, q, k); } else { QueueElsewhere(c, d, p, k); }
    }
  }

  lemma MoveFrame(c: Core, q: nat, k: nat)
    requires Shape(c) && q < 3 && Ready(c.queues[q]) && k < R.Entries(c.rob) && InQueue(c, q, k)
    requires Cell(c, c.queues[q][0][0].data) == R.At(c.rob, k)
    ensures var d := Move(c, q);
            && Shape(d) && d.rob == c.rob && d.queues[q] == Dequeue(c.queues[q])
            && (forall p :: 0 <= p < 3 && p != q ==> d.queues[p] == c.queues[p])
            && At(d, R.At(c.rob, k)).stage != Queued && forall x :: x != R.At(c.rob, k) ==> At(d, x) == At(c, x)
  {
  }

  lemma QueueLevel(c: Core, q: nat)
    requires Shape(c) && q < 3 && QueueOk(c, q)
    ensures Level(Flat(c.queues[q]), 0)
  {
  }

  lemma QueuedNotDone(c: Core, q: nat, k: nat)
    requires R.Valid(c.rob) && WindowOk(c) && StagesOk(c) && k < R.Entries(c.rob) && InQueue(c, q, k)
    ensures LiveObj(c, R.At(c.rob, k)) && At(c, R.At(c.rob, k)).done == 0
  {
    RobLive(c, k);
  }

  lemma SchedSame(c: Core, d: Core, k: nat)
    requires R.Valid(c.rob) && SchedOk(c) && k < R.Entries(c.rob) && d.rob == c.rob && d.sched == c.sched
    requires At(c, R.At(c.rob, k)).stage != InSched && At(d, R.At(c.rob, k)).stage != InSched
    requires forall x :: x != R.At(c.rob, k) ==> At(d, x) == At(c, x)
    ensures SchedOk(d)
  {
    SameSched(c, d);
  }

  lemma MoveEffect(c: Core, q: nat, o: Obj)
    requires Shape(c) && q < 3 && Ready(c.queues[q]) && Cell(c, c.queues[q][0][0].data) == o && At(c, o).done == 0
    ensures var d := Move(c, q);
            && At(d, o).stage == (if At(c, o).bogus then Executed else InSched) && StageOk(At(d, o))
            && d.sched == c.sched + if At(c, o).bogus then [] else [c.queues[q][0][0].data]
  {
  }

  lemma MoveStages(c: Core, q: nat)
    requires Staged(c) && q < 3 && Ready(c.queues[q])
    ensures var d := Move(c, q); StagesOk(d) && (forall p :: 0 <= p < 3 ==> QueueOk(d, p)) && SchedOk(d)
  {
    hide WindowOk;
    hide StagesOk;
    hide QueueOk;
    hide SchedOk;
    hide Move;
    hide Flat;
    var k := HeadEntry(c, q);
    var o, d := R.At(c.rob, k), Move(c, q);
    QueuedNotDone(c, q, k);
    MoveUpdates(c, q);
    MoveEffect(c, q, o);
    MoveQueues(c, q, k);
    StageMoves(c, d, k);
    if At(c, o).bogus { SchedSame(c, d, k); } else { SchedJoined(c, d, k); }
  }

  // ---------- scheduling ----------

  /** A listed index names a live entry in the scheduler. */
  lemma ListedEntry(c: Core, slot: nat) returns (k: nat)
    requires R.Valid(c.rob) && WindowOk(c) && StagesOk(c) && SchedOk(c) && slot in c.sched
    ensures Names1(c, slot, InSched, k) && Cell(c, slot) == R.At(c.rob, k)
    ensures LiveObj(c, Cell(c, slot)) && At(c, Cell(c, slot)).done == 0
  {
    k :| Names1(c, slot, InSched, k);
    CellAt(c, k);
    RobLive(c, k);
  }

  lemma QueuesUntouched(c: Core, d: Core, k: nat)
    requires Shape(c) && Shape(d) && k < R.Entries(c.rob) && d.rob == c.rob && d.queues == c.queues
    requires forall q :: 0 <= q < 3 ==> QueueOk(c, q)
    requires At(c, R.At(c.rob, k)).stage != Queued && At(d, R.At(c.rob, k)).stage != Queued
    requires forall x :: x != R.At(c.rob, k) ==> At(d, x) == At(c, x)
    ensures forall q :: 0 <= q < 3 ==> QueueOk(d, q)
  {
    forall q | 0 <= q < 3
      ensures QueueOk(d, q)
    {
      SameQueue(c, d, q);
    }
  }

  /** The check and a failed execution move nothing. */
  lemma SameStages(c: Core, d: Core, o: Obj)
    requires Staged(c) && Updated(c, d, o) && SameHolder(At(c, o), At(d, o))
    requires At(d, o).stage == At(c, o).stage && At(d, o).done == At(c, o).done && At(d, o).queue == At(c, o).queue
    requires d.queues == c.queues && d.sched == c.sched && Shape(d)
    ensures Staged(d)
  {
    hide QueueOk;
    hide SchedOk;
    SameWindow(c, d, o);
    forall q | 0 <= q < 3
      ensures QueueOk(d, q)
    {
      SameQueue(c, d, q);
    }
    SameSched(c, d);
  }

  lemma SameWindow(c: Core, d: Core, o: Obj)
    requires Shape(c) && Shape(d) && WindowOk(c) && StagesOk(c) && Updated(c, d, o) && SameHolder(At(c, o), At(d, o))
    requires At(d, o).stage == At(c, o).stage && At(d, o).done == At(c, o).done && At(d, o).queue == At(c, o).queue
    ensures WindowOk(d) && StagesOk(d)
  {
    assert Window(d) == Window(c);
    forall x
      ensures (LiveObj(d, x) <==> LiveObj(c, x)) && At(d, x).stage == At(c, x).stage
    {
    }
  }

  lemma ExecuteEffect(c: Core, slot: nat, out: Outcome)
    requires !out.Retry?
    ensures var o, d := Cell(c, slot), Execute(c, slot, out);
            At(d, o).stage == Executed && d.sched == Drop(c.sched, slot)
  {
    hide Drop;
  }

  /** Execution: the uop leaves the scheduler. */
  lemma ExecuteStages(c: Core, slot: nat, out: Outcome)
    requires Staged(c) && slot in c.sched
    ensures var d := Execute(c, slot, out); StagesOk(d) && (forall p :: 0 <= p < 3 ==> QueueOk(d, p)) && SchedOk(d)
  {
    hide WindowOk;
    hide StagesOk;
    hide QueueOk;
    hide SchedOk;
    var k := ListedEntry(c, slot);
    hide Execute;
    var d := Execute(c, slot, out);
    if !out.Retry? {
      ExecuteUpdates(c, slot, out);
      ExecuteEffect(c, slot, out);
      StageMoves(c, d, k);
      QueuesUntouched(c, d, k);
      SchedLeft(c, d, k);
    } else {
      ExecuteRetries(c, slot);
    }
  }

  lemma ExecuteRetries(c: Core, slot: nat)
    ensures Execute(c, slot, Retry) == c
  {
  }

  lemma ScheduleStages(c: Core, slot: nat, port: bool, out: Outcome)
    requires Staged(c) && slot in c.sched
    ensures var d := Schedule(c, slot, port, out).0; StagesOk(d) && Shape(d) && (forall p :: 0 <= p < 3 ==> QueueOk(d, p)) && SchedOk(d)
  {
    var o := Cell(c, slot);
    var b := CheckSrcs(c, o).0;
    CheckUpdates(c, o);
    ExecuteUpdates(c, slot, out);
    ExecuteUpdates(b, slot, out);
    SameStages(c, b, o);
    ExecuteStages(c, slot, out);
    ExecuteStages(b, slot, out);
    hide CheckSrcs;
    hide Execute;
    hide StagesOk;
    hide QueueOk;
    hide SchedOk;
  }

  // ---------- fills ----------

  /** Executed uops are in the reorder buffer. */
  lemma ExecutedEntry(c: Core, o: Obj) returns (k: nat)
    requires R.Valid(c.rob) && WindowOk(c) && StagesOk(c) && At(c, o).valid && At(c, o).stage == Executed
    ensures k < R.Entries(c.rob) && R.At(c.rob, k) == o && LiveObj(c, o)
  {
    assert o in R.Items(c.rob) + Datas(Flat(c.front));
    assert o in R.Items(c.rob);
    var i :| 0 <= i < |R.Items(c.rob)| && R.Items(c.rob)[i] == o;
    k := i;
    RobLive(c, k);
  }

  lemma FillStages(c: Core, o: Obj)
    requires Staged(c) && HitOf(c, o) != Waiting
    ensures var d := Fill(c, o); StagesOk(d) && (forall p :: 0 <= p < 3 ==> QueueOk(d, p)) && SchedOk(d)
  {
    var d := Fill(c, o);
    FillUpdates(c, o);
    hide QueueOk;
    hide SchedOk;
    if At(c, o).valid {
      var k := ExecutedEntry(c, o);
      hide WindowOk;
      hide StagesOk;
      StageMoves(c, d, k);
      QueuesUntouched(c, d, k);
      SameSched(c, d);
    } else {
      forall q | 0 <= q < 3
        ensures QueueOk(d, q)
      {
        SameQueue(c, d, q);
      }
      SameSched(c, d);
      PooledStages(c, o);
    }
  }

  lemma FillUpdates(c: Core, o: Obj)
    ensures var d := Fill(c, o); Updated(c, d, o) && At(d, o) == At(c, o).(done := c.now + 1)
    ensures forall x :: At(Fill(c, o), x).stage == At(c, x).stage && At(Fill(c, o), x).queue == At(c, x).queue
  {
  }

  lemma PooledStages(c: Core, o: Obj)
    requires R.Valid(c.rob) && StagesOk(c) && !At(c, o).valid
    ensures StagesOk(Fill(c, o))
  {
    FillUpdates(c, o);
  }

  // ---------- retirement ----------

  lemma PoppedQueue(c: Core, d: Core, o: Obj, q: nat)
    requires Shape(c) && Shape(d) && R.Entries(c.rob) > 0 && Popped(c, d, o) && WindowOk(c) && q < 3 && QueueOk(c, q)
    requires At(c, o).stage == Executed && At(d, o).stage == Pooled
    ensures QueueOk(d, q)
  {
    var xs := Datas(Flat(c.queues[q]));
    assert Datas(Flat(d.queues[q])) == xs;
    forall x | x in xs
      ensures exists k :: Names1(d, x, Queued, k) && InQueue(d, q, k)
    {
      var k: nat :| Names1(c, x, Queued, k) && InQueue(c, q, k);
      assert k > 0;
      RobDistinct(c, 0, k);
      assert Names1(d, x, Queued, k - 1) && InQueue(d, q, k - 1);
    }
    forall k | 0 <= k < R.Entries(d.rob) && InQueue(d, q, k)
      ensures R.Slot(d.rob, k) in xs
    {
      RobDistinct(c, 0, k + 1);
      assert InQueue(c, q, k + 1);
    }
  }

  lemma PoppedSched(c: Core, d: Core, o: Obj)
    requires R.Valid(c.rob) && R.Entries(c.rob) > 0 && R.Valid(d.rob) && Popped(c, d, o) && WindowOk(c) && SchedOk(c)
    requires At(c, o).stage == Executed && At(d, o).stage == Pooled
    ensures SchedOk(d)
  {
    forall x | x in d.sched
      ensures exists k :: Names1(d, x, InSched, k)
    {
      var k: nat :| Names1(c, x, InSched, k);
      assert k > 0;
      RobDistinct(c, 0, k);
      assert Names1(d, x, InSched, k - 1);
    }
    forall k | 0 <= k < R.Entries(d.rob) && At(d, R.At(d.rob, k)).stage == InSched
      ensures R.Slot(d.rob, k) in d.sched
    {
      RobDistinct(c, 0, k + 1);
    }
  }

  lemma PoppedStages(c: Core, d: Core, o: Obj)
    requires R.Valid(c.rob) && R.Entries(c.rob) > 0 && R.Valid(d.rob) && Popped(c, d, o) && WindowOk(c) && StagesOk(c)
    ensures StagesOk(d)
  {
    hide WindowOk;
    hide StageOk;
    hide Flat;
    hide Datas;
    forall x | x in R.Items(d.rob)
      ensures At(d, x).stage in {Queued, InSched, Executed}
    {
      var k :| 0 <= k < |R.Items(d.rob)| && R.Items(d.rob)[k] == x;
      assert R.Items(c.rob)[k + 1] == x;
      RobDistinct(c, 0, k + 1);
      assert x in R.Items(c.rob) && At(d, x) == At(c, x);
    }
    forall x | x in Datas(Flat(d.front))
      ensures At(d, x).stage == Fetched
    {
      FrontNotRob(c, x, 0);
      assert At(d, x) == At(c, x);
    }
    forall x | LiveObj(d, x)
      ensures StageOk(d.objs[x])
    {
      assert At(d, x) == At(c, x) && LiveObj(c, x);
    }
  }

  lemma RetireStages(c: Core)
    requires Staged(c) && CanRetire(c)
    ensures var d := Retire(c);
            Shape(d) && StagesOk(d) && (forall p :: 0 <= p < 3 ==> QueueOk(d, p)) && SchedOk(d)
    ensures At(c, R.At(c.rob, 0)).stage == Executed
  {
    var d, o := Retire(c), R.At(c.rob, 0);
    RobLive(c, 0);
    assert StageOk(c.objs[o]);
    hide WindowOk;
    hide StagesOk;
    hide QueueOk;
    hide SchedOk;
    RetirePops(c);
    PoppedStages(c, d, o);
    PoppedSched(c, d, o);
    forall q | 0 <= q < 3
      ensures QueueOk(d, q)
    {
      PoppedQueue(c, d, o, q);
    }
  }

  // ---------- allocation ----------

  lemma EnteredQueue(c: Core, d: Core, o: Obj, q: nat)
    requires Shape(c) && Shape(d) && q < 3 && Entered(c, d, o, q) && WindowOk(c) && QueueOk(c, q)
    ensures QueueOk(d, q)
  {
    EnteredNew(c, d, o, q);
    var n := R.Entries(c.rob);
    var slot := R.Slot(c.rob, n);
    var xs, ys := Datas(Flat(c.queues[q])), Datas(Flat(d.queues[q]));
    assert ys == xs + [slot];
    forall x | x in xs
      ensures x != slot && exists k :: Names1(d, x, Queued, k) && InQueue(d, q, k)
    {
      var k: nat :| Names1(c, x, Queued, k) && InQueue(c, q, k);
      R.SlotsDiffer(c.rob, k, n);
      assert Names1(d, x, Queued, k) && InQueue(d, q, k);
    }
    assert Names1(d, slot, Queued, n) && InQueue(d, q, n);
    forall i, j | 0 <= i < j < |ys|
      ensures ys[i] != ys[j]
    {
      assert xs[i] in xs;
    }
    forall k | 0 <= k < R.Entries(d.rob) && InQueue(d, q, k)
      ensures R.Slot(d.rob, k) in ys
    {
      if k < n { assert InQueue(c, q, k); }
    }
  }

  lemma EnteredElsewhere(c: Core, d: Core, o: Obj, q: nat, p: nat)
    requires Shape(c) && Shape(d) && q < 3 && Entered(c, d, o, q) && WindowOk(c) && p < 3 && p != q && QueueOk(c, p)
    ensures QueueOk(d, p)
  {
    EnteredNew(c, d, o, q);
    var xs := Datas(Flat(c.queues[p]));
    forall x | x in xs
      ensures exists k :: Names1(d, x, Queued, k) && InQueue(d, p, k)
    {
      var k: nat :| Names1(c, x, Queued, k) && InQueue(c, p, k);
      assert Names1(d, x, Queued, k) && InQueue(d, p, k);
    }
    forall k | 0 <= k < R.Entries(d.rob) && InQueue(d, p, k)
      ensures R.Slot(d.rob, k) in xs
    {
      assert InQueue(c, p, k);
    }
  }

  lemma EnteredSched(c: Core, d: Core, o: Obj, q: nat)
    requires Shape(c) && Shape(d) && q < 3 && Entered(c, d, o, q) && WindowOk(c) && SchedOk(c)
    ensures SchedOk(d)
  {
    EnteredNew(c, d, o, q);
    forall x | x in d.sched
      ensures exists k :: Names1(d, x, InSched, k)
    {
      var k: nat :| Names1(c, x, InSched, k);
      assert Names1(d, x, InSched, k);
    }
  }

  lemma EnteredStages(c: Core, d: Core, o: Obj, q: nat)
    requires Shape(c) && Shape(d) && q < 3 && Entered(c, d, o, q) && WindowOk(c) && StagesOk(c)
    ensures StagesOk(d)
  {
    assert o in Datas(Flat(c.front));
    assert o in Window(c);
    forall x | x in Datas(Flat(d.front))
      ensures At(d, x).stage == Fetched
    {
      FrontTail(c, d, o, x);
    }
    forall x | x in R.Items(d.rob)
      ensures At(d, x).stage in {Queued, InSched, Executed}
    {
      assert x in R.Items(c.rob) || x == o;
    }
    forall x | LiveObj(d, x)
      ensures StageOk(d.objs[x])
    {
      if x != o { assert At(d, x) == At(c, x) && LiveObj(c, x); }
    }
  }

  lemma AllocateStages(cfg: Config, c: Core)
    requires Staged(c) && CanAllocate(cfg, c)
    ensures var d := Allocate(cfg, c);
            Shape(d) && StagesOk(d) && (forall p :: 0 <= p < 3 ==> QueueOk(d, p)) && SchedOk(d)
  {
    var o, d := c.front[0][0].data, Allocate(cfg, c);
    var q := QueueFor(cfg, At(c, o).kind);
    forall p | 0 <= p < 3
      ensures Level(Flat(c.queues[p]), 0)
    {
      assert QueueOk(c, p);
    }
    hide WindowOk;
    hide StagesOk;
    hide QueueOk;
    hide SchedOk;
    HeadLive(c);
    AllocateEnters(cfg, c);
    hide Allocate;
    hide Flat;
    EnteredStages(c, d, o, q);
    EnteredSched(c, d, o, q);
    forall p | 0 <= p < 3
      ensures QueueOk(d, p)
    {
      if p == q { EnteredQueue(c, d, o, q); } else { EnteredElsewhere(c, d, o, q, p); }
    }
  }

  // ---------- fetch ----------

  lemma JoinedStages(c: Core, d: Core, o: Obj, t: nat)
    requires Shape(c) && Shape(d) && Joined(c, d, o, t) && StagesOk(c) && WindowOk(c)
    ensures StagesOk(d)
  {
    assert Datas(Flat(d.front)) == Datas(Flat(c.front)) + [o];
    assert o !in Window(c);
    forall x | x in R.Items(d.rob)
      ensures At(d, x).stage in {Queued, InSched, Executed}
    {
      assert x in Window(c);
    }
    forall x | x in Datas(Flat(d.front))
      ensures At(d, x).stage == Fetched
    {
      if x != o { assert x in Datas(Flat(c.front)); }
    }
    forall x | LiveObj(d, x)
      ensures StageOk(d.objs[x])
    {
      if x != o { assert At(d, x) == At(c, x) && LiveObj(c, x); }
    }
  }

  lemma JoinedQueues(c: Core, d: Core, o: Obj, t: nat)
    requires Shape(c) && Shape(d) && Joined(c, d, o, t) && WindowOk(c) && SchedOk(c)
    requires forall q :: 0 <= q < 3 ==> QueueOk(c, q)
    ensures SchedOk(d) && forall q :: 0 <= q < 3 ==> QueueOk(d, q)
  {
    forall k | 0 <= k < R.Entries(c.rob)
      ensures At(d, R.At(c.rob, k)) == At(c, R.At(c.rob, k))
    {
      RobUntouched(c, d, o, t, k);
    }
    SameSched(c, d);
    forall q | 0 <= q < 3
      ensures QueueOk(d, q)
    {
      SameQueue(c, d, q);
    }
  }

  lemma FetchStages(c: Core, o: Obj, t: nat, ins: Instr, kind: Kind, bogus: bool, extra: seq<Src>)
    requires Staged(c) && !At(c, o).valid
    ensures var d := Fetch(c, o, t, ins, kind, bogus, extra);
            Shape(d) && StagesOk(d) && (forall p :: 0 <= p < 3 ==> QueueOk(d, p)) && SchedOk(d)
  {
    hide WindowOk;
    hide StagesOk;
    hide QueueOk;
    hide SchedOk;
    hide Fetch;
    var d := Fetch(c, o, t, ins, kind, bogus, extra);
    FetchJoins(c, o, t, ins, kind, bogus, extra);
    JoinedStages(c, d, o, t);
    JoinedQueues(c, d, o, t);
  }

  // ---------- all steps ----------

  /** Aging and the clock. */
  lemma AgedStages(c: Core, d: Core)
    requires Staged(c) && d.objs == c.objs && d.rob == c.rob && d.sched == c.sched
    requires Shape(d) && Flat(d.front) == Flat(c.front) && forall q :: 0 <= q < 3 ==> Flat(d.queues[q]) == Flat(c.queues[q])
    ensures StagesOk(d) && (forall p :: 0 <= p < 3 ==> QueueOk(d, p)) && SchedOk(d)
  {
    hide QueueOk;
    hide SchedOk;
    hide Flat;
    forall q | 0 <= q < 3
      ensures QueueOk(d, q)
    {
      SameQueue(c, d, q);
    }
    SameSched(c, d);
  }

  lemma AgesStages(c: Core, q: nat)
    requires Staged(c) && q < 3
    ensures forall d :: d in {c.(front := Advance(c.front)), c.(queues := c.queues[q := Advance(c.queues[q])]), c.(now := c.now + 1)}
              ==> Shape(d) && StagesOk(d) && (forall p :: 0 <= p < 3 ==> QueueOk(d, p)) && SchedOk(d)
  {
    StagedShape(c);
    hide Staged;
    hide StagesOk;
    hide QueueOk;
    hide SchedOk;
    hide Flat;
    AdvanceFifo(c.front);
    AdvanceFifo(c.queues[q]);
    AgedStages(c, c.(front := Advance(c.front)));
    AgedStages(c, c.(queues := c.queues[q := Advance(c.queues[q])]));
    AgedStages(c, c.(now := c.now + 1));
  }

  lemma StagedShape(c: Core)
    requires Staged(c)
    ensures Shape(c)
  {
  }

  lemma ExecStages(cfg: Config, c: Core, op: Op)
    requires Staged(c) && OpOk(cfg, c, op) && (op.DoFill? ==> HitOf(c, op.o) != Waiting)
    ensures var d := Exec(cfg, c, op); Shape(d) && StagesOk(d) && (forall p :: 0 <= p < 3 ==> QueueOk(d, p)) && SchedOk(d)
  {
    StagedShape(c);
    hide Staged;
    hide StagesOk;
    hide QueueOk;
    hide SchedOk;
    match op
    case DoFetch(o, t, ins, kind, bogus, extra) => FetchStages(c, o, t, ins, kind, bogus, extra);
    case DoAllocate => AllocateStages(cfg, c);
    case AgeFront => AgesStages(c, 0);
    case AgeQueue(q) => AgesStages(c, q);
    case DoMove(q) => MoveStages(c, q); MoveUpdates(c, q);
    case DoSchedule(slot, port, out) => ScheduleStages(c, slot, port, out);
    case DoFill(o) => FillStages(c, o);
    case DoRetire => RetireStages(c);
    case Tick => AgesStages(c, 0);
  }

  lemma ExecKeepsStages(cfg: Config, c: Core, op: Op)
    requires Places(cfg, c) && Staged(c) && OpOk(cfg, c, op) && (op.DoFill? ==> HitOf(c, op.o) != Waiting)
    ensures Staged(Exec(cfg, c, op))
  {
    ExecPlaces(cfg, c, op);
    ExecStages(cfg, c, op);
    hide WindowOk;
    hide StagesOk;
    hide QueueOk;
    hide SchedOk;
    hide Exec;
  }

  lemma StartStages(cfg: Config, c: Core)
    requires IsStart(cfg, c)
    ensures Staged(c)
  {
    assert Window(c) == [];
    forall q | 0 <= q < 3
      ensures QueueOk(c, q)
    {
      assert Datas(Flat(c.queues[q])) == [];
    }
  }

  lemma {:induction false} RunStages(cfg: Config, states: seq<Core>, ops: seq<Op>, hits: set<Hit>, i: nat)
    requires IsRun(cfg, states, ops) && FillsHit(states, ops, hits) && Waiting !in hits && i < |states|
    ensures Staged(states[i])
  {
    hide Staged;
    if i == 0 {
      StartStages(cfg, states[0]);
    } else {
      RunStages(cfg, states, ops, hits, i - 1);
      RunPlaces(cfg, states, ops, i - 1);
      ExecKeepsStages(cfg, states[i - 1], ops[i - 1]);
    }
  }
}
