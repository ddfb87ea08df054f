/**
 Bounded service in one channel of the DRAM controller. The command and data arbiters are
 oldest-timestamp-first and a bank's timestamp is refreshed only when it enters DRAM_CMD, so a
 waiting bank is overtaken at most once by each other bank of its channel.
 */
module DramTiming {
  import opened DramModel
  import opened Options
  import opened DramRuns
  import opened DramLift
  import opened DramConservation

  // ---------- finite sets of bank indices ----------

  lemma {:induction false} IndexSetBound(a: set<nat>, n: nat)
    requires forall i :: i in a ==> i < n
    ensures |a| <= n
  {
    if n > 0 {
      IndexSetBound(a - {n - 1}, n - 1);
      if n - 1 in a { assert a == (a - {n - 1}) + {n - 1}; } else { assert a == a - {n - 1}; }
    } else {
      assert a == {};
    }
  }

  /** All of `a` lies below `n`, and one index below `n` is missing. */
  lemma IndexSetWithout(a: set<nat>, n: nat, j: nat)
    requires j < n && j !in a
    requires forall i :: i in a ==> i < n
    ensures |a| <= n - 1
  {
    IndexSetBound(a + {j}, n);
    assert |a + {j}| == |a| + 1;
  }

  lemma SubsetSize(a: set<nat>, b: set<nat>)
    requires a <= b
    ensures |a| <= |b|
    decreases |a|
  {
    if a != {} {
      var x :| x in a;
      SubsetSize(a - {x}, b - {x});
    }
  }

  // ---------- who is ahead of a bank ----------

  /** Arbitration order: smaller timestamp, then smaller index. */
  predicate Older(bs: seq<Bank>, i: nat, j: nat)
    requires i < |bs| && j < |bs|
  {
    bs[i].timestamp < bs[j].timestamp || (bs[i].timestamp == bs[j].timestamp && i < j)
  }

  predicate InPhase(b: Bank, p: Phase) {
    b.current.Some? && b.current.value.state == p
  }

  /** The bank has a request that has not been granted the data bus. */
  predicate Pending(b: Bank) {
    InPhase(b, Cmd) || InPhase(b, CmdWait) || InPhase(b, Data)
  }

  function AheadCmd(bs: seq<Bank>, j: nat): (a: set<nat>)
    requires j < |bs|
    ensures |a| <= |bs| - 1
  {
    var a := set i: nat | i < |bs| && i != j && InPhase(bs[i], Cmd) && Older(bs, i, j);
    IndexSetWithout(a, |bs|, j);
    a
  }

  function AheadData(bs: seq<Bank>, j: nat): (a: set<nat>)
    requires j < |bs|
    ensures |a| <= |bs| - 1
  {
    var a := set i: nat | i < |bs| && i != j && Pending(bs[i]) && Older(bs, i, j);
    IndexSetWithout(a, |bs|, j);
    a
  }

  /** The arbiter's choice is a waiting bank, and every other waiting bank is behind it. */
  lemma {:induction false} OldestIsFirst(bs: seq<Bank>, w: Want)
    ensures Oldest(bs, w).None? ==> forall j :: 0 <= j < |bs| ==> !Wants(bs[j], w)
    ensures Oldest(bs, w).Some? ==>
              var k := Oldest(bs, w).value;
              forall j :: 0 <= j < |bs| && j != k && Wants(bs[j], w) ==> Older(bs, k, j)
  {
    if bs != [] {
      var n := |bs| - 1;
      OldestIsFirst(bs[..n], w);
      forall j | 0 <= j < n
        ensures bs[..n][j] == bs[j]
      {
      }
    }
  }

  // ---------- the bound ----------

  /** Bus cycles one transfer of at most `m` bytes can hold the bus for. */
  function BusTime(cfg: Config, m: nat): nat
    requires cfg.Valid()
  {
    (m + cfg.busWidth - 1) / cfg.busWidth
  }

  function AfterPrecharge(cfg: Config, n: nat): nat { n + cfg.precharge }

  function AfterActivate(cfg: Config, n: nat): nat { AfterPrecharge(cfg, n) + n + cfg.activate }

  function AfterColumn(cfg: Config, n: nat): nat { AfterActivate(cfg, n) + n + cfg.column }

  /** Cycles from selection to completion: three command slots contended by `n` banks, the three
      latencies, and `n + 1` bus transfers. */
  function Bound(cfg: Config, n: nat, m: nat): nat
    requires cfg.Valid()
  {
    AfterColumn(cfg, n) + (n + 1) * BusTime(cfg, m)
  }

  // ---------- invariants of one channel; `c` is the next cycle ----------

  function Max(a: int, b: int): int { if a < b then b else a }

  /** Where a request must be how long after its selection. */
  predicate Deadline(cfg: Config, d: nat, n: nat, b: Bank)
    requires FieldsOk(b)
  {
    b.current.Some? ==>
      var e := b.current.value;
      match e.state
      case Init => false
      case Cmd =>
        b.timestamp <= e.scheduled + (if b.openRow == e.rid then AfterActivate(cfg, n)
                                      else if b.openRow == -1 then AfterPrecharge(cfg, n) else 0)
      case CmdWait =>
        b.bankReady.t <= e.scheduled + (if b.openRow == -1 then AfterPrecharge(cfg, n) else AfterActivate(cfg, n))
      case Data => b.dataAvail.t <= e.scheduled + AfterColumn(cfg, n)
      case DataWait => b.dataReady.t <= e.scheduled + AfterColumn(cfg, n) + (n + 1) * d
  }

  predicate FieldsAll(bs: seq<Bank>) {
    forall j :: 0 <= j < |bs| ==> FieldsOk(bs[j])
  }

  predicate Deadlines(cfg: Config, d: nat, bs: seq<Bank>)
    requires FieldsAll(bs)
  {
    forall j :: 0 <= j < |bs| ==> Deadline(cfg, d, |bs|, bs[j])
  }

  /** A bank waiting for a command has waited no longer than its place in the queue allows. */
  predicate CmdTurn(bs: seq<Bank>, c: nat) {
    forall j :: 0 <= j < |bs| && InPhase(bs[j], Cmd) ==>
                  |AheadCmd(bs, j)| + c <= bs[j].timestamp + |bs|
  }

  /** The same for a bank whose data has been available since before cycle `c`. */
  predicate BusTurn(d: nat, bs: seq<Bank>, bus: nat, c: nat)
    requires FieldsAll(bs)
  {
    forall j :: 0 <= j < |bs| && InPhase(bs[j], Data) && bs[j].dataAvail.t < c ==>
                  Max(c, bus) + d * |AheadData(bs, j)| <= bs[j].dataAvail.t + |bs| * d
  }

  /** Nothing that became due before cycle `c` is still waiting. */
  predicate CmdDue(bs: seq<Bank>, c: nat)
    requires FieldsAll(bs)
  {
    forall j :: 0 <= j < |bs| && InPhase(bs[j], CmdWait) ==> c <= bs[j].bankReady.t
  }

  predicate DataDue(bs: seq<Bank>, c: nat)
    requires FieldsAll(bs)
  {
    forall j :: 0 <= j < |bs| && InPhase(bs[j], DataWait) ==> c <= bs[j].dataReady.t
  }

  predicate Stamped(bs: seq<Bank>, c: nat) {
    forall j :: 0 <= j < |bs| && bs[j].current.Some? ==>
                  bs[j].timestamp < c && bs[j].current.value.scheduled < c
  }

  predicate SizesOk(bs: seq<Bank>, m: nat) {
    forall j :: 0 <= j < |bs| && bs[j].current.Some? ==> bs[j].current.value.size <= m
  }

  predicate Timely(cfg: Config, m: nat, bs: seq<Bank>, bus: nat, c: nat)
    requires cfg.Valid()
  {
    && FieldsAll(bs) && SizesOk(bs, m)
    && Deadlines(cfg, BusTime(cfg, m), bs)
    && CmdTurn(bs, c) && BusTurn(BusTime(cfg, m), bs, bus, c)
    && CmdDue(bs, c) && DataDue(bs, c) && Stamped(bs, c)
    && bus <= c + BusTime(cfg, m)
  }

  lemma BoundSplit(cfg: Config, n: nat, m: nat)
    requires cfg.Valid()
    ensures Bound(cfg, n, m) == AfterColumn(cfg, n) + n * BusTime(cfg, m) + BusTime(cfg, m)
    ensures n * BusTime(cfg, m) >= 0
  {
  }

  lemma TimelyData(cfg: Config, d: nat, bs: seq<Bank>, bus: nat, c: nat, j: nat)
    requires FieldsAll(bs) && BusTurn(d, bs, bus, c) && Deadlines(cfg, d, bs)
    requires j < |bs| && InPhase(bs[j], Data)
    ensures c <= bs[j].current.value.scheduled + AfterColumn(cfg, |bs|) + |bs| * d
  {
    assert Deadline(cfg, d, |bs|, bs[j]);
    MulMono(d, 0, |AheadData(bs, j)|);
    MulMono(d, 0, |bs|);
  }

  /** A request still current at cycle `c` was selected at most `Bound` cycles ago. */
  lemma TimelyBound(cfg: Config, m: nat, bs: seq<Bank>, bus: nat, c: nat, j: nat)
    requires cfg.Valid() && Timely(cfg, m, bs, bus, c)
    requires j < |bs| && bs[j].current.Some?
    ensures c <= bs[j].current.value.scheduled + Bound(cfg, |bs|, m)
  {
    var b, d, n := bs[j], BusTime(cfg, m), |bs|;
    BoundSplit(cfg, n, m);
    assert (n + 1) * d == n * d + d;
    assert Deadline(cfg, d, n, b);
    if InPhase(b, Data) {
      TimelyData(cfg, d, bs, bus, c, j);
    } else if InPhase(b, Cmd) {
      assert |AheadCmd(bs, j)| + c <= b.timestamp + n;
    }
  }

  // ---------- the command phase ----------

  lemma CmdTurnStep(cfg: Config, bs: seq<Bank>, c: nat)
    requires CmdTurn(bs, c)
    ensures CmdTurn(CmdSlice(cfg, bs, c), c + 1)
  {
    OldestIsFirst(bs, ForCmd);
    var r := Oldest(bs, ForCmd);
    var bs' := CmdSlice(cfg, bs, c);
    forall j | 0 <= j < |bs'| && InPhase(bs'[j], Cmd)
      ensures |AheadCmd(bs', j)| + c + 1 <= bs'[j].timestamp + |bs'|
    {
      assert Wants(bs[j], ForCmd);
      var k := r.value;
      assert j != k;
      assert k in AheadCmd(bs, j);
      assert AheadCmd(bs', j) <= AheadCmd(bs, j) - {k};
      SubsetSize(AheadCmd(bs', j), AheadCmd(bs, j) - {k});
    }
  }

  lemma CmdPhase(cfg: Config, m: nat, bs: seq<Bank>, bus: nat, c: nat)
    requires cfg.Valid() && Timely(cfg, m, bs, bus, c)
    ensures var r := CmdSlice(cfg, bs, c);
            && FieldsAll(r) && SizesOk(r, m) && Deadlines(cfg, BusTime(cfg, m), r)
            && CmdTurn(r, c + 1) && BusTurn(BusTime(cfg, m), r, bus, c)
            && CmdDue(r, c) && DataDue(r, c) && Stamped(r, c)
  {
    CmdTurnStep(cfg, bs, c);
    var o := Oldest(bs, ForCmd);
    if o.Some? {
      var k, d, r := o.value, BusTime(cfg, m), CmdSlice(cfg, bs, c);
      IssueCmdFields(cfg, bs[k], c);
      assert InPhase(bs[k], Cmd);
      assert Deadline(cfg, d, |bs|, bs[k]);
      assert Deadline(cfg, d, |bs|, r[k]);
      forall j | 0 <= j < |r| && InPhase(r[j], Data) && r[j].dataAvail.t < c
        ensures Max(c, bus) + d * |AheadData(r, j)| <= r[j].dataAvail.t + |r| * d
      {
        assert j != k;
        assert AheadData(r, j) == AheadData(bs, j);
      }
    }
  }

  // ---------- the data phase ----------

  /** `BusTurn` while the bus is being handed out in cycle `c`: it also covers data that became
      available in this very cycle. */
  predicate BusTurnNow(d: nat, bs: seq<Bank>, bus: nat, c: nat)
    requires FieldsAll(bs)
  {
    forall j :: 0 <= j < |bs| && InPhase(bs[j], Data) && bs[j].dataAvail.t <= c ==>
                  Max(c, bus) + d * |AheadData(bs, j)| <= bs[j].dataAvail.t + |bs| * d
  }

  lemma BusTurnEnter(d: nat, bs: seq<Bank>, bus: nat, c: nat)
    requires FieldsAll(bs) && BusTurn(d, bs, bus, c) && bus <= c + d
    ensures BusTurnNow(d, bs, bus, c)
  {
    forall j | 0 <= j < |bs| && InPhase(bs[j], Data) && bs[j].dataAvail.t <= c
      ensures Max(c, bus) + d * |AheadData(bs, j)| <= bs[j].dataAvail.t + |bs| * d
    {
      MulMono(d, |AheadData(bs, j)|, |bs| - 1);
      assert d * (|bs| - 1) == |bs| * d - d;
    }
  }

  lemma BusCycles(over: nat, m: nat, w: nat)
    requires w > 0 && over < m
    ensures over / w + 1 <= (m + w - 1) / w
  {
    var q := over / w;
    assert over == q * w + over % w;
    assert m + w - 1 >= (q + 1) * w;
    DivLower(m + w - 1, q + 1, w);
  }

  lemma DivLower(x: nat, q: nat, w: nat)
    requires w > 0 && x >= q * w
    ensures x / w >= q
  {
    assert x == (x / w) * w + x % w;
    if x / w < q { MulMono(w, x / w + 1, q); }
  }

  lemma AcquireTime(cfg: Config, ch: Channel, size: nat, m: nat, c: nat)
    requires cfg.Valid() && BusOk(cfg, ch) && size <= m
    ensures c <= Acquire(cfg, ch, size, c).1 <= c + BusTime(cfg, m)
    ensures Acquire(cfg, ch, size, c).0.busReady == Acquire(cfg, ch, size, c).1
    ensures BusOk(cfg, Acquire(cfg, ch, size, c).0)
  {
    if size >= ch.byteAvail { BusCycles(size - ch.byteAvail, m, cfg.busWidth); }
  }

  /** What the loop over the bus keeps. */
  ghost predicate DataLoop(cfg: Config, m: nat, bs: seq<Bank>, ch: Channel, c: nat)
    requires cfg.Valid()
  {
    && BusOk(cfg, ch) && ch.busReady <= c + BusTime(cfg, m)
    && FieldsAll(bs) && SizesOk(bs, m) && Deadlines(cfg, BusTime(cfg, m), bs)
    && CmdTurn(bs, c + 1) && BusTurnNow(BusTime(cfg, m), bs, ch.busReady, c)
    && CmdDue(bs, c) && DataDue(bs, c) && Stamped(bs, c)
  }

  lemma GrantAhead(bs: seq<Bank>, k: nat, g: Bank, c: nat, j: nat)
    requires Oldest(bs, ForData(c)) == Some(k) && k < |bs| && InPhase(g, DataWait)
    requires j < |bs| && j != k && WantsData(bs[j], c)
    ensures |AheadData(bs[k := g], j)| <= |AheadData(bs, j)| - 1
  {
    OldestIsFirst(bs, ForData(c));
    assert Wants(bs[j], ForData(c));
    assert k in AheadData(bs, j);
    assert AheadData(bs[k := g], j) <= AheadData(bs, j) - {k};
    SubsetSize(AheadData(bs[k := g], j), AheadData(bs, j) - {k});
  }

  lemma Handover(d: nat, x: int, y: int, c: nat, bus: nat)
    requires x <= y - 1 && c <= bus <= c + d
    ensures Max(c, bus) + d * x <= c + d * y
  {
    MulMono(d, x, y - 1);
    assert d * (y - 1) == d * y - d;
  }

  lemma GrantBusTurn(d: nat, bs: seq<Bank>, k: nat, g: Bank, bus: nat, bus': nat, c: nat)
    requires FieldsAll(bs) && BusTurnNow(d, bs, bus, c)
    requires bus <= c <= bus' <= c + d
    requires Oldest(bs, ForData(c)) == Some(k) && k < |bs|
    requires FieldsOk(g) && InPhase(g, DataWait)
    ensures BusTurnNow(d, bs[k := g], bus', c)
  {
    var r := bs[k := g];
    forall j | 0 <= j < |r| && InPhase(r[j], Data) && r[j].dataAvail.t <= c
      ensures Max(c, bus') + d * |AheadData(r, j)| <= r[j].dataAvail.t + |r| * d
    {
      var y := |AheadData(bs, j)|;
      assert j != k && r[j] == bs[j];
      assert Max(c, bus) + d * y <= bs[j].dataAvail.t + |bs| * d;
      GrantAhead(bs, k, g, c, j);
      Handover(d, |AheadData(r, j)|, y, c, bus');
    }
  }

  lemma GrantCmdTurn(bs: seq<Bank>, k: nat, g: Bank, c: nat)
    requires CmdTurn(bs, c) && k < |bs| && InPhase(bs[k], Data) && InPhase(g, DataWait)
    ensures CmdTurn(bs[k := g], c)
  {
    var r := bs[k := g];
    forall j | 0 <= j < |r| && InPhase(r[j], Cmd)
      ensures |AheadCmd(r, j)| + c <= r[j].timestamp + |r|
    {
      assert AheadCmd(r, j) == AheadCmd(bs, j);
    }
  }

  lemma GrantDeadline(cfg: Config, d: nat, bs: seq<Bank>, bus: nat, c: nat, k: nat, ready: nat)
    requires FieldsAll(bs) && BusTurnNow(d, bs, bus, c) && Deadlines(cfg, d, bs)
    requires k < |bs| && WantsData(bs[k], c) && ready <= c + d
    ensures FieldsOk(GrantBank(bs[k], c, ready))
    ensures Deadline(cfg, d, |bs|, GrantBank(bs[k], c, ready))
  {
    assert Deadline(cfg, d, |bs|, bs[k]);
    MulMono(d, 0, |AheadData(bs, k)|);
    assert (|bs| + 1) * d == |bs| * d + d;
  }

  lemma GrantKeepsLoop(cfg: Config, m: nat, bs: seq<Bank>, ch: Channel, c: nat, k: nat)
    requires cfg.Valid() && DataLoop(cfg, m, bs, ch, c)
    requires ch.busReady <= c && Oldest(bs, ForData(c)) == Some(k) && k < |bs|
    ensures var a := Acquire(cfg, ch, bs[k].current.value.size, c);
            DataLoop(cfg, m, bs[k := GrantBank(bs[k], c, a.1)], a.0, c)
  {
    var d := BusTime(cfg, m);
    var a := Acquire(cfg, ch, bs[k].current.value.size, c);
    var g := GrantBank(bs[k], c, a.1);
    AcquireTime(cfg, ch, bs[k].current.value.size, m, c);
    GrantBusTurn(d, bs, k, g, ch.busReady, a.0.busReady, c);
    GrantCmdTurn(bs, k, g, c + 1);
    GrantDeadline(cfg, d, bs, ch.busReady, c, k, a.1);
  }

  lemma {:induction false} DataPhase(cfg: Config, m: nat, bs: seq<Bank>, ch: Channel, c: nat)
    requires cfg.Valid() && DataLoop(cfg, m, bs, ch, c)
    ensures var (r, ch') := DataSlice(cfg, bs, ch, c);
            && DataLoop(cfg, m, r, ch', c)
            && BusTurn(BusTime(cfg, m), r, ch'.busReady, c + 1)
    decreases NumData(bs)
  {
    if ch.busReady <= c {
      OldestIsFirst(bs, ForData(c));
      var o := Oldest(bs, ForData(c));
      if o.Some? {
        var k := o.value;
        var (ch', ready) := Acquire(cfg, ch, bs[k].current.value.size, c);
        NumDataUpdate(bs, k, GrantBank(bs[k], c, ready));
        GrantKeepsLoop(cfg, m, bs, ch, c, k);
        DataPhase(cfg, m, bs[k := GrantBank(bs[k], c, ready)], ch', c);
      } else {
        forall j | 0 <= j < |bs| && InPhase(bs[j], Data) && bs[j].dataAvail.t < c + 1
          ensures false
        {
          assert Wants(bs[j], ForData(c));
        }
      }
    }
  }

  // ---------- completion and selection ----------

  /** Completion only removes banks that were transferring. */
  predicate Finished(cfg: Config, b: Bank, r: Bank) {
    r == b || (InPhase(b, DataWait) && r.current.None? && FieldsOk(r))
  }

  lemma CompleteFinishes(cfg: Config, b: Bank, c: nat)
    requires FieldsOk(b)
    ensures var r := CompleteBank(cfg, b, c);
            Finished(cfg, b, r) && (InPhase(r, DataWait) ==> c + 1 <= r.dataReady.t)
  {
  }

  lemma FinishedTurns(cfg: Config, d: nat, bs: seq<Bank>, r: seq<Bank>, bus: nat, c: nat)
    requires FieldsAll(bs) && FieldsAll(r) && |r| == |bs|
    requires CmdTurn(bs, c) && BusTurn(d, bs, bus, c)
    requires forall j :: 0 <= j < |bs| ==> Finished(cfg, bs[j], r[j])
    ensures CmdTurn(r, c) && BusTurn(d, r, bus, c)
  {
    forall j | 0 <= j < |r| && InPhase(r[j], Cmd)
      ensures |AheadCmd(r, j)| + c <= r[j].timestamp + |r|
    {
      assert AheadCmd(r, j) == AheadCmd(bs, j);
    }
    forall j | 0 <= j < |r| && InPhase(r[j], Data) && r[j].dataAvail.t < c
      ensures Max(c, bus) + d * |AheadData(r, j)| <= r[j].dataAvail.t + |r| * d
    {
      assert AheadData(r, j) == AheadData(bs, j);
    }
  }

  lemma CompletePhase(cfg: Config, m: nat, bs: seq<Bank>, r: seq<Bank>, bus: nat, c: nat)
    requires cfg.Valid() && FieldsAll(bs) && |r| == |bs|
    requires SizesOk(bs, m) && Deadlines(cfg, BusTime(cfg, m), bs)
    requires CmdTurn(bs, c + 1) && BusTurn(BusTime(cfg, m), bs, bus, c + 1)
    requires CmdDue(bs, c) && DataDue(bs, c) && Stamped(bs, c)
    requires forall j :: 0 <= j < |bs| ==> r[j] == CompleteBank(cfg, bs[j], c)
    ensures FieldsAll(r)
    ensures SizesOk(r, m) && Deadlines(cfg, BusTime(cfg, m), r)
    ensures CmdTurn(r, c + 1) && BusTurn(BusTime(cfg, m), r, bus, c + 1)
    ensures CmdDue(r, c) && DataDue(r, c + 1) && Stamped(r, c)
  {
    var d := BusTime(cfg, m);
    forall j | 0 <= j < |bs|
      ensures Finished(cfg, bs[j], r[j]) && FieldsOk(r[j])
      ensures InPhase(r[j], DataWait) ==> c + 1 <= r[j].dataReady.t
    {
      CompleteFinishes(cfg, bs[j], c);
    }
    hide CompleteBank;
    FinishedTurns(cfg, d, bs, r, bus, c + 1);
    forall j | 0 <= j < |r|
      ensures Deadline(cfg, d, |r|, r[j])
    {
      assert Deadline(cfg, d, |bs|, bs[j]);
    }
  }

  lemma SelectFields(cfg: Config, b: Bank, c: nat)
    requires FieldsOk(b) && forall e :: e in b.buffer ==> e.rid >= 0
    ensures FieldsOk(SelectBank(cfg, b, c))
    ensures var r := SelectBank(cfg, b, c);
            r == b || (InPhase(r, Cmd) && r.timestamp == c && !InPhase(b, Cmd) && !InPhase(b, Data))
  {
    if b.current.None? && b.buffer != [] {
      SortBufferIn(b.buffer, b.openRow);
      assert Schedule(cfg, b)[0] in Schedule(cfg, b);
    }
  }

  lemma SelectDeadline(cfg: Config, d: nat, n: nat, b: Bank, c: nat)
    requires FieldsOk(b) && (forall e :: e in b.buffer ==> e.rid >= 0)
    requires Deadline(cfg, d, n, b) && (InPhase(b, CmdWait) ==> c <= b.bankReady.t)
    ensures FieldsOk(SelectBank(cfg, b, c)) && Deadline(cfg, d, n, SelectBank(cfg, b, c))
  {
    SelectFields(cfg, b, c);
  }

  predicate BuffersOk(bs: seq<Bank>, m: nat) {
    forall j :: 0 <= j < |bs| ==> forall e :: e in bs[j].buffer ==> e.rid >= 0 && e.size <= m
  }

  lemma SelectSize(cfg: Config, b: Bank, m: nat, c: nat)
    requires forall e :: e in b.buffer ==> e.size <= m
    requires b.current.Some? ==> b.current.value.size <= m
    ensures var r := SelectBank(cfg, b, c); r.current.Some? ==> r.current.value.size <= m
  {
    if b.current.None? && b.buffer != [] {
      SortBufferIn(b.buffer, b.openRow);
      assert Schedule(cfg, b)[0] in Schedule(cfg, b);
    }
  }

  lemma SelectTurns(d: nat, bs: seq<Bank>, r: seq<Bank>, bus: nat, c: nat)
    requires FieldsAll(bs) && FieldsAll(r) && |r| == |bs| && Stamped(bs, c)
    requires CmdTurn(bs, c + 1) && BusTurn(d, bs, bus, c + 1)
    requires forall j :: 0 <= j < |bs| ==>
               r[j] == bs[j] || (InPhase(r[j], Cmd) && r[j].timestamp == c && !InPhase(bs[j], Cmd) && !InPhase(bs[j], Data))
    ensures CmdTurn(r, c + 1) && BusTurn(d, r, bus, c + 1)
  {
    forall j | 0 <= j < |r| && InPhase(r[j], Cmd)
      ensures |AheadCmd(r, j)| + c + 1 <= r[j].timestamp + |r|
    {
      if r[j] == bs[j] {
        assert AheadCmd(r, j) <= AheadCmd(bs, j);
        SubsetSize(AheadCmd(r, j), AheadCmd(bs, j));
      }
    }
    forall j | 0 <= j < |r| && InPhase(r[j], Data) && r[j].dataAvail.t < c + 1
      ensures Max(c + 1, bus) + d * |AheadData(r, j)| <= r[j].dataAvail.t + |r| * d
    {
      assert r[j] == bs[j];
      assert AheadData(r, j) <= AheadData(bs, j);
      SubsetSize(AheadData(r, j), AheadData(bs, j));
      MulMono(d, |AheadData(r, j)|, |AheadData(bs, j)|);
    }
  }

  lemma SelectPhase(cfg: Config, m: nat, bs: seq<Bank>, r: seq<Bank>, bus: nat, c: nat)
    requires cfg.Valid() && FieldsAll(bs) && |r| == |bs| && BuffersOk(bs, m)
    requires SizesOk(bs, m) && Deadlines(cfg, BusTime(cfg, m), bs)
    requires CmdTurn(bs, c + 1) && BusTurn(BusTime(cfg, m), bs, bus, c + 1)
    requires CmdDue(bs, c) && DataDue(bs, c + 1) && Stamped(bs, c)
    requires bus <= c + BusTime(cfg, m)
    requires forall j :: 0 <= j < |bs| ==> r[j] == SelectBank(cfg, bs[j], c)
    ensures Timely(cfg, m, r, bus, c + 1)
  {
    var d := BusTime(cfg, m);
    forall j | 0 <= j < |r|
      ensures FieldsOk(r[j]) && Deadline(cfg, d, |r|, r[j])
      ensures r[j] == bs[j] || (InPhase(r[j], Cmd) && r[j].timestamp == c && !InPhase(bs[j], Cmd) && !InPhase(bs[j], Data))
      ensures r[j].current.Some? ==> r[j].current.value.size <= m
    {
      SelectFields(cfg, bs[j], c);
      SelectDeadline(cfg, d, |bs|, bs[j], c);
      SelectSize(cfg, bs[j], m, c);
    }
    SelectTurns(d, bs, r, bus, c);
    forall j | 0 <= j < |r| && InPhase(r[j], CmdWait)
      ensures c + 1 <= r[j].bankReady.t
    {
      assert r[j] == bs[j];
    }
  }
}
