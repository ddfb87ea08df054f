/**
 What leaves the DRAM controller and in which order: the two-pass send, the merging of requests
 to the same address, and the FR-FCFS choice.
 */
module DramOutput {
  import opened DramModel
  import opened Options
  import opened DramRuns
  import opened DramLift
  import opened DramConservation

  // ---------- send_packet ----------

  /** Within a class, injection stops at the first request the network refuses; a request is
      injected only if the network accepts it. */
  lemma {:induction false} SendFifoPerClass(xs: seq<Req>, accept: seq<bool>, vc: bool, scan: Scan)
    requires |accept| == |xs|
    ensures var mask := SendMask(xs, accept, vc, scan);
            && (forall i :: 0 <= i < |xs| && mask[i] ==> accept[i])
            && (forall i, j :: 0 <= i < j < |xs| && xs[i].gpu == xs[j].gpu && mask[j] ==> mask[i])
    ensures scan.Second? ==> forall i :: 0 <= i < |xs| && SendMask(xs, accept, vc, scan)[i] ==> xs[i].gpu == scan.gpuOnly
    ensures scan.Halt? ==> forall i :: 0 <= i < |xs| ==> !SendMask(xs, accept, vc, scan)[i]
  {
    if xs != [] {
      var next := Next(xs[0], accept[0], vc, scan);
      SendFifoPerClass(xs[1..], accept[1..], vc, next);
      var mask, rest := SendMask(xs, accept, vc, scan), SendMask(xs[1..], accept[1..], vc, next);
      assert mask[1..] == rest;
      forall i | 0 < i < |xs|
        ensures xs[i] == xs[1..][i - 1] && mask[i] == rest[i - 1] && accept[i] == accept[1..][i - 1]
      {
      }
    }
  }

  function Next(r: Req, ok: bool, vc: bool, scan: Scan): Scan {
    match scan
    case Halt => Halt
    case First(cpu, gpu) =>
      var cpu', gpu' := cpu || !r.gpu, gpu || r.gpu;
      if ok then First(cpu', gpu') else AfterReject(cpu', gpu', vc)
    case Second(only) => if r.gpu == only && !ok then Halt else scan
  }

  predicate AllAccepted(accept: seq<bool>, n: nat) {
    forall j :: 0 <= j < n && j < |accept| ==> accept[j]
  }

  lemma AllAcceptedTail(accept: seq<bool>, n: nat)
    requires accept != [] && n > 0
    ensures AllAccepted(accept, n) <==> accept[0] && AllAccepted(accept[1..], n - 1)
  {
    if accept[0] && AllAccepted(accept[1..], n - 1) {
      forall j | 0 <= j < n && j < |accept|
        ensures accept[j]
      {
        if j > 0 { assert accept[1..][j - 1]; }
      }
    }
    if AllAccepted(accept, n) {
      forall j | 0 <= j < n - 1 && j < |accept[1..]|
        ensures accept[1..][j]
      {
        assert accept[j + 1];
      }
    }
  }

  /** Without partitioned virtual channels, exactly the requests before the first refusal go. */
  lemma {:induction false} SendPrefix(xs: seq<Req>, accept: seq<bool>, cpu: bool, gpu: bool)
    requires |accept| == |xs|
    ensures var mask := SendMask(xs, accept, false, First(cpu, gpu));
            forall i :: 0 <= i < |xs| ==> (mask[i] <==> AllAccepted(accept, i + 1))
  {
    if xs != [] {
      var mask := SendMask(xs, accept, false, First(cpu, gpu));
      var next := Next(xs[0], accept[0], false, First(cpu, gpu));
      var rest := SendMask(xs[1..], accept[1..], false, next);
      if accept[0] {
        SendPrefix(xs[1..], accept[1..], next.cpu, next.gpu);
        assert rest == SendMask(xs[1..], accept[1..], false, First(next.cpu, next.gpu));
        assert forall k :: 0 <= k < |rest| ==> (rest[k] <==> AllAccepted(accept[1..], k + 1));
      } else {
        SendFifoPerClass(xs[1..], accept[1..], false, Halt);
        assert forall k :: 0 <= k < |rest| ==> !rest[k];
      }
      forall i | 0 <= i < |xs|
        ensures mask[i] <==> AllAccepted(accept, i + 1)
      {
        AllAcceptedTail(accept, i + 1);
        if i > 0 { assert mask[i] == rest[i - 1]; }
      }
    }
  }

  /** With partitioned virtual channels, a class whose head is refused does not hold back the
      other class: if the other class has not been tried when a request is refused, its requests
      go up to the first refusal among them. */
  lemma {:induction false} SecondPass(xs: seq<Req>, accept: seq<bool>, only: bool)
    requires |accept| == |xs|
    ensures var mask := SendMask(xs, accept, true, Second(only));
            forall i :: 0 <= i < |xs| ==>
              (mask[i] <==> xs[i].gpu == only && forall j :: 0 <= j <= i && xs[j].gpu == only ==> accept[j])
  {
    if xs != [] {
      var mask := SendMask(xs, accept, true, Second(only));
      if xs[0].gpu == only && !accept[0] {
        SendFifoPerClass(xs[1..], accept[1..], true, Halt);
      } else {
        SecondPass(xs[1..], accept[1..], only);
        var rest := SendMask(xs[1..], accept[1..], true, Second(only));
        forall i | 0 <= i < |xs|
          ensures mask[i] <==> xs[i].gpu == only && forall j :: 0 <= j <= i && xs[j].gpu == only ==> accept[j]
        {
          if i > 0 {
            assert mask[i] == rest[i - 1] && xs[i] == xs[1..][i - 1];
            if mask[i] {
              forall j | 0 <= j <= i && xs[j].gpu == only
                ensures accept[j]
              {
                if j > 0 { assert xs[1..][j - 1].gpu == only; assert accept[1..][j - 1]; }
              }
            } else if xs[i].gpu == only {
              var j :| 0 <= j <= i - 1 && xs[1..][j].gpu == only && !accept[1..][j];
              assert xs[j + 1].gpu == only && !accept[j + 1];
            }
          }
        }
      }
    }
  }

  predicate Tried(xs: seq<Req>, n: nat, gpu: bool) {
    exists j :: 0 <= j < n && j < |xs| && xs[j].gpu == gpu
  }

  lemma {:induction false} FirstPass(xs: seq<Req>, accept: seq<bool>, cpu: bool, gpu: bool, k: nat)
    requires |accept| == |xs| && k < |xs| && AllAccepted(accept, k) && !accept[k]
    ensures var mask := SendMask(xs, accept, true, First(cpu, gpu));
            && (forall i :: 0 <= i < k ==> mask[i]) && !mask[k]
            && mask[k+1..] == SendMask(xs[k+1..], accept[k+1..], true,
                                       AfterReject(cpu || Tried(xs, k + 1, false), gpu || Tried(xs, k + 1, true), true))
  {
    var mask := SendMask(xs, accept, true, First(cpu, gpu));
    if k > 0 {
      var next := Next(xs[0], accept[0], true, First(cpu, gpu));
      assert accept[0];
      AllAcceptedTail(accept, k);
      FirstPass(xs[1..], accept[1..], next.cpu, next.gpu, k - 1);
      var rest := SendMask(xs[1..], accept[1..], true, First(next.cpu, next.gpu));
      assert mask == [true] + rest;
      assert xs[1..][k..] == xs[k+1..] && accept[1..][k..] == accept[k+1..];
      TriedTail(xs, k + 1, false);
      TriedTail(xs, k + 1, true);
      assert mask[k+1..] == rest[k..];
    } else {
      assert Tried(xs, 1, false) == !xs[0].gpu by { if !xs[0].gpu { assert xs[0].gpu == false; } }
      assert Tried(xs, 1, true) == xs[0].gpu by { if xs[0].gpu { assert xs[0].gpu == true; } }
    }
  }

  lemma TriedTail(xs: seq<Req>, n: nat, gpu: bool)
    requires xs != [] && n > 0
    ensures Tried(xs, n, gpu) <==> xs[0].gpu == gpu || Tried(xs[1..], n - 1, gpu)
  {
    if Tried(xs[1..], n - 1, gpu) {
      var j :| 0 <= j < n - 1 && j < |xs[1..]| && xs[1..][j].gpu == gpu;
      assert xs[j + 1].gpu == gpu;
    }
    if Tried(xs, n, gpu) && xs[0].gpu != gpu {
      var j :| 0 <= j < n && j < |xs| && xs[j].gpu == gpu;
      assert xs[1..][j - 1].gpu == gpu;
    }
  }

  /** The whole send with partitioned channels: everything up to the first refusal `k`; after
      it, the class of the refused request waits, and so does the other class if it was tried
      before; otherwise the other class goes on up to its own first refusal. */
  lemma SendPartitioned(xs: seq<Req>, accept: seq<bool>, k: nat, i: nat)
    requires |accept| == |xs| && k < |xs| && AllAccepted(accept, k) && !accept[k] && i < |xs|
    ensures var mask := SendMask(xs, accept, true, First(false, false));
            mask[i] <==> (i < k || (i > k && !Tried(xs, k + 1, xs[i].gpu)
                                    && forall j :: k < j <= i && xs[j].gpu == xs[i].gpu ==> accept[j]))
  {
    FirstPass(xs, accept, false, false, k);
    var mask := SendMask(xs, accept, true, First(false, false));
    if i > k {
      var ys, acc := xs[k+1..], accept[k+1..];
      var cpu, gpu := Tried(xs, k + 1, false), Tried(xs, k + 1, true);
      var scan := AfterReject(cpu, gpu, true);
      assert xs[k].gpu == true || xs[k].gpu == false;
      assert cpu || gpu;
      assert mask[i] == mask[k+1..][i - k - 1];
      assert ys[i - k - 1] == xs[i];
      if scan.Halt? {
        SendFifoPerClass(ys, acc, true, Halt);
        assert Tried(xs, k + 1, xs[i].gpu);
      } else {
        SecondPass(ys, acc, scan.gpuOnly);
        if mask[i] {
          forall j | k < j <= i && xs[j].gpu == xs[i].gpu
            ensures accept[j]
          {
            assert ys[j - k - 1].gpu == scan.gpuOnly;
            assert acc[j - k - 1];
          }
        } else if xs[i].gpu == scan.gpuOnly {
          var j :| 0 <= j <= i - k - 1 && ys[j].gpu == scan.gpuOnly && !acc[j];
          assert xs[j + k + 1].gpu == xs[i].gpu && !accept[j + k + 1];
        }
      }
    }
  }

  // ---------- merging ----------

  /** Every entry is in the bank its address decodes to. */
  ghost predicate AtHome(s: Ctrl, home: nat -> nat) {
    forall b :: 0 <= b < |s.banks| ==> BankHome(s.banks[b], b, home)
  }

  ghost predicate BankHome(b: Bank, i: nat, home: nat -> nat) {
    && (forall e :: e in b.buffer ==> home(e.addr) == i)
    && (b.current.Some? ==> home(b.current.value.addr) == i)
  }

  predicate Homed(op: Op, home: nat -> nat) {
    match op
    case Cycle(_, arrival) => arrival.Some? ==> home(arrival.value.req.addr) == arrival.value.bid
    case Arrive(a) => home(a.req.addr) == a.bid
    case Adjust(_, _, _, _, _) => true
  }

  lemma TurnHome(cfg: Config, b: Bank, i: nat, home: nat -> nat, now: nat)
    requires BankHome(b, i, home)
    ensures BankHome(CompleteBank(cfg, b, now), i, home) && BankHome(Turn(cfg, b, now), i, home)
  {
    if Completes(b, now) { KeepDropIn(b.buffer, ByAddr(b.current.value.addr)); }
    var c := CompleteBank(cfg, b, now);
    if c.current.None? && c.buffer != [] {
      SortBufferIn(c.buffer, c.openRow);
      var xs := Schedule(cfg, c);
      assert xs[0] in xs;
      forall e | e in xs[1..]
        ensures e in xs
      {
      }
    }
  }

  lemma InsertHome(s: Ctrl, a: Arrival, home: nat -> nat)
    requires AtHome(s, home) && a.bid < |s.banks| && home(a.req.addr) == a.bid
    ensures AtHome(Insert(s, a).0, home)
  {
    KeepDropIn(s.banks[a.bid].buffer, Prefetch);
    var t := Insert(s, a).0;
    forall b | 0 <= b < |t.banks|
      ensures BankHome(t.banks[b], b, home)
    {
      assert BankHome(s.banks[b], b, home);
    }
  }

  lemma MiddleHome(cfg: Config, e: Ctrl, home: nat -> nat)
    requires Shape(cfg, e) && AtHome(e, home)
    ensures AtHome(Banks(cfg, Channels(cfg, e)), home)
  {
    hide Banks;
    hide Turn;
    ChannelsShape(cfg, e);
    var b := Channels(cfg, e);
    BanksPointwise(cfg, b);
    forall i | 0 <= i < |b.banks|
      ensures BankHome(Turn(cfg, b.banks[i], b.cycle), i, home)
    {
      assert BankHome(e.banks[i], i, home);
      var mid := ChannelsEach(cfg, e, i);
      AdvanceHome(cfg, e.banks[i], mid, b.banks[i], e.cycle, i, home);
      TurnHome(cfg, b.banks[i], i, home, b.cycle);
    }
  }

  lemma AdvanceHome(cfg: Config, b: Bank, mid: Bank, c: Bank, now: nat, i: nat, home: nat -> nat)
    requires BankHome(b, i, home) && Commanded(cfg, b, mid, now) && Granted(mid, c, now)
    ensures BankHome(c, i, home)
  {
  }

  lemma ExecHome(cfg: Config, s: Ctrl, op: Op, home: nat -> nat)
    requires Shape(cfg, s) && OpOk(cfg, s, op) && AtHome(s, home) && Homed(op, home)
    ensures AtHome(Exec(cfg, s, op), home)
  {
    match op
    case Cycle(accept, arrival) =>
      var e := Emit(cfg, s, accept);
      MiddleHome(cfg, e, home);
      ChannelsShape(cfg, e);
      BanksPointwise(cfg, Channels(cfg, e));
      hide Banks;
      hide Channels;
      if arrival.Some? { InsertHome(Banks(cfg, Channels(cfg, e)), arrival.value, home); }
    case Arrive(a) => InsertHome(s, a, home);
    case Adjust(_, _, _, _, _) =>
      var t := AdjustAll(s, op);
      forall i | 0 <= i < |s.banks|
        ensures BankHome(t.banks[i], i, home)
      {
        AdjustHome(s.banks[i], op, i, home);
      }
  }

  lemma AdjustHome(b: Bank, op: Op, i: nat, home: nat -> nat)
    requires BankHome(b, i, home) && op.Adjust?
    ensures BankHome(AdjustBank(b, op), i, home)
  {
    var c := AdjustBank(b, op);
    forall e | e in c.buffer
      ensures home(e.addr) == i
    {
      var j :| 0 <= j < |c.buffer| && c.buffer[j] == e;
      assert b.buffer[j] in b.buffer;
    }
  }

  lemma {:induction false} RunHome(cfg: Config, states: seq<Ctrl>, ops: seq<Op>, i: nat, home: nat -> nat)
    requires IsRun(cfg, states, ops) && i < |states|
    requires forall k :: 0 <= k < |ops| ==> Homed(ops[k], home)
    ensures AtHome(states[i], home)
  {
    if i > 0 {
      RunHome(cfg, states, ops, i - 1, home);
      ExecHome(cfg, states[i - 1], ops[i - 1], home);
    }
  }

  /** When merging is on, the completion of a request leaves no request to the same address
      waiting anywhere in the controller. */
  lemma MergeLeavesNone(cfg: Config, s: Ctrl, i: nat, home: nat -> nat)
    requires i < |s.banks| && AtHome(s, home) && cfg.merge && Completes(s.banks[i], s.cycle)
    ensures var t := CompleteOne(cfg, s, i);
            var a := s.banks[i].current.value.addr;
            forall b, e :: 0 <= b < |t.banks| && e in t.banks[b].buffer ==> e.addr != a
  {
    var t := CompleteOne(cfg, s, i);
    var a := s.banks[i].current.value.addr;
    KeepDropIn(s.banks[i].buffer, ByAddr(a));
    assert home(a) == i;
    forall b, e | 0 <= b < |t.banks| && e in t.banks[b].buffer
      ensures e.addr != a
    {
      assert BankHome(s.banks[b], b, home);
    }
  }

  // ---------- FR-FCFS ----------

  lemma BeforeTrans(a: Entry, b: Entry, c: Entry, openRow: int)
    requires (Before(a, b, openRow) && !Before(c, b, openRow)) || (!Before(b, a, openRow) && Before(b, c, openRow))
    ensures Before(a, c, openRow)
  {
  }

  function HeadIndex(xs: seq<Entry>, openRow: int): (p: nat)
    requires xs != []
    ensures p < |xs|
  {
    if |xs| == 1 then 0
    else
      var q := 1 + HeadIndex(xs[1..], openRow);
      if Before(xs[q], xs[0], openRow) then q else 0
  }

  /** FR-FCFS selects the first best entry: no buffered entry ranks before it, and every entry
      queued earlier ranks strictly after it. */
  lemma {:induction false} HeadIsFirstBest(xs: seq<Entry>, openRow: int)
    requires xs != []
    ensures var p := HeadIndex(xs, openRow);
            && SortBuffer(xs, openRow)[0] == xs[p]
            && (forall i :: 0 <= i < |xs| ==> !Before(xs[i], xs[p], openRow))
            && (forall i :: 0 <= i < p ==> Before(xs[p], xs[i], openRow))
  {
    if |xs| > 1 {
      var t := xs[1..];
      HeadIsFirstBest(t, openRow);
      var p := HeadIndex(t, openRow);
      assert SortBuffer(t, openRow)[0] == t[p] == xs[p + 1];
      forall i | 0 <= i < |xs|
        ensures !Before(xs[i], xs[HeadIndex(xs, openRow)], openRow)
      {
        if i > 0 { assert xs[i] == t[i - 1]; }
      }
      forall i | 0 <= i < HeadIndex(xs, openRow)
        ensures Before(xs[HeadIndex(xs, openRow)], xs[i], openRow)
      {
        if i > 0 { assert xs[i] == t[i - 1]; }
      }
    } else {
      assert SortBuffer(xs[1..], openRow) == [];
    }
  }

  predicate InOrder(xs: seq<Entry>, openRow: int) {
    forall i, j :: 0 <= i < j < |xs| ==> !Before(xs[j], xs[i], openRow)
  }

  lemma {:induction false} SortInOrder(e: Entry, xs: seq<Entry>, openRow: int)
    requires InOrder(xs, openRow)
    ensures InOrder(SortIn(e, xs, openRow), openRow)
  {
    if xs != [] && Before(xs[0], e, openRow) {
      assert InOrder(xs[1..], openRow);
      SortInOrder(e, xs[1..], openRow);
      var r := SortIn(e, xs[1..], openRow);
      SortInIn(e, xs[1..], openRow);
      forall j | 0 <= j < |r|
        ensures !Before(r[j], xs[0], openRow)
      {
        assert r[j] in r;
        if r[j] != e {
          var k :| 0 <= k < |xs[1..]| && xs[1..][k] == r[j];
          assert xs[k + 1] == r[j];
        }
      }
    } else if xs != [] {
      forall j | 0 <= j < |xs|
        ensures !Before(xs[j], e, openRow)
      {
        if j > 0 && Before(xs[j], e, openRow) {
          BeforeTrans(xs[j], e, xs[0], openRow);
        }
      }
    }
  }

  /** The same said of the entries' own fields: a demand if there is one, and of those or else of the
      prefetches a hit on the open row if there is one, and of those the oldest. */
  lemma HeadSaid(xs: seq<Entry>, openRow: int)
    requires xs != []
    ensures var h := SortBuffer(xs, openRow)[0];
            && h in xs
            && (h.req.kind == DPrf ==> forall e :: e in xs ==> e.req.kind == DPrf)
            && (h.rid != openRow ==> forall e :: e in xs && (e.req.kind == DPrf <==> h.req.kind == DPrf) ==> e.rid != openRow)
            && (forall e :: e in xs && (e.req.kind == DPrf <==> h.req.kind == DPrf) && (e.rid == openRow <==> h.rid == openRow)
                  ==> h.timestamp <= e.timestamp)
  {
    HeadIsFirstBest(xs, openRow);
    var p := HeadIndex(xs, openRow);
    forall e | e in xs
      ensures !Before(e, xs[p], openRow)
    {
      var i :| 0 <= i < |xs| && xs[i] == e;
    }
  }

  /** The FR-FCFS buffer is left sorted: demand before prefetch, row hits first, then by age. */
  lemma {:induction false} BufferSorted(xs: seq<Entry>, openRow: int)
    ensures InOrder(SortBuffer(xs, openRow), openRow)
  {
    if xs != [] {
      BufferSorted(xs[1..], openRow);
      SortInOrder(xs[0], SortBuffer(xs[1..], openRow), openRow);
    }
  }

  /** What an idle bank with buffered requests does in `bank_schedule_new`: under FCFS it takes the one that came
      first, otherwise the head of the sorted buffer; the others stay, and that request wants a command. */
  lemma SelectSaid(cfg: Config, b: Bank, now: nat)
    requires b.current.None? && b.buffer != []
    ensures var c := SelectBank(cfg, b, now);
            && c.current.Some? && c.current.value.state == Cmd && c.current.value.scheduled == now
            && c.timestamp == now && c.bankReady == Never && c.openRow == b.openRow && c.free == b.free
            && (!cfg.frfcfs ==> c.current.value.req == b.buffer[0].req && c.buffer == b.buffer[1..])
            && (cfg.frfcfs ==> c.current.value.req == SortBuffer(b.buffer, b.openRow)[0].req
                               && InOrder(c.buffer, b.openRow) && |c.buffer| == |b.buffer| - 1)
            && forall v: nat :: HeldBy(c, v) == HeldBy(b, v)
  {
    BufferSorted(b.buffer, b.openRow);
    var c := SelectBank(cfg, b, now);
    forall v: nat
      ensures HeldBy(c, v) == HeldBy(b, v)
    {
      ScheduleOcc(cfg, b, ById, v);
      OccHead(Schedule(cfg, b), ById, v);
    }
    hide HeldBy;
    hide SortBuffer;
  }

  /** A bank whose command latency has passed wants its next command and lines up anew; any other bank that is
      not idle is left alone. */
  lemma ReadySaid(cfg: Config, b: Bank, now: nat)
    requires b.current.Some? || b.buffer == []
    ensures var c := SelectBank(cfg, b, now);
            if b.current.Some? && b.current.value.state == CmdWait && b.bankReady.At? && b.bankReady.t <= now then
              c == b.(bankReady := Never, timestamp := now, current := Some(b.current.value.(state := Cmd)))
            else c == b
  {
  }
}
