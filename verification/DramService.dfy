/**
 Bounded service over whole runs of the DRAM controller: every request a bank selects completes
 within `Bound` cycles, and the starvation counter of `progress_check` stays below its limit.
 */
module DramService {
  import opened DramModel
  import opened Options
  import opened DramRuns
  import opened DramLift
  import opened DramConservation
  import opened DramTiming

  // ---------- timing of all channels ----------

  ghost predicate TimelyAll(cfg: Config, m: nat, s: Ctrl)
    requires Shape(cfg, s)
  {
    && BuffersOk(s.banks, m)
    && forall ch :: 0 <= ch < cfg.numChannels ==>
                      Timely(cfg, m, Slice(cfg, s.banks, ch), s.channels[ch].busReady, s.cycle)
  }

  /** The parts of a bank that timing depends on. */
  predicate SameView(b: Bank, c: Bank) {
    && b.openRow == c.openRow && b.dataReady == c.dataReady && b.dataAvail == c.dataAvail
    && b.bankReady == c.bankReady && b.timestamp == c.timestamp
    && b.current.Some? == c.current.Some?
    && (b.current.Some? ==>
          var e, f := b.current.value, c.current.value;
          e.state == f.state && e.rid == f.rid && e.scheduled == f.scheduled && e.size == f.size)
  }

  lemma TimelyView(cfg: Config, m: nat, bs: seq<Bank>, r: seq<Bank>, bus: nat, c: nat)
    requires cfg.Valid() && Timely(cfg, m, bs, bus, c) && |r| == |bs|
    requires forall j :: 0 <= j < |bs| ==> SameView(bs[j], r[j])
    ensures Timely(cfg, m, r, bus, c)
  {
    var d := BusTime(cfg, m);
    forall j | 0 <= j < |r|
      ensures FieldsOk(r[j]) && Deadline(cfg, d, |r|, r[j])
    {
      assert SameView(bs[j], r[j]) && FieldsOk(bs[j]) && Deadline(cfg, d, |bs|, bs[j]);
    }
    forall j | 0 <= j < |r|
      ensures AheadCmd(r, j) == AheadCmd(bs, j) && AheadData(r, j) == AheadData(bs, j)
    {
      forall i | 0 <= i < |r|
        ensures InPhase(r[i], Cmd) == InPhase(bs[i], Cmd) && Pending(r[i]) == Pending(bs[i])
      {
        assert SameView(bs[i], r[i]);
      }
    }
    forall j | 0 <= j < |r|
      ensures SameView(bs[j], r[j])
    {
    }
  }

  lemma TimelyAllView(cfg: Config, m: nat, s: Ctrl, t: Ctrl)
    requires Shape(cfg, s) && Shape(cfg, t) && TimelyAll(cfg, m, s)
    requires t.channels == s.channels && t.cycle == s.cycle && BuffersOk(t.banks, m)
    requires forall j :: 0 <= j < |s.banks| ==> SameView(s.banks[j], t.banks[j])
    ensures TimelyAll(cfg, m, t)
  {
    forall ch | 0 <= ch < cfg.numChannels
      ensures Timely(cfg, m, Slice(cfg, t.banks, ch), t.channels[ch].busReady, t.cycle)
    {
      SliceFits(cfg, ch);
      var bs, r := Slice(cfg, s.banks, ch), Slice(cfg, t.banks, ch);
      forall j | 0 <= j < |bs|
        ensures SameView(bs[j], r[j])
      {
        assert bs[j] == s.banks[cfg.Lo(ch) + j] && r[j] == t.banks[cfg.Lo(ch) + j];
      }
      TimelyView(cfg, m, bs, r, s.channels[ch].busReady, s.cycle);
    }
  }

  /** One channel through a whole cycle `c`. */
  lemma ChannelCycle(cfg: Config, m: nat, bs: seq<Bank>, ch: Channel, c: nat, r: seq<Bank>, q: seq<Bank>)
    requires cfg.Valid() && BusOk(cfg, ch) && Timely(cfg, m, bs, ch.busReady, c)
    requires var (x, _) := DataSlice(cfg, CmdSlice(cfg, bs, c), ch, c);
             && |r| == |x| && |q| == |x|
             && (forall j :: 0 <= j < |x| ==> r[j] == CompleteBank(cfg, x[j], c))
             && (forall j :: 0 <= j < |x| ==> q[j] == SelectBank(cfg, r[j], c))
    requires BuffersOk(r, m)
    ensures Timely(cfg, m, q, DataSlice(cfg, CmdSlice(cfg, bs, c), ch, c).1.busReady, c + 1)
  {
    hide CmdSlice;
    hide DataSlice;
    hide CompleteBank;
    hide SelectBank;
    CmdPhase(cfg, m, bs, ch.busReady, c);
    var y := CmdSlice(cfg, bs, c);
    BusTurnEnter(BusTime(cfg, m), y, ch.busReady, c);
    DataPhase(cfg, m, y, ch, c);
    var (x, ch') := DataSlice(cfg, y, ch, c);
    CompletePhase(cfg, m, x, r, ch'.busReady, c);
    SelectPhase(cfg, m, r, q, ch'.busReady, c);
  }

  // ---------- what the channels leave alone ----------

  /** Neither buffer nor current request change; the request's phase may. */
  predicate Steady(b: Bank, c: Bank) {
    && b.buffer == c.buffer
    && b.current.Some? == c.current.Some?
    && (b.current.Some? ==>
          && b.current.value.scheduled == c.current.value.scheduled
          && b.current.value.slot == c.current.value.slot)
  }

  predicate SteadyAll(xs: seq<Bank>, ys: seq<Bank>) {
    |xs| == |ys| && forall i :: 0 <= i < |xs| ==> Steady(xs[i], ys[i])
  }

  lemma ChannelsSteady(cfg: Config, s: Ctrl)
    requires Shape(cfg, s)
    ensures SteadyAll(s.banks, Channels(cfg, s).banks)
    ensures forall i :: 0 <= i < |s.banks| && !Served(cfg, i) ==> Channels(cfg, s).banks[i] == s.banks[i]
  {
    ChannelsShape(cfg, s);
    forall i | 0 <= i < |s.banks|
      ensures Steady(s.banks[i], Channels(cfg, s).banks[i])
      ensures !Served(cfg, i) ==> Channels(cfg, s).banks[i] == s.banks[i]
    {
      var mid := ChannelsEach(cfg, s, i);
    }
  }

  // ---------- buffers keep small requests ----------

  predicate Small(b: Bank, m: nat) {
    forall e :: e in b.buffer ==> e.rid >= 0 && e.size <= m
  }

  lemma CompleteSmall(cfg: Config, b: Bank, m: nat, now: nat)
    requires Small(b, m)
    ensures Small(CompleteBank(cfg, b, now), m)
  {
    if Completes(b, now) { KeepDropIn(b.buffer, ByAddr(b.current.value.addr)); }
  }

  lemma SelectSmall(cfg: Config, b: Bank, m: nat, now: nat)
    requires Small(b, m)
    ensures Small(SelectBank(cfg, b, now), m)
  {
    if b.current.None? && b.buffer != [] {
      SortBufferIn(b.buffer, b.openRow);
      forall e | e in Schedule(cfg, b)[1..]
        ensures e in b.buffer
      {
        assert e in Schedule(cfg, b);
      }
    }
  }

  // ---------- one operation ----------

  lemma TurnTimely(cfg: Config, m: nat, bs: seq<Bank>, ch: Channel, c: nat, x: seq<Bank>, q: seq<Bank>)
    requires cfg.Valid() && BusOk(cfg, ch) && Timely(cfg, m, bs, ch.busReady, c)
    requires x == DataSlice(cfg, CmdSlice(cfg, bs, c), ch, c).0 && |q| == |x|
    requires forall j :: 0 <= j < |x| ==> q[j] == Turn(cfg, x[j], c) && Small(x[j], m)
    ensures Timely(cfg, m, q, DataSlice(cfg, CmdSlice(cfg, bs, c), ch, c).1.busReady, c + 1)
  {
    hide CompleteBank;
    hide SelectBank;
    hide CmdSlice;
    hide DataSlice;
    hide Timely;
    var r := seq(|x|, j requires 0 <= j < |x| => CompleteBank(cfg, x[j], c));
    forall j | 0 <= j < |r|
      ensures Small(r[j], m)
    {
      CompleteSmall(cfg, x[j], m, c);
    }
    ChannelCycle(cfg, m, bs, ch, c, r, q);
  }

  lemma TickTimelyChannel(cfg: Config, m: nat, a: Ctrl, ch: nat)
    requires Shape(cfg, a) && TimelyAll(cfg, m, a) && ch < cfg.numChannels
    ensures var c := Banks(cfg, Channels(cfg, a));
            && Shape(cfg, c)
            && Timely(cfg, m, Slice(cfg, c.banks, ch), c.channels[ch].busReady, a.cycle + 1)
  {
    hide Banks;
    hide Turn;
    hide CmdSlice;
    hide DataSlice;
    hide Timely;
    var b := Channels(cfg, a);
    var c := Banks(cfg, b);
    ChannelsShape(cfg, a);
    ChannelsSteady(cfg, a);
    BanksPointwise(cfg, b);
    hide Channels;
    SliceFits(cfg, ch);
    var lo := cfg.Lo(ch);
    var bs, x, q := Slice(cfg, a.banks, ch), Slice(cfg, b.banks, ch), Slice(cfg, c.banks, ch);
    forall j | 0 <= j < |x|
      ensures q[j] == Turn(cfg, x[j], a.cycle) && Small(x[j], m)
    {
      assert x[j] == b.banks[lo + j] && q[j] == c.banks[lo + j];
    }
    TurnTimely(cfg, m, bs, a.channels[ch], a.cycle, x, q);
  }

  lemma TickBuffers(cfg: Config, m: nat, a: Ctrl)
    requires Shape(cfg, a) && BuffersOk(a.banks, m)
    ensures BuffersOk(Banks(cfg, Channels(cfg, a)).banks, m)
  {
    hide Banks;
    var b := Channels(cfg, a);
    ChannelsSteady(cfg, a);
    BanksPointwise(cfg, b);
    forall i | 0 <= i < |b.banks|
      ensures Small(Turn(cfg, b.banks[i], b.cycle), m)
    {
      assert Small(b.banks[i], m);
      CompleteSmall(cfg, b.banks[i], m, b.cycle);
      SelectSmall(cfg, CompleteBank(cfg, b.banks[i], b.cycle), m, b.cycle);
    }
  }

  lemma TickTimely(cfg: Config, m: nat, a: Ctrl)
    requires Shape(cfg, a) && TimelyAll(cfg, m, a)
    ensures var c := Banks(cfg, Channels(cfg, a));
            && Shape(cfg, c) && c.cycle == a.cycle
            && TimelyAll(cfg, m, c.(cycle := c.cycle + 1))
  {
    hide Timely;
    hide Banks;
    TickBuffers(cfg, m, a);
    ChannelsShape(cfg, a);
    BanksPointwise(cfg, Channels(cfg, a));
    hide Channels;
    var c := Banks(cfg, Channels(cfg, a));
    forall ch | 0 <= ch < cfg.numChannels
      ensures Timely(cfg, m, Slice(cfg, c.banks, ch), c.channels[ch].busReady, c.cycle + 1)
    {
      TickTimelyChannel(cfg, m, a, ch);
    }
  }

  lemma InsertTimely(cfg: Config, m: nat, s: Ctrl, a: Arrival)
    requires Conserved(cfg, s) && ArrivalOk(cfg, s, a) && a.req.size <= m
    requires BuffersOk(s.banks, m)
    ensures var t := Insert(s, a).0;
            && Shape(cfg, t) && t.channels == s.channels && t.cycle == s.cycle && BuffersOk(t.banks, m)
            && (forall j :: 0 <= j < |s.banks| ==> SameView(s.banks[j], t.banks[j]))
  {
    var f := Flush(s, a.bid);
    assert Shape(cfg, s);
    hide Conserved;
    FlushView(cfg, m, s, a.bid);
    if s.banks[a.bid].free != [] {
      AcceptView(cfg, m, s, a);
    } else if f.banks[a.bid].free != [] {
      AcceptView(cfg, m, f, a);
    }
  }

  lemma FlushView(cfg: Config, m: nat, s: Ctrl, bid: nat)
    requires Shape(cfg, s) && bid < |s.banks| && BuffersOk(s.banks, m)
    ensures var t := Flush(s, bid);
            && Shape(cfg, t) && t.channels == s.channels && t.cycle == s.cycle && BuffersOk(t.banks, m)
            && (forall j :: 0 <= j < |s.banks| ==> SameView(s.banks[j], t.banks[j]))
  {
    KeepDropIn(s.banks[bid].buffer, Prefetch);
  }

  lemma AcceptView(cfg: Config, m: nat, s: Ctrl, a: Arrival)
    requires Shape(cfg, s) && a.bid < |s.banks| && s.banks[a.bid].free != []
    requires BuffersOk(s.banks, m) && a.rid >= 0 && a.req.size <= m
    ensures var t := Accept(s, a);
            && Shape(cfg, t) && t.channels == s.channels && t.cycle == s.cycle && BuffersOk(t.banks, m)
            && (forall j :: 0 <= j < |s.banks| ==> SameView(s.banks[j], t.banks[j]))
  {
  }

  lemma AdjustTimely(cfg: Config, m: nat, s: Ctrl, op: Op)
    requires Shape(cfg, s) && TimelyAll(cfg, m, s) && op.Adjust?
    ensures TimelyAll(cfg, m, AdjustAll(s, op))
  {
    var t := AdjustAll(s, op);
    forall j | 0 <= j < |s.banks|
      ensures SameView(s.banks[j], t.banks[j])
    {
    }
    forall j, e | 0 <= j < |t.banks| && e in t.banks[j].buffer
      ensures e.rid >= 0 && e.size <= m
    {
      var i :| 0 <= i < |t.banks[j].buffer| && t.banks[j].buffer[i] == e;
      assert s.banks[j].buffer[i] in s.banks[j].buffer;
    }
    TimelyAllView(cfg, m, s, t);
  }

  /** Requests entering the controller are at most `m` bytes. */
  predicate SmallOp(op: Op, m: nat) {
    match op
    case Cycle(_, arrival) => arrival.Some? ==> arrival.value.req.size <= m
    case Arrive(a) => a.req.size <= m
    case Adjust(_, _, _, _, _) => true
  }

  lemma CycleTimely(cfg: Config, m: nat, s: Ctrl, accept: seq<bool>, arrival: Option<Arrival>)
    requires Conserved(cfg, s) && TimelyAll(cfg, m, s)
    requires OpOk(cfg, s, Cycle(accept, arrival)) && SmallOp(Cycle(accept, arrival), m)
    ensures Shape(cfg, Tick(cfg, s, accept, arrival)) && TimelyAll(cfg, m, Tick(cfg, s, accept, arrival))
  {
    hide Banks;
    hide Channels;
    MiddleConserved(cfg, s, accept);
    var a := Emit(cfg, s, accept);
    hide Emit;
    hide Timely;
    TickTimely(cfg, m, a);
    ReceiveTimely(cfg, m, Banks(cfg, Channels(cfg, a)), arrival);
  }

  lemma ExecTimely(cfg: Config, m: nat, s: Ctrl, op: Op)
    requires Conserved(cfg, s) && TimelyAll(cfg, m, s) && OpOk(cfg, s, op) && SmallOp(op, m)
    ensures Shape(cfg, Exec(cfg, s, op)) && TimelyAll(cfg, m, Exec(cfg, s, op))
  {
    ExecShape(cfg, s, op);
    match op
    case Cycle(accept, arrival) =>
      CycleTimely(cfg, m, s, accept, arrival);
    case Arrive(a) =>
      InsertTimely(cfg, m, s, a);
      TimelyAllView(cfg, m, s, Insert(s, a).0);
    case Adjust(_, _, _, _, _) => AdjustTimely(cfg, m, s, op);
  }

  /** The state in which `receive_packet` runs. */
  lemma MiddleConserved(cfg: Config, s: Ctrl, accept: seq<bool>)
    requires Conserved(cfg, s) && |accept| == |s.out.buffer|
    ensures Shape(cfg, Emit(cfg, s, accept))
    ensures Emit(cfg, s, accept).banks == s.banks && Emit(cfg, s, accept).channels == s.channels
    ensures Emit(cfg, s, accept).cycle == s.cycle
    ensures var c := Banks(cfg, Channels(cfg, Emit(cfg, s, accept)));
            Conserved(cfg, c) && c.accepted == s.accepted
  {
    var a := Emit(cfg, s, accept);
    SendConserves(cfg, s, accept, cfg.vcPartition);
    DelayConserves(cfg, Send(s, accept, cfg.vcPartition));
    ChannelsConserve(cfg, a);
    BanksConserve(cfg, Channels(cfg, a));
    TickAccepted(cfg, s, accept);
  }

  lemma ReceiveTimely(cfg: Config, m: nat, c: Ctrl, arrival: Option<Arrival>)
    requires Conserved(cfg, c) && TimelyAll(cfg, m, c.(cycle := c.cycle + 1))
    requires arrival.Some? ==> ArrivalOk(cfg, c, arrival.value) && arrival.value.req.size <= m
    ensures var t := Progress(Receive(c, arrival));
            Shape(cfg, t) && TimelyAll(cfg, m, t.(cycle := t.cycle + 1))
  {
    var t := Receive(c, arrival);
    if arrival.Some? {
      InsertTimely(cfg, m, c, arrival.value);
    } else {
      assert forall j :: 0 <= j < |c.banks| ==> SameView(c.banks[j], t.banks[j]);
    }
    var u := Progress(t);
    TimelyAllView(cfg, m, c.(cycle := c.cycle + 1), u.(cycle := u.cycle + 1));
  }

  lemma StartTimely(cfg: Config, m: nat)
    requires cfg.Valid()
    ensures TimelyAll(cfg, m, Start(cfg))
  {
    var s := Start(cfg);
    forall ch | 0 <= ch < cfg.numChannels
      ensures Timely(cfg, m, Slice(cfg, s.banks, ch), s.channels[ch].busReady, s.cycle)
    {
      SliceFits(cfg, ch);
      forall j | 0 <= j < cfg.PerChannel()
        ensures Slice(cfg, s.banks, ch)[j] == FreshBank(cfg)
      {
      }
    }
  }

  ghost predicate SmallRun(cfg: Config, states: seq<Ctrl>, ops: seq<Op>, m: nat) {
    IsRun(cfg, states, ops) && forall i :: 0 <= i < |ops| ==> SmallOp(ops[i], m)
  }

  lemma {:induction false} RunTimely(cfg: Config, states: seq<Ctrl>, ops: seq<Op>, m: nat, i: nat)
    requires SmallRun(cfg, states, ops, m) && i < |states|
    ensures Conserved(cfg, states[i]) && TimelyAll(cfg, m, states[i])
  {
    RunConserved(cfg, states, ops, i);
    if i == 0 {
      StartTimely(cfg, m);
    } else {
      RunTimely(cfg, states, ops, m, i - 1);
      ExecTimely(cfg, m, states[i - 1], ops[i - 1]);
    }
  }

  /** Bounded service: in every state of every run, a request still current in a bank that a
      channel serves was selected at most `Bound` cycles ago. */
  lemma SelectedCompletesInTime(cfg: Config, states: seq<Ctrl>, ops: seq<Op>, m: nat, i: nat, b: nat)
    requires SmallRun(cfg, states, ops, m) && i < |states|
    requires b < |states[i].banks| && Served(cfg, b) && states[i].banks[b].current.Some?
    ensures states[i].cycle <= states[i].banks[b].current.value.scheduled + Bound(cfg, cfg.PerChannel(), m)
  {
    RunTimely(cfg, states, ops, m, i);
    var ch := ServedChannel(cfg, b);
    SliceFits(cfg, ch);
    var s := states[i];
    var bs := Slice(cfg, s.banks, ch);
    assert bs[b - cfg.Lo(ch)] == s.banks[b];
    TimelyBound(cfg, m, bs, s.channels[ch].busReady, s.cycle, b - cfg.Lo(ch));
  }
}
