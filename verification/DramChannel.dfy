/**
 What the banks of a channel share: its command bus carries at most one command a cycle, and its data bus
 hands out exactly the bytes of the requests it transfers.
 */
module DramChannel {
  import opened DramModel
  import opened Options
  import opened DramRuns
  import opened DramLift
  import opened DramBus
  import DramTiming

  // ---------- one command a cycle ----------

  predicate IsCmd(e: Event) { e.Precharge? || e.Activate? || e.Column? }

  /** The commands issued to a bank in cycle `t`. */
  function CmdsAt(log: seq<Event>, t: nat): nat {
    if log == [] then 0 else CmdsAt(log[..|log|-1], t) + (if IsCmd(log[|log|-1]) && log[|log|-1].at == t then 1 else 0)
  }

  /** And to all of `bs`. */
  function AllCmdsAt(bs: seq<Bank>, t: nat): nat {
    if bs == [] then 0 else AllCmdsAt(bs[..|bs|-1], t) + CmdsAt(bs[|bs|-1].log, t)
  }

  lemma CmdsNext(log: seq<Event>, e: Event, t: nat)
    ensures CmdsAt(log + [e], t) == CmdsAt(log, t) + if IsCmd(e) && e.at == t then 1 else 0
  {
    assert (log + [e])[..|log + [e]| - 1] == log;
  }

  lemma {:induction false} AllCmdsSame(xs: seq<Bank>, ys: seq<Bank>, t: nat)
    requires |xs| == |ys| && forall i :: 0 <= i < |xs| ==> CmdsAt(ys[i].log, t) == CmdsAt(xs[i].log, t)
    ensures AllCmdsAt(ys, t) == AllCmdsAt(xs, t)
  {
    if xs != [] { AllCmdsSame(xs[..|xs|-1], ys[..|ys|-1], t); }
  }

  lemma {:induction false} AllCmdsUpdate(bs: seq<Bank>, k: nat, b: Bank, t: nat)
    requires k < |bs|
    ensures AllCmdsAt(bs[k := b], t) + CmdsAt(bs[k].log, t) == AllCmdsAt(bs, t) + CmdsAt(b.log, t)
  {
    var n := |bs| - 1;
    if k == n {
      assert bs[k := b][..n] == bs[..n];
    } else {
      assert bs[k := b][..n] == bs[..n][k := b];
      AllCmdsUpdate(bs[..n], k, b, t);
    }
  }

  lemma IssueCmds(cfg: Config, b: Bank, now: nat, t: nat)
    requires WantsCmd(b)
    ensures CmdsAt(IssueCmd(cfg, b, now).log, t) == CmdsAt(b.log, t) + if t == now then 1 else 0
  {
    var e := b.current.value;
    var ev := if b.openRow == -1 then Activate(now, e.rid)
              else if e.rid == b.openRow then Column(now, e.rid) else Precharge(now);
    CmdsNext(b.log, ev, t);
  }

  lemma CmdSliceOne(cfg: Config, bs: seq<Bank>, now: nat, t: nat)
    ensures AllCmdsAt(CmdSlice(cfg, bs, now), t) <= AllCmdsAt(bs, t) + if t == now then 1 else 0
  {
    match Oldest(bs, ForCmd)
    case None =>
    case Some(k) =>
      IssueCmds(cfg, bs[k], now, t);
      hide IssueCmd;
      AllCmdsUpdate(bs, k, IssueCmd(cfg, bs[k], now), t);
  }

  /** Grants, completions and selections issue no command. */
  lemma GrantCmds(b: Bank, c: Bank, now: nat, t: nat)
    requires Granted(b, c, now)
    ensures CmdsAt(c.log, t) == CmdsAt(b.log, t)
  {
    if c != b { CmdsNext(b.log, Transfer(now, c.dataReady.t), t); }
  }

  lemma TurnCmds(cfg: Config, b: Bank, now: nat, t: nat)
    ensures CmdsAt(Turn(cfg, b, now).log, t) == CmdsAt(b.log, t)
  {
    var c := CompleteBank(cfg, b, now);
    if Completes(b, now) { CmdsNext(b.log, Done(now), t); }
    if c.current.None? && c.buffer != [] { CmdsNext(c.log, Select(now, Schedule(cfg, c)[0].rid), t); }
    hide CmdsAt;
  }

  /** The commands of channel `ch` in cycle `t`. */
  function ChannelCmds(cfg: Config, s: Ctrl, ch: nat, t: nat): nat
    requires cfg.Valid() && ch < cfg.numChannels && |s.banks| == cfg.numBanks
  {
    AllCmdsAt(Slice(cfg, s.banks, ch), t)
  }

  /** So far at most one, and none for cycles to come. */
  predicate OneEach(cfg: Config, s: Ctrl, ch: nat, t: nat)
    requires cfg.Valid() && ch < cfg.numChannels && |s.banks| == cfg.numBanks
  {
    ChannelCmds(cfg, s, ch, t) <= if t < s.cycle then 1 else 0
  }

  lemma SameLogs(cfg: Config, s: Ctrl, r: Ctrl, ch: nat, t: nat)
    requires cfg.Valid() && ch < cfg.numChannels && |s.banks| == cfg.numBanks && |r.banks| == cfg.numBanks
    requires forall i :: 0 <= i < |s.banks| ==> CmdsAt(r.banks[i].log, t) == CmdsAt(s.banks[i].log, t)
    ensures ChannelCmds(cfg, r, ch, t) == ChannelCmds(cfg, s, ch, t)
  {
    SliceFits(cfg, ch);
    AllCmdsSame(Slice(cfg, s.banks, ch), Slice(cfg, r.banks, ch), t);
  }

  lemma ChannelsCmds(cfg: Config, s: Ctrl, ch: nat, t: nat)
    requires Shape(cfg, s) && ch < cfg.numChannels
    ensures |Channels(cfg, s).banks| == cfg.numBanks
    ensures ChannelCmds(cfg, Channels(cfg, s), ch, t) <= ChannelCmds(cfg, s, ch, t) + if t == s.cycle then 1 else 0
  {
    hide CmdSlice;
    hide DataSlice;
    ChannelsShape(cfg, s);
    var bs := Slice(cfg, s.banks, ch);
    var cs := CmdSlice(cfg, bs, s.cycle);
    var ds := DataSlice(cfg, cs, s.channels[ch], s.cycle).0;
    CmdSliceOne(cfg, bs, s.cycle, t);
    DataSliceEach(cfg, cs, s.channels[ch], s.cycle);
    forall j | 0 <= j < |cs|
      ensures CmdsAt(ds[j].log, t) == CmdsAt(cs[j].log, t)
    {
      GrantCmds(cs[j], ds[j], s.cycle, t);
    }
    AllCmdsSame(cs, ds, t);
  }

  lemma BanksCmds(cfg: Config, s: Ctrl, ch: nat, t: nat)
    requires Shape(cfg, s) && ch < cfg.numChannels
    ensures |Banks(cfg, s).banks| == cfg.numBanks && ChannelCmds(cfg, Banks(cfg, s), ch, t) == ChannelCmds(cfg, s, ch, t)
  {
    hide Turn;
    hide Banks;
    BanksPointwise(cfg, s);
    forall i | 0 <= i < |s.banks|
      ensures CmdsAt(Turn(cfg, s.banks[i], s.cycle).log, t) == CmdsAt(s.banks[i].log, t)
    {
      TurnCmds(cfg, s.banks[i], s.cycle, t);
    }
    SameLogs(cfg, s, Banks(cfg, s), ch, t);
  }

  lemma InsertLogs(s: Ctrl, a: Arrival)
    requires a.bid < |s.banks|
    ensures var r := Insert(s, a).0; forall i :: 0 <= i < |s.banks| ==> r.banks[i].log == s.banks[i].log
  {
  }

  lemma CycleCmds(cfg: Config, s: Ctrl, accept: seq<bool>, arrival: Option<Arrival>, ch: nat, t: nat)
    requires Shape(cfg, s) && OpOk(cfg, s, Cycle(accept, arrival)) && ch < cfg.numChannels && OneEach(cfg, s, ch, t)
    ensures |Tick(cfg, s, accept, arrival).banks| == cfg.numBanks && OneEach(cfg, Tick(cfg, s, accept, arrival), ch, t)
  {
    hide Channels;
    hide Banks;
    hide ChannelCmds;
    hide SendMask;
    hide Pick1;
    hide Insert;
    var a := Emit(cfg, s, accept);
    var b := Channels(cfg, a);
    var c := Banks(cfg, b);
    SameLogs(cfg, s, a, ch, t);
    ChannelsCmds(cfg, a, ch, t);
    ChannelsShape(cfg, a);
    BanksCmds(cfg, b, ch, t);
    BanksPointwise(cfg, b);
    EndCmds(cfg, c, arrival, ch, t);
  }

  lemma EndCmds(cfg: Config, c: Ctrl, arrival: Option<Arrival>, ch: nat, t: nat)
    requires cfg.Valid() && ch < cfg.numChannels && |c.banks| == cfg.numBanks && Placed(c, arrival)
    ensures var d := Progress(Receive(c, arrival)); var e := d.(cycle := d.cycle + 1);
            |e.banks| == cfg.numBanks && e.cycle == c.cycle + 1 && ChannelCmds(cfg, e, ch, t) == ChannelCmds(cfg, c, ch, t)
  {
    if arrival.Some? { InsertLogs(c, arrival.value); }
    hide ChannelCmds;
    var d := Progress(Receive(c, arrival));
    SameLogs(cfg, c, d.(cycle := d.cycle + 1), ch, t);
  }

  lemma ExecCmds(cfg: Config, s: Ctrl, op: Op, ch: nat, t: nat)
    requires Shape(cfg, s) && OpOk(cfg, s, op) && ch < cfg.numChannels && OneEach(cfg, s, ch, t)
    ensures |Exec(cfg, s, op).banks| == cfg.numBanks && OneEach(cfg, Exec(cfg, s, op), ch, t)
  {
    match op
    case Cycle(accept, arrival) => CycleCmds(cfg, s, accept, arrival, ch, t);
    case Arrive(a) =>
      InsertLogs(s, a);
      SameLogs(cfg, s, Insert(s, a).0, ch, t);
    case Adjust(_, _, _, _, _) => SameLogs(cfg, s, AdjustAll(s, op), ch, t);
  }

  lemma {:induction false} AllCmdsNone(bs: seq<Bank>, t: nat)
    requires forall i :: 0 <= i < |bs| ==> bs[i].log == []
    ensures AllCmdsAt(bs, t) == 0
  {
    if bs != [] { AllCmdsNone(bs[..|bs|-1], t); }
  }

  /** In every run, whatever its banks want, a channel issues at most one command in any cycle. */
  lemma {:induction false} OneCommandPerCycle(cfg: Config, states: seq<Ctrl>, ops: seq<Op>, i: nat, ch: nat, t: nat)
    requires IsRun(cfg, states, ops) && i < |states| && ch < cfg.numChannels
    ensures |states[i].banks| == cfg.numBanks
    ensures ChannelCmds(cfg, states[i], ch, t) <= if t < states[i].cycle then 1 else 0
  {
    hide Exec;
    hide ChannelCmds;
    if i == 0 {
      StartCmds(cfg, ch, t);
    } else {
      OneCommandPerCycle(cfg, states, ops, i - 1, ch, t);
      ExecCmds(cfg, states[i - 1], ops[i - 1], ch, t);
    }
  }

  lemma StartCmds(cfg: Config, ch: nat, t: nat)
    requires cfg.Valid() && ch < cfg.numChannels
    ensures ChannelCmds(cfg, Start(cfg), ch, t) == 0
  {
    SliceFits(cfg, ch);
    AllCmdsNone(Slice(cfg, Start(cfg).banks, ch), t);
  }

  // ---------- the bytes of the data bus ----------

  /** The bytes of the requests whose data is on the bus in `cs` and was still waiting in `bs`. */
  function MovedBytes(bs: seq<Bank>, cs: seq<Bank>): nat
    requires |bs| == |cs|
  {
    if bs == [] then 0
    else
      var n := |bs| - 1;
      MovedBytes(bs[..n], cs[..n])
      + (if Moves(bs[n], cs[n]) then bs[n].current.value.size else 0)
  }

  predicate Moves(b: Bank, c: Bank) {
    b.current.Some? && b.current.value.state == Data && c.current.Some? && c.current.value.state == DataWait
  }

  lemma {:induction false} MovedMore(bs: seq<Bank>, k: nat, g: Bank, cs: seq<Bank>)
    requires k < |bs| == |cs| && Moves(bs[k], g) && cs[k] == g
    ensures MovedBytes(bs, cs) == MovedBytes(bs[k := g], cs) + bs[k].current.value.size
  {
    var n := |bs| - 1;
    if k == n {
      assert bs[k := g][..n] == bs[..n];
    } else {
      assert bs[k := g][..n] == bs[..n][k := g];
      MovedMore(bs[..n], k, g, cs[..n]);
    }
  }

  lemma {:induction false} MovedNone(bs: seq<Bank>)
    ensures MovedBytes(bs, bs) == 0
  {
    if bs != [] { MovedNone(bs[..|bs|-1]); }
  }

  lemma {:induction false} DataSliceBytes(cfg: Config, bs: seq<Bank>, c: Channel, now: nat)
    requires cfg.Valid() && BusOk(cfg, c)
    ensures var (cs, d) := DataSlice(cfg, bs, c, now); d.granted == c.granted + MovedBytes(bs, cs)
    decreases NumData(bs)
  {
    MovedNone(bs);
    if c.busReady <= now {
      var o := Oldest(bs, ForData(now));
      if o.Some? {
        var k := o.value;
        var (d, ready) := Acquire(cfg, c, bs[k].current.value.size, now);
        var g := GrantBank(bs[k], now, ready);
        AcquirePeak(cfg, c, bs[k].current.value.size, now);
        NumDataUpdate(bs, k, g);
        DataSliceBytes(cfg, bs[k := g], d, now);
        DataSliceEach(cfg, bs[k := g], d, now);
        assert !WantsData(g, now);
        MovedMore(bs, k, g, DataSlice(cfg, bs[k := g], d, now).0);
      }
    }
  }

  /** In a cycle a channel's bus hands out exactly the bytes of the requests of its banks whose data it
      begins to transfer. */
  lemma GrantsExactly(cfg: Config, s: Ctrl, ch: nat)
    requires Shape(cfg, s) && ch < cfg.numChannels
    ensures var r := Channels(cfg, s);
            && |r.banks| == |s.banks| && |r.channels| == |s.channels|
            && r.channels[ch].granted
               == s.channels[ch].granted + MovedBytes(CmdSlice(cfg, Slice(cfg, s.banks, ch), s.cycle), Slice(cfg, r.banks, ch))
  {
    hide CmdSlice;
    hide DataSlice;
    hide Slice;
    ChannelsShape(cfg, s);
    DataSliceBytes(cfg, CmdSlice(cfg, Slice(cfg, s.banks, ch), s.cycle), s.channels[ch], s.cycle);
  }

  /** A bank whose data is read and waits for the bus. */
  predicate Waits(b: Bank, now: nat) {
    b.current.Some? && b.current.value.state == Data && b.dataAvail.At? && b.dataAvail.t <= now
  }

  lemma {:induction false} DataSliceEnds(cfg: Config, bs: seq<Bank>, c: Channel, now: nat)
    requires cfg.Valid() && BusOk(cfg, c)
    ensures var (cs, d) := DataSlice(cfg, bs, c, now); d.busReady > now || forall j :: 0 <= j < |cs| ==> !Waits(cs[j], now)
    decreases NumData(bs)
  {
    if c.busReady <= now {
      DramTiming.OldestIsFirst(bs, ForData(now));
      var o := Oldest(bs, ForData(now));
      if o.Some? {
        var k := o.value;
        var (d, ready) := Acquire(cfg, c, bs[k].current.value.size, now);
        var g := GrantBank(bs[k], now, ready);
        AcquirePeak(cfg, c, bs[k].current.value.size, now);
        NumDataUpdate(bs, k, g);
        DataSliceEnds(cfg, bs[k := g], d, now);
      }
    }
  }

  /** No channel leaves its bus free while one of its banks has data waiting for it. */
  lemma BusNeverWasted(cfg: Config, s: Ctrl, ch: nat, j: nat)
    requires Shape(cfg, s) && ch < cfg.numChannels && j < cfg.PerChannel()
    ensures var r := Channels(cfg, s);
            && |r.banks| == cfg.numBanks && |r.channels| == cfg.numChannels && cfg.Lo(ch) + j < cfg.numBanks
            && (r.channels[ch].busReady > s.cycle || !Waits(r.banks[cfg.Lo(ch) + j], s.cycle))
  {
    hide CmdSlice;
    hide DataSlice;
    ChannelsShape(cfg, s);
    SliceFits(cfg, ch);
    DataSliceEnds(cfg, CmdSlice(cfg, Slice(cfg, s.banks, ch), s.cycle), s.channels[ch], s.cycle);
    var r := Channels(cfg, s);
    assert Slice(cfg, r.banks, ch)[j] == r.banks[cfg.Lo(ch) + j];
  }
}
