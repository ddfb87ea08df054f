/**
 The data bus of each DRAM channel: the byte-granular accounting of `acquire_data_bus` never
 hands out more than the peak bandwidth, over any part of any run.
 */
module DramBus {
  import opened DramModel
  import opened Options
  import opened DramRuns
  import opened DramLift

  /** Bytes handed out and still free in the cycle the bus is promised up to. */
  function Used(c: Channel): int {
    c.granted + c.byteAvail
  }

  /** From channel state `c` to `d`, the bus gave away no more than its width per cycle. */
  predicate WithinPeak(cfg: Config, c: Channel, d: Channel) {
    && c.busReady <= d.busReady && c.granted <= d.granted
    && Used(d) - Used(c) <= cfg.busWidth * (d.busReady - c.busReady)
  }

  lemma PeakTrans(cfg: Config, c: Channel, d: Channel, e: Channel)
    requires WithinPeak(cfg, c, d) && WithinPeak(cfg, d, e)
    ensures WithinPeak(cfg, c, e)
  {
    var w := cfg.busWidth;
    assert w * (e.busReady - c.busReady) == w * (e.busReady - d.busReady) + w * (d.busReady - c.busReady);
  }

  lemma AcquirePeak(cfg: Config, c: Channel, size: nat, now: nat)
    requires cfg.Valid() && BusOk(cfg, c) && c.busReady <= now
    ensures var (d, ready) := Acquire(cfg, c, size, now);
            WithinPeak(cfg, c, d) && BusOk(cfg, d) && d.granted == c.granted + size && d.busReady == ready
  {
    var w := cfg.busWidth;
    var d := Acquire(cfg, c, size, now).0;
    if size >= c.byteAvail {
      var over := size - c.byteAvail;
      assert over == w * (over / w) + over % w;
      assert Used(d) - Used(c) == w * (over / w + 1);
      MulMono(w, over / w + 1, d.busReady - c.busReady);
    } else {
      MulMono(w, 0, d.busReady - c.busReady);
    }
  }

  lemma {:induction false} DataSlicePeak(cfg: Config, bs: seq<Bank>, c: Channel, now: nat)
    requires cfg.Valid() && BusOk(cfg, c)
    ensures WithinPeak(cfg, c, DataSlice(cfg, bs, c, now).1)
    decreases NumData(bs)
  {
    if c.busReady <= now {
      var o := Oldest(bs, ForData(now));
      if o.Some? {
        var k := o.value;
        var (d, ready) := Acquire(cfg, c, bs[k].current.value.size, now);
        var g := GrantBank(bs[k], now, ready);
        AcquirePeak(cfg, c, bs[k].current.value.size, now);
        NumDataUpdate(bs, k, g);
        DataSlicePeak(cfg, bs[k := g], d, now);
        PeakTrans(cfg, c, d, DataSlice(cfg, bs[k := g], d, now).1);
      }
    }
  }

  lemma ExecPeak(cfg: Config, s: Ctrl, op: Op, ch: nat)
    requires Shape(cfg, s) && OpOk(cfg, s, op) && ch < cfg.numChannels
    ensures Shape(cfg, Exec(cfg, s, op))
    ensures WithinPeak(cfg, s.channels[ch], Exec(cfg, s, op).channels[ch])
  {
    ExecShape(cfg, s, op);
    hide WithinPeak;
    match op
    case Cycle(accept, arrival) => CyclePeak(cfg, s, accept, arrival, ch);
    case Arrive(a) => PeakRefl(cfg, s.channels[ch]);
    case Adjust(_, _, _, _, _) => PeakRefl(cfg, s.channels[ch]);
  }

  lemma CyclePeak(cfg: Config, s: Ctrl, accept: seq<bool>, arrival: Option<Arrival>, ch: nat)
    requires Shape(cfg, s) && OpOk(cfg, s, Cycle(accept, arrival)) && ch < cfg.numChannels
    ensures |Tick(cfg, s, accept, arrival).channels| == cfg.numChannels
    ensures WithinPeak(cfg, s.channels[ch], Tick(cfg, s, accept, arrival).channels[ch])
  {
    hide WithinPeak;
    hide CmdSlice;
    hide DataSlice;
    hide Turn;
    var a := Emit(cfg, s, accept);
    ChannelsShape(cfg, a);
    DataSlicePeak(cfg, CmdSlice(cfg, Slice(cfg, a.banks, ch), a.cycle), a.channels[ch], a.cycle);
    BanksPointwise(cfg, Channels(cfg, a));
  }

  lemma PeakRefl(cfg: Config, c: Channel)
    ensures WithinPeak(cfg, c, c)
  {
  }

  lemma ShapeChannels(cfg: Config, s: Ctrl)
    requires Shape(cfg, s)
    ensures |s.channels| == cfg.numChannels
  {
  }

  lemma {:induction false} RunPeak(cfg: Config, states: seq<Ctrl>, ops: seq<Op>, i: nat, j: nat, ch: nat)
    requires IsRun(cfg, states, ops) && i <= j < |states| && ch < cfg.numChannels
    ensures Shape(cfg, states[i]) && Shape(cfg, states[j])
    ensures WithinPeak(cfg, states[i].channels[ch], states[j].channels[ch])
    decreases j - i
  {
    hide WithinPeak;
    hide Exec;
    hide Shape;
    hide OpOk;
    RunShape(cfg, states, ops, i);
    RunShape(cfg, states, ops, j);
    ShapeChannels(cfg, states[i]);
    ShapeChannels(cfg, states[j]);
    if i == j {
      PeakRefl(cfg, states[i].channels[ch]);
    } else {
      RunPeak(cfg, states, ops, i, j - 1, ch);
      ShapeChannels(cfg, states[j - 1]);
      ExecPeak(cfg, states[j - 1], ops[j - 1], ch);
      PeakTrans(cfg, states[i].channels[ch], states[j - 1].channels[ch], states[j].channels[ch]);
    }
  }

  /** Peak bandwidth over any stretch of a run: between two states the bus hands out at most its
      width for every cycle it is promised further, plus what was left of the first cycle. */
  lemma BandwidthWindow(cfg: Config, states: seq<Ctrl>, ops: seq<Op>, i: nat, j: nat, ch: nat)
    requires IsRun(cfg, states, ops) && i <= j < |states| && ch < cfg.numChannels
    ensures Shape(cfg, states[i]) && Shape(cfg, states[j])
    ensures var c, d := states[i].channels[ch], states[j].channels[ch];
            && c.busReady <= d.busReady
            && d.granted - c.granted <= cfg.busWidth * (d.busReady - c.busReady) + c.byteAvail - 1
  {
    RunPeak(cfg, states, ops, i, j, ch);
    assert BusOk(cfg, states[j].channels[ch]);
  }

  lemma {:induction false} RunShape(cfg: Config, states: seq<Ctrl>, ops: seq<Op>, i: nat)
    requires IsRun(cfg, states, ops) && i < |states|
    ensures Shape(cfg, states[i])
  {
    if i > 0 { ExecShape(cfg, states[i - 1], ops[i - 1]); }
  }

  /** Since power-up: everything handed out plus what is left of the last promised cycle fits in
      the cycles promised. */
  lemma PeakBandwidth(cfg: Config, states: seq<Ctrl>, ops: seq<Op>, j: nat, ch: nat)
    requires IsRun(cfg, states, ops) && j < |states| && ch < cfg.numChannels
    ensures Shape(cfg, states[j])
    ensures var d := states[j].channels[ch];
            1 <= d.byteAvail <= cfg.busWidth && d.granted + d.byteAvail <= cfg.busWidth * (d.busReady + 1)
  {
    RunPeak(cfg, states, ops, 0, j, ch);
    var d := states[j].channels[ch];
    assert cfg.busWidth * (d.busReady + 1) == cfg.busWidth * d.busReady + cfg.busWidth;
    assert BusOk(cfg, d);
  }
}
