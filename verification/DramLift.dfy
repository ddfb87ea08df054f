/**
 From one channel to the controller: channels own disjoint slices of the bank array, so a cycle
 moves every bank by at most one command and one bus grant, whatever the other channels do.
 */
module DramLift {
  import opened DramModel
  import opened Options
  import opened DramRuns

  // ---------- disjoint slices ----------

  lemma LoMono(cfg: Config, a: nat, b: nat)
    requires cfg.Valid() && a < b
    ensures cfg.Lo(a) + cfg.PerChannel() <= cfg.Lo(b)
  {
    var n := cfg.PerChannel();
    assert (a + 1) * n == a * n + n;
    MulMono(n, a + 1, b);
  }

  lemma SpliceSlice(cfg: Config, banks: seq<Bank>, ch: nat, bs: seq<Bank>, k: nat)
    requires cfg.Valid() && ch < cfg.numChannels && k < cfg.numChannels && |banks| == cfg.numBanks
    requires |bs| == cfg.PerChannel()
    ensures Slice(cfg, Splice(cfg, banks, ch, bs), k) == if k == ch then bs else Slice(cfg, banks, k)
  {
    SliceFits(cfg, ch);
    SliceFits(cfg, k);
    if k < ch { LoMono(cfg, k, ch); } else if ch < k { LoMono(cfg, ch, k); }
  }

  /** The banks the channels serve; an uneven division leaves the last ones out. */
  predicate Served(cfg: Config, i: nat)
    requires cfg.Valid()
  {
    i < cfg.numChannels * cfg.PerChannel()
  }

  lemma ServedChannel(cfg: Config, i: nat) returns (ch: nat)
    requires cfg.Valid() && Served(cfg, i)
    ensures ch < cfg.numChannels && cfg.Lo(ch) <= i < cfg.Lo(ch) + cfg.PerChannel()
  {
    var n := cfg.PerChannel();
    ch := i / n;
    assert i == ch * n + i % n;
    if ch >= cfg.numChannels { MulMono(n, cfg.numChannels, ch); }
  }

  lemma SpliceUnserved(cfg: Config, banks: seq<Bank>, ch: nat, bs: seq<Bank>, i: nat)
    requires cfg.Valid() && ch < cfg.numChannels && |banks| == cfg.numBanks
    requires |bs| == cfg.PerChannel() && i < |banks| && !Served(cfg, i)
    ensures Splice(cfg, banks, ch, bs)[i] == banks[i]
  {
    SliceFits(cfg, ch);
    MulMono(cfg.PerChannel(), ch + 1, cfg.numChannels);
  }

  // ---------- all channels ----------

  lemma {:induction false} CmdUpToSlice(cfg: Config, banks: seq<Bank>, now: nat, k: nat, ch: nat)
    requires cfg.Valid() && k <= cfg.numChannels && ch < cfg.numChannels && |banks| == cfg.numBanks
    ensures Slice(cfg, CmdUpTo(cfg, banks, now, k), ch)
         == if ch < k then CmdSlice(cfg, Slice(cfg, banks, ch), now) else Slice(cfg, banks, ch)
  {
    hide CmdSlice;
    hide Slice;
    hide Splice;
    if k > 0 {
      CmdUpToSlice(cfg, banks, now, k - 1, ch);
      CmdUpToSlice(cfg, banks, now, k - 1, k - 1);
      var b := CmdUpTo(cfg, banks, now, k - 1);
      SpliceSlice(cfg, b, k - 1, CmdSlice(cfg, Slice(cfg, b, k - 1), now), ch);
    }
  }

  lemma {:induction false} CmdUpToUnserved(cfg: Config, banks: seq<Bank>, now: nat, k: nat, i: nat)
    requires cfg.Valid() && k <= cfg.numChannels && |banks| == cfg.numBanks
    requires i < |banks| && !Served(cfg, i)
    ensures CmdUpTo(cfg, banks, now, k)[i] == banks[i]
  {
    hide CmdSlice;
    if k > 0 {
      CmdUpToUnserved(cfg, banks, now, k - 1, i);
      var b := CmdUpTo(cfg, banks, now, k - 1);
      SpliceUnserved(cfg, b, k - 1, CmdSlice(cfg, Slice(cfg, b, k - 1), now), i);
    }
  }

  lemma {:induction false} DataUpToSlice(cfg: Config, banks: seq<Bank>, cs: seq<Channel>, now: nat, k: nat, ch: nat)
    requires cfg.Valid() && k <= cfg.numChannels && ch < cfg.numChannels
    requires |banks| == cfg.numBanks && |cs| == cfg.numChannels && BusesOk(cfg, cs)
    ensures var r := DataUpTo(cfg, banks, cs, now, k);
            if ch < k then
              (Slice(cfg, r.0, ch), r.1[ch]) == DataSlice(cfg, Slice(cfg, banks, ch), cs[ch], now)
            else
              Slice(cfg, r.0, ch) == Slice(cfg, banks, ch) && r.1[ch] == cs[ch]
  {
    hide DataSlice;
    hide Slice;
    hide Splice;
    if k > 0 {
      DataUpToSlice(cfg, banks, cs, now, k - 1, ch);
      DataUpToSlice(cfg, banks, cs, now, k - 1, k - 1);
      var (b, c) := DataUpTo(cfg, banks, cs, now, k - 1);
      SpliceSlice(cfg, b, k - 1, DataSlice(cfg, Slice(cfg, b, k - 1), c[k - 1], now).0, ch);
    }
  }

  lemma {:induction false} DataUpToUnserved(cfg: Config, banks: seq<Bank>, cs: seq<Channel>, now: nat, k: nat, i: nat)
    requires cfg.Valid() && k <= cfg.numChannels && i < |banks| && !Served(cfg, i)
    requires |banks| == cfg.numBanks && |cs| == cfg.numChannels && BusesOk(cfg, cs)
    ensures DataUpTo(cfg, banks, cs, now, k).0[i] == banks[i]
  {
    hide DataSlice;
    if k > 0 {
      DataUpToUnserved(cfg, banks, cs, now, k - 1, i);
      var (b, c) := DataUpTo(cfg, banks, cs, now, k - 1);
      SpliceUnserved(cfg, b, k - 1, DataSlice(cfg, Slice(cfg, b, k - 1), c[k - 1], now).0, i);
    }
  }

  /** Every channel takes its own step. */
  lemma ChannelsShape(cfg: Config, s: Ctrl)
    requires Shape(cfg, s)
    ensures Shape(cfg, Channels(cfg, s)) && Channels(cfg, s).cycle == s.cycle
    ensures forall ch :: 0 <= ch < cfg.numChannels ==>
              var r := Channels(cfg, s);
              (Slice(cfg, r.banks, ch), r.channels[ch])
              == DataSlice(cfg, CmdSlice(cfg, Slice(cfg, s.banks, ch), s.cycle), s.channels[ch], s.cycle)
  {
    hide CmdSlice;
    hide DataSlice;
    var banks := CmdUpTo(cfg, s.banks, s.cycle, cfg.numChannels);
    DataUpToBuses(cfg, banks, s.channels, s.cycle, cfg.numChannels);
    forall ch | 0 <= ch < cfg.numChannels
      ensures var r := Channels(cfg, s);
              (Slice(cfg, r.banks, ch), r.channels[ch])
              == DataSlice(cfg, CmdSlice(cfg, Slice(cfg, s.banks, ch), s.cycle), s.channels[ch], s.cycle)
    {
      CmdUpToSlice(cfg, s.banks, s.cycle, cfg.numChannels, ch);
      DataUpToSlice(cfg, banks, s.channels, s.cycle, cfg.numChannels, ch);
    }
  }

  // ---------- one bank ----------

  /** At most one command. */
  predicate Commanded(cfg: Config, b: Bank, c: Bank, now: nat) {
    c == b || (WantsCmd(b) && c == IssueCmd(cfg, b, now))
  }

  /** At most one bus grant. */
  predicate Granted(b: Bank, c: Bank, now: nat) {
    c == b || (WantsData(b, now) && c.dataReady.At? && c.dataReady.t >= now
               && c == GrantBank(b, now, c.dataReady.t))
  }

  lemma CmdSliceEach(cfg: Config, bs: seq<Bank>, now: nat)
    ensures forall j :: 0 <= j < |bs| ==> Commanded(cfg, bs[j], CmdSlice(cfg, bs, now)[j], now)
  {
  }

  lemma {:induction false} DataSliceEach(cfg: Config, bs: seq<Bank>, c: Channel, now: nat)
    requires cfg.Valid() && BusOk(cfg, c)
    ensures forall j :: 0 <= j < |bs| ==> Granted(bs[j], DataSlice(cfg, bs, c, now).0[j], now)
    decreases NumData(bs)
  {
    if c.busReady <= now {
      var o := Oldest(bs, ForData(now));
      if o.Some? {
        var k := o.value;
        var (c', ready) := Acquire(cfg, c, bs[k].current.value.size, now);
        var g := GrantBank(bs[k], now, ready);
        NumDataUpdate(bs, k, g);
        DataSliceEach(cfg, bs[k := g], c', now);
        assert !WantsData(g, now);
      }
    }
  }

  /** `channel_schedule` on one bank. */
  lemma ChannelsEach(cfg: Config, s: Ctrl, i: nat) returns (mid: Bank)
    requires Shape(cfg, s) && i < |s.banks|
    ensures |Channels(cfg, s).banks| == |s.banks|
    ensures Commanded(cfg, s.banks[i], mid, s.cycle) && Granted(mid, Channels(cfg, s).banks[i], s.cycle)
    ensures !Served(cfg, i) ==> Channels(cfg, s).banks[i] == s.banks[i]
  {
    ChannelsShape(cfg, s);
    if Served(cfg, i) {
      var ch := ServedChannel(cfg, i);
      SliceFits(cfg, ch);
      var lo, bs := cfg.Lo(ch), Slice(cfg, s.banks, ch);
      CmdSliceEach(cfg, bs, s.cycle);
      DataSliceEach(cfg, CmdSlice(cfg, bs, s.cycle), s.channels[ch], s.cycle);
      hide CmdSlice;
      hide DataSlice;
      mid := CmdSlice(cfg, bs, s.cycle)[i - lo];
      assert bs[i - lo] == s.banks[i];
      assert Slice(cfg, Channels(cfg, s).banks, ch)[i - lo] == Channels(cfg, s).banks[i];
    } else {
      mid := s.banks[i];
      CmdUpToUnserved(cfg, s.banks, s.cycle, cfg.numChannels, i);
      DataUpToUnserved(cfg, CmdUpTo(cfg, s.banks, s.cycle, cfg.numChannels), s.channels, s.cycle, cfg.numChannels, i);
    }
  }

  /** `bank_schedule` on one bank. */
  function Turn(cfg: Config, b: Bank, now: nat): Bank {
    SelectBank(cfg, CompleteBank(cfg, b, now), now)
  }

  lemma BanksPointwise(cfg: Config, s: Ctrl)
    ensures var c := Banks(cfg, s);
            && |c.banks| == |s.banks| && c.channels == s.channels && c.cycle == s.cycle
            && forall i :: 0 <= i < |s.banks| ==> c.banks[i] == Turn(cfg, s.banks[i], s.cycle)
  {
    CompleteUpToFrame(cfg, s, |s.banks|);
  }
}
