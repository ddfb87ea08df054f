/**
 The DRAM controller as the source writes it: an object whose methods update per-bank and
 per-channel arrays and lists in loops. Each method is proved equal to the step of `DramModel`
 it implements, so everything proved about runs of the model holds of this object.
 */
module DramController {
  import opened DramModel
  import opened Options
  import opened DramRuns
  import opened DramLift
  import opened DramConservation
  import opened DramLists
  import opened Removal

  // ---------- slices under one update ----------

  lemma SpliceUpdate(cfg: Config, banks: seq<Bank>, ch: nat, k: nat, b: Bank)
    requires cfg.Valid() && ch < cfg.numChannels && |banks| == cfg.numBanks && k < cfg.PerChannel()
    ensures cfg.Lo(ch) + k < |banks|
    ensures Splice(cfg, banks, ch, Slice(cfg, banks, ch)[k := b]) == banks[cfg.Lo(ch) + k := b]
    ensures Slice(cfg, banks[cfg.Lo(ch) + k := b], ch) == Slice(cfg, banks, ch)[k := b]
  {
    SliceFits(cfg, ch);
  }

  lemma SpliceSame(cfg: Config, banks: seq<Bank>, ch: nat)
    requires cfg.Valid() && ch < cfg.numChannels && |banks| == cfg.numBanks
    ensures Splice(cfg, banks, ch, Slice(cfg, banks, ch)) == banks
  {
    SliceFits(cfg, ch);
  }

  lemma SpliceTwice(cfg: Config, banks: seq<Bank>, ch: nat, xs: seq<Bank>, ys: seq<Bank>)
    requires cfg.Valid() && ch < cfg.numChannels && |banks| == cfg.numBanks
    requires |xs| == |ys| == cfg.PerChannel()
    ensures Splice(cfg, Splice(cfg, banks, ch, xs), ch, ys) == Splice(cfg, banks, ch, ys)
    ensures Slice(cfg, Splice(cfg, banks, ch, ys), ch) == ys
  {
    SliceFits(cfg, ch);
  }

  /** One grant: the bank the arbiter picks and the channel's bus after it. */
  function GrantStep(cfg: Config, bs: seq<Bank>, c: Channel, now: nat): (r: (seq<Bank>, Channel))
    requires cfg.Valid() && BusOk(cfg, c) && Oldest(bs, ForData(now)).Some?
    ensures |r.0| == |bs| && BusOk(cfg, r.1)
  {
    var k := Oldest(bs, ForData(now)).value;
    var (d, ready) := Acquire(cfg, c, bs[k].current.value.size, now);
    (bs[k := GrantBank(bs[k], now, ready)], d)
  }

  lemma DataSliceStep(cfg: Config, bs: seq<Bank>, c: Channel, now: nat)
    requires cfg.Valid() && BusOk(cfg, c)
    ensures c.busReady > now || Oldest(bs, ForData(now)).None? ==> DataSlice(cfg, bs, c, now) == (bs, c)
    ensures c.busReady <= now && Oldest(bs, ForData(now)).Some? ==>
              var (r, d) := GrantStep(cfg, bs, c, now);
              NumData(r) == NumData(bs) - 1 && DataSlice(cfg, bs, c, now) == DataSlice(cfg, r, d, now)
  {
    var o := Oldest(bs, ForData(now));
    if c.busReady <= now && o.Some? {
      var k := o.value;
      var (d, ready) := Acquire(cfg, c, bs[k].current.value.size, now);
      NumDataUpdate(bs, k, GrantBank(bs[k], now, ready));
    }
  }

  class Controller {
    const cfg: Config
    var banks: array<Bank>
    var channels: array<Channel>
    var outBuffer: seq<Req>
    var delayed: seq<Req>
    var cycle: nat
    var total: int
    var completed: int
    var starve: int
    /** What left and what came in, for stating properties only. */
    ghost var sent: seq<Req>
    ghost var freed: seq<Req>
    ghost var accepted: seq<nat>

    ghost predicate Valid()
      reads this, banks, channels
    {
      cfg.Valid() && banks.Length == cfg.numBanks && channels.Length == cfg.numChannels
      && BusesOk(cfg, channels[..])
    }

    ghost function Abs(): (s: Ctrl)
      reads this, banks, channels
    {
      Ctrl(banks[..], channels[..], Output(outBuffer, delayed, sent, freed), cycle,
           total, completed, starve, accepted)
    }

    constructor (c: Config)
      requires c.Valid()
      ensures cfg == c && Valid() && Abs() == Start(c)
      ensures fresh(banks) && fresh(channels)
    {
      cfg := c;
      banks := new Bank[c.numBanks](_ => FreshBank(c));
      channels := new Channel[c.numChannels](_ => Channel(c.busWidth, 0, 0));
      outBuffer, delayed, sent, freed, accepted := [], [], [], [], [];
      cycle, total, completed, starve := 0, 0, 0, 0;
      new;
      assert banks[..] == Start(c).banks;
      assert channels[..] == Start(c).channels;
    }

    // ---------- insertion ----------

    method FlushPrefetch(bid: nat)
      requires Valid() && bid < banks.Length && BankOk(cfg, banks[bid])
      modifies banks, `total, `freed
      ensures Valid() && Abs() == Flush(old(Abs()), bid)
    {
      var b := banks[bid];
      var doneList: seq<Entry> := [];
      var i := 0;
      while i < |b.buffer|
        invariant i <= |b.buffer| && doneList == Keep(b.buffer[..i], Prefetch)
      {
        assert b.buffer[..i + 1][..i] == b.buffer[..i];
        if b.buffer[i].req.kind == DPrf { doneList := doneList + [b.buffer[i]]; }
        i := i + 1;
      }
      assert b.buffer[..i] == b.buffer;
      var buffer := RemoveEach(b.buffer, SlotOf, doneList);
      freed := freed + Reqs(doneList);
      total := total - |doneList|;
      DropByObject(cfg, b, Prefetch);
      banks[bid] := b.(buffer := buffer, free := b.free + doneList);
      assert banks[..] == old(banks[..])[bid := FlushBank(b)];
    }

    method InsertReqInDrb(a: Arrival)
      requires Valid() && a.bid < banks.Length && banks[a.bid].free != []
      modifies banks, `total, `accepted
      ensures Valid() && Abs() == Accept(old(Abs()), a)
    {
      var b := banks[a.bid];
      var e := SetEntry(b.free[0], a, cycle);
      banks[a.bid] := b.(free := b.free[1..], buffer := b.buffer + [e]);
      total := total + 1;
      accepted := accepted + [a.req.id];
      assert banks[..] == old(banks[..])[a.bid := BufferArrival(b, a, cycle)];
    }

    method InsertNewReq(a: Arrival) returns (ok: bool)
      requires Valid() && a.bid < banks.Length && BankOk(cfg, banks[a.bid])
      modifies banks, `total, `accepted, `freed
      ensures Valid() && (Abs(), ok) == Insert(old(Abs()), a)
    {
      if banks[a.bid].free == [] {
        FlushPrefetch(a.bid);
        if banks[a.bid].free == [] { return false; }
      }
      InsertReqInDrb(a);
      return true;
    }

    // ---------- commands and data ----------

    /** The arbiter loop over one channel's banks. */
    method PickBank(ch: nat, w: Want) returns (bank: Option<nat>)
      requires Valid() && ch < cfg.numChannels
      ensures bank == Oldest(Slice(cfg, banks[..], ch), w)
      ensures bank.Some? ==> cfg.Lo(ch) + bank.value < banks.Length
    {
      SliceFits(cfg, ch);
      var lo, n := cfg.Lo(ch), cfg.PerChannel();
      ghost var bs := Slice(cfg, banks[..], ch);
      bank := None;
      var j := 0;
      while j < n
        invariant j <= n
        invariant bank == Oldest(bs[..j], w)
      {
        assert bs[..j + 1][..j] == bs[..j] && bs[..j + 1][j] == bs[j] == banks[lo + j];
        assert bank.Some? ==> bs[bank.value] == banks[lo + bank.value];
        if Wants(banks[lo + j], w)
           && (bank.None? || banks[lo + j].timestamp < banks[lo + bank.value].timestamp)
        {
          bank := Some(j);
        }
        j := j + 1;
      }
      assert bs[..n] == bs;
    }

    method IssueChannel(ch: nat)
      requires Valid() && ch < cfg.numChannels
      modifies banks
      ensures Valid()
      ensures banks[..] == Splice(cfg, old(banks[..]), ch, CmdSlice(cfg, Slice(cfg, old(banks[..]), ch), cycle))
    {
      SliceFits(cfg, ch);
      ghost var was := banks[..];
      SpliceSame(cfg, was, ch);
      var bank := PickBank(ch, ForCmd);
      if bank.Some? {
        var k := cfg.Lo(ch) + bank.value;
        assert Slice(cfg, was, ch)[bank.value] == banks[k];
        var b := IssueCmd(cfg, banks[k], cycle);
        SpliceUpdate(cfg, was, ch, bank.value, b);
        banks[k] := b;
        assert banks[..] == was[k := b];
      }
    }

    method ChannelScheduleCmd()
      requires Valid()
      modifies banks
      ensures Valid()
      ensures banks[..] == CmdUpTo(cfg, old(banks[..]), cycle, cfg.numChannels)
    {
      hide CmdSlice;
      var ch := 0;
      while ch < cfg.numChannels
        invariant ch <= cfg.numChannels && Valid()
        invariant banks[..] == CmdUpTo(cfg, old(banks[..]), cycle, ch)
      {
        IssueChannel(ch);
        ch := ch + 1;
      }
    }

    predicate AvailDataBus(ch: nat)
      requires ch < channels.Length
      reads this, channels
    {
      channels[ch].busReady <= cycle
    }

    method AcquireDataBus(ch: nat, size: nat) returns (latency: nat)
      requires Valid() && ch < channels.Length
      modifies channels
      ensures Valid()
      ensures var (c, ready) := Acquire(cfg, old(channels[ch]), size, cycle);
              latency == ready && channels[..] == old(channels[..])[ch := c]
    {
      var c := channels[ch];
      assert BusOk(cfg, channels[..][ch]);
      if size < c.byteAvail {
        latency := cycle;
        channels[ch] := Channel(c.byteAvail - size, latency, c.granted + size);
      } else {
        latency := cycle + (size - c.byteAvail) / cfg.busWidth + 1;
        channels[ch] := Channel(cfg.busWidth - (size - c.byteAvail) % cfg.busWidth, latency, c.granted + size);
      }
      assert channels[..] == old(channels[..])[ch := Acquire(cfg, c, size, cycle).0];
      assert BusOk(cfg, channels[ch]);
    }

    method ChannelScheduleData()
      requires Valid()
      modifies banks, channels
      ensures Valid()
      ensures (banks[..], channels[..])
           == DataUpTo(cfg, old(banks[..]), old(channels[..]), cycle, cfg.numChannels)
    {
      var ch := 0;
      while ch < cfg.numChannels
        invariant ch <= cfg.numChannels && BusesOk(cfg, channels[..])
        invariant (banks[..], channels[..]) == DataUpTo(cfg, old(banks[..]), old(channels[..]), cycle, ch)
      {
        assert BusOk(cfg, channels[..][ch]);
        ServeChannel(ch);
        ch := ch + 1;
      }
    }

    /** One pass of the loop over a free bus; `found` is false when no bank has data. */
    method GrantOne(ch: nat) returns (found: bool)
      requires Valid() && ch < cfg.numChannels && AvailDataBus(ch)
      requires BusOk(cfg, channels[ch])
      modifies banks, channels
      ensures Valid() && channels[..] == old(channels[..])[ch := channels[ch]]
      ensures found == Oldest(Slice(cfg, old(banks[..]), ch), ForData(cycle)).Some?
      ensures !found ==> banks[..] == old(banks[..]) && channels[..] == old(channels[..])
      ensures found ==>
                var (r, d) := GrantStep(cfg, Slice(cfg, old(banks[..]), ch), old(channels[ch]), cycle);
                channels[ch] == d && banks[..] == Splice(cfg, old(banks[..]), ch, r)
    {
      SliceFits(cfg, ch);
      ghost var was := banks[..];
      var bank := PickBank(ch, ForData(cycle));
      found := bank.Some?;
      if bank.Some? {
        var k := cfg.Lo(ch) + bank.value;
        var b := banks[k];
        assert Slice(cfg, was, ch)[bank.value] == b;
        var ready := AcquireDataBus(ch, b.current.value.size);
        var g := GrantBank(b, cycle, ready);
        SpliceUpdate(cfg, was, ch, bank.value, g);
        banks[k] := g;
        assert banks[..] == was[k := g];
      }
    }

    method ServeChannel(ch: nat)
      requires Valid() && ch < cfg.numChannels && BusOk(cfg, channels[ch])
      modifies banks, channels
      ensures Valid()
      ensures var (bs, c) := DataSlice(cfg, Slice(cfg, old(banks[..]), ch), old(channels[ch]), cycle);
              banks[..] == Splice(cfg, old(banks[..]), ch, bs) && channels[..] == old(channels[..])[ch := c]
    {
      hide DataSlice;
      hide GrantStep;
      hide Slice;
      hide Splice;
      ghost var was, cs := banks[..], channels[..];
      ghost var bs := Slice(cfg, was, ch);
      ghost var goal := DataSlice(cfg, bs, cs[ch], cycle);
      SpliceSame(cfg, was, ch);
      DataSliceStep(cfg, bs, channels[ch], cycle);
      var found := true;
      while found && AvailDataBus(ch)
        invariant Valid() && |bs| == cfg.PerChannel() && channels[..] == cs[ch := channels[ch]]
        invariant BusOk(cfg, channels[ch])
        invariant banks[..] == Splice(cfg, was, ch, bs) && Slice(cfg, banks[..], ch) == bs
        invariant DataSlice(cfg, bs, channels[ch], cycle) == goal
        invariant !found || !AvailDataBus(ch) ==> (bs, channels[ch]) == goal
        decreases found, NumData(bs)
      {
        DataSliceStep(cfg, bs, channels[ch], cycle);
        ghost var c := channels[ch];
        found := GrantOne(ch);
        if found {
          ghost var r := GrantStep(cfg, bs, c, cycle).0;
          SpliceTwice(cfg, was, ch, bs, r);
          bs := r;
          DataSliceStep(cfg, bs, channels[ch], cycle);
        }
      }
    }

    // ---------- completion and selection ----------

    /** A finished request leaves for the network or back to the memory system. */
    method RetireReq(r: Req)
      modifies `outBuffer, `delayed, `freed
      ensures Output(outBuffer, delayed, sent, freed)
           == Retire(cfg, old(Output(outBuffer, delayed, sent, freed)), r, cycle)
    {
      if r.kind == Wb {
        freed := freed + [r];
      } else if cfg.additional > 0 {
        delayed := delayed + [r.(rdyCycle := cycle + cfg.additional)];
      } else {
        outBuffer := outBuffer + [r];
      }
    }

    /** The scan for buffered requests to the completed address. */
    method RetireSame(i: nat) returns (same: seq<Entry>)
      requires Valid() && i < banks.Length && banks[i].current.Some?
      modifies `outBuffer, `delayed, `freed, `completed
      ensures Valid() && same == Keep(banks[i].buffer, ByAddr(banks[i].current.value.addr))
      ensures Output(outBuffer, delayed, sent, freed)
           == RetireAll(cfg, old(Output(outBuffer, delayed, sent, freed)), same, cycle)
      ensures completed == if same != [] then ToInt32(cycle) else old(completed)
    {
      var b := banks[i];
      var p := ByAddr(b.current.value.addr);
      ghost var o := Output(outBuffer, delayed, sent, freed);
      same := [];
      var j := 0;
      while j < |b.buffer|
        invariant j <= |b.buffer| && same == Keep(b.buffer[..j], p)
        invariant Output(outBuffer, delayed, sent, freed) == RetireAll(cfg, o, same, cycle)
        invariant completed == if same != [] then ToInt32(cycle) else old(completed)
      {
        var e := b.buffer[j];
        assert b.buffer[..j + 1][..j] == b.buffer[..j];
        if e.addr == b.current.value.addr {
          RetireReq(e.req);
          assert (same + [e])[..|same|] == same;
          same := same + [e];
          completed := ToInt32(cycle);
        }
        j := j + 1;
      }
      assert b.buffer[..j] == b.buffer;
    }

    method MergeSame(i: nat)
      requires Valid() && i < banks.Length && BankOk(cfg, banks[i]) && banks[i].current.Some?
      modifies banks, `outBuffer, `delayed, `freed, `total, `completed
      ensures Valid()
      ensures var b := old(banks[i]);
              var m := Keep(b.buffer, ByAddr(b.current.value.addr));
              && banks[..] == old(banks[..])[i := b.(buffer := Drop(b.buffer, ByAddr(b.current.value.addr)),
                                                     free := b.free + ResetAll(m))]
              && Output(outBuffer, delayed, sent, freed)
                 == RetireAll(cfg, old(Output(outBuffer, delayed, sent, freed)), m, cycle)
              && total == old(total) - |m|
              && completed == if m != [] then ToInt32(cycle) else old(completed)
    {
      var b := banks[i];
      DropByObject(cfg, b, ByAddr(b.current.value.addr));
      var same := RetireSame(i);
      var buffer := RemoveEach(b.buffer, SlotOf, same);
      total := total - |same|;
      banks[i] := b.(buffer := buffer, free := b.free + ResetAll(same));
      assert banks[..] == old(banks[..])[i := banks[i]];
    }

    /** Retires the current request; `merged` were retired just before it. */
    method FinishCurrent(i: nat, ghost b0: Bank, ghost merged: seq<Entry>)
      requires Valid() && i < banks.Length && Completes(b0, cycle) && merged == Merged(cfg, b0)
      requires banks[i] == b0.(buffer := if cfg.merge then Drop(b0.buffer, ByAddr(b0.current.value.addr)) else b0.buffer,
                               free := b0.free + ResetAll(merged))
      modifies banks, `outBuffer, `delayed, `freed, `total, `completed
      ensures Valid()
      ensures banks[..] == old(banks[..])[i := CompleteBank(cfg, b0, cycle)]
      ensures Output(outBuffer, delayed, sent, freed)
           == Retire(cfg, old(Output(outBuffer, delayed, sent, freed)), b0.current.value.req, cycle)
      ensures total == old(total) - 1 && completed == ToInt32(old(completed) + 1)
    {
      var b := banks[i];
      var e := b.current.value;
      RetireReq(e.req);
      banks[i] := b.(free := b.free + [Reset(e)], current := None, dataReady := Never,
                     log := b.log + [Done(cycle)]);
      completed := ToInt32(completed + 1);
      total := total - 1;
      assert banks[..] == old(banks[..])[i := banks[i]];
    }

    method CompleteCurrent(i: nat)
      requires Valid() && i < banks.Length && BankOk(cfg, banks[i])
      modifies banks, `outBuffer, `delayed, `freed, `total, `completed
      ensures Valid() && Abs() == CompleteOne(cfg, old(Abs()), i)
    {
      ghost var was, b0 := banks[..], banks[i];
      if banks[i].current.Some? && banks[i].dataReady.Reached(cycle) {
        CompletesInDataWait(cfg, banks[i], cycle);
        if cfg.merge { MergeSame(i); } else { assert b0.free + ResetAll([]) == b0.free; }
        ghost var mid := banks[..];
        hide CompleteBank;
        FinishCurrent(i, b0, Merged(cfg, b0));
        assert banks[..] == was[i := CompleteBank(cfg, b0, cycle)];
      }
    }

    method BankScheduleComplete()
      requires Valid() && BanksOk(cfg, banks[..])
      modifies banks, `outBuffer, `delayed, `freed, `total, `completed
      ensures Valid() && Abs() == CompleteUpTo(cfg, old(Abs()), cfg.numBanks)
    {
      completed := 0;
      var i := 0;
      while i < banks.Length
        invariant i <= banks.Length && Valid()
        invariant Abs() == CompleteUpTo(cfg, old(Abs()), i)
      {
        CompleteUpToFrame(cfg, old(Abs()), i);
        assert banks[i] == Abs().banks[i] == old(banks[..])[i];
        CompleteCurrent(i);
        i := i + 1;
      }
    }

    method BankScheduleNew()
      requires Valid()
      modifies banks
      ensures Valid()
      ensures banks[..] == SelectUpTo(cfg, old(banks[..]), cycle, cfg.numBanks)
    {
      var i := 0;
      while i < banks.Length
        invariant i <= banks.Length
        invariant banks[..] == SelectUpTo(cfg, old(banks[..]), cycle, i)
      {
        var b := banks[i];
        if b.buffer != [] || b.current.Some? {
          if b.current.None? {
            var xs := Schedule(cfg, b);
            banks[i] := b.(buffer := xs[1..], current := Some(xs[0].(state := Cmd, scheduled := cycle)),
                           bankReady := Never, timestamp := cycle, log := b.log + [Select(cycle, xs[0].rid)]);
          } else if b.bankReady.Reached(cycle) && b.current.value.state == CmdWait {
            banks[i] := b.(bankReady := Never, current := Some(b.current.value.(state := Cmd)), timestamp := cycle);
          }
        }
        assert banks[..] == SelectUpTo(cfg, old(banks[..]), cycle, i)[i := SelectBank(cfg, b, cycle)];
        i := i + 1;
      }
    }

    // ---------- output ----------

    method DelayPacket()
      requires Valid()
      modifies `outBuffer, `delayed
      ensures Valid() && Abs() == Delay(old(Abs()))
    {
      var n := 0;
      while n < |delayed| && delayed[n].rdyCycle <= cycle
        invariant delayed == old(delayed) && n <= |delayed|
        invariant outBuffer == old(outBuffer) + delayed[..n]
        invariant ReadyPrefix(delayed, cycle) == n + ReadyPrefix(delayed[n..], cycle)
      {
        assert delayed[n..][1..] == delayed[n + 1..];
        outBuffer := outBuffer + [delayed[n]];
        n := n + 1;
      }
      delayed := delayed[n..];
    }

    method ProgressCheck()
      requires Valid()
      modifies `starve
      ensures Valid() && Abs() == Progress(old(Abs()))
    {
      if total > 0 && completed == 0 { starve := starve + 1; } else { starve := 0; }
    }

    /** One pass of `send_packet` over the output buffer: requests of the allowed classes are
        offered in order until one is refused. */
    method SendPass(accept: seq<bool>, allowed: Classes) returns (went: seq<Req>, tried: Classes)
      requires |accept| == |outBuffer|
      ensures went == PassSent(outBuffer, accept, allowed)
      ensures tried == PassTried(outBuffer, accept, allowed)
    {
      went, tried := [], NEITHER;
      var p := 0;
      while p < |outBuffer|
        invariant p <= |outBuffer|
        invariant PassSent(outBuffer, accept, allowed) == went + PassSent(outBuffer[p..], accept[p..], allowed)
        invariant PassTried(outBuffer, accept, allowed) == tried.Join(PassTried(outBuffer[p..], accept[p..], allowed))
      {
        var req := outBuffer[p];
        assert outBuffer[p..][1..] == outBuffer[p + 1..] && accept[p..][1..] == accept[p + 1..];
        if allowed.Has(req.gpu) {
          tried := tried.Add(req.gpu);
          if !accept[p] { return; }
          went := went + [req];
        }
        p := p + 1;
      }
    }

    method SendPacket(accept: seq<bool>)
      requires Valid() && |accept| == |outBuffer| && Distinct(outBuffer, IdOf)
      modifies `outBuffer, `sent
      ensures Valid() && Abs() == Send(old(Abs()), accept, cfg.vcPartition)
    {
      var went, tried := SendPass(accept, Classes(true, true));
      if cfg.vcPartition && !(tried.cpu && tried.gpu) {
        var more, _ := SendPass(accept, Classes(!tried.cpu, !tried.gpu));
        went := went + more;
      }
      TwoPasses(outBuffer, accept, cfg.vcPartition);
      SentByObject(outBuffer, SendMask(outBuffer, accept, cfg.vcPartition, First(false, false)));
      assert went == Pick1(outBuffer, SendMask(outBuffer, accept, cfg.vcPartition, First(false, false)), true);
      sent := sent + went;
      outBuffer := RemoveEach(outBuffer, IdOf, went);
    }

    // ---------- a cycle ----------

    method ChannelSchedule()
      requires Valid()
      modifies banks, channels
      ensures Valid() && Abs() == Channels(cfg, old(Abs()))
    {
      ChannelScheduleCmd();
      ChannelScheduleData();
    }

    method BankSchedule()
      requires Valid() && BanksOk(cfg, banks[..])
      modifies banks, `outBuffer, `delayed, `freed, `total, `completed
      ensures Valid() && Abs() == Banks(cfg, old(Abs()))
    {
      BankScheduleComplete();
      BankScheduleNew();
    }

    method EmitPackets(accept: seq<bool>)
      requires Valid() && |accept| == |outBuffer| && Distinct(outBuffer, IdOf)
      modifies `outBuffer, `delayed, `sent
      ensures Valid() && Abs() == Emit(cfg, old(Abs()), accept)
    {
      SendPacket(accept);
      if cfg.additional > 0 { DelayPacket(); }
    }

    /** `receive_packet`: at most one packet, which stays in the router when it does not fit. */
    method ReceivePacket(arrival: Option<Arrival>)
      requires Valid() && Placed(Abs(), arrival) && BanksOk(cfg, banks[..])
      modifies banks, `total, `accepted, `freed
      ensures Valid() && Abs() == Receive(old(Abs()), arrival)
    {
      if arrival.Some? {
        assert banks[arrival.value.bid] == banks[..][arrival.value.bid];
        var _ := InsertNewReq(arrival.value);
      }
    }

    /** The part of a cycle before packets are received. */
    method SendAndSchedule(accept: seq<bool>)
      requires Valid() && Conserved(cfg, Abs()) && |accept| == |outBuffer|
      modifies this, banks, channels
      ensures Valid() && banks == old(banks) && channels == old(channels)
      ensures Abs() == Banks(cfg, Channels(cfg, Emit(cfg, old(Abs()), accept)))
    {
      ghost var s := Abs();
      CycleStages(cfg, s, accept);
      hide Conserved;
      hide Emit;
      hide Channels;
      hide Banks;
      EmitPackets(accept);
      ChannelSchedule();
      BankSchedule();
    }

    /** The rest of the cycle. */
    method ReceiveAndCheck(arrival: Option<Arrival>)
      requires Valid() && Placed(Abs(), arrival) && BanksOk(cfg, banks[..])
      modifies this, banks
      ensures Valid() && banks == old(banks) && channels == old(channels)
      ensures Abs() == Closing(old(Abs()), arrival)
    {
      hide Insert;
      hide BanksOk;
      ReceivePacket(arrival);
      hide Receive;
      ProgressCheck();
      cycle := cycle + 1;
    }

    /** `run_a_cycle`: the whole cycle is the model's step, and everything conserved stays so. */
    method RunACycle(accept: seq<bool>, arrival: Option<Arrival>)
      requires Valid() && Conserved(cfg, Abs()) && OpOk(cfg, Abs(), Cycle(accept, arrival))
      modifies this, banks, channels
      ensures Valid() && banks == old(banks) && channels == old(channels)
      ensures Abs() == Tick(cfg, old(Abs()), accept, arrival) && Conserved(cfg, Abs())
    {
      ghost var s := Abs();
      CycleStages(cfg, s, accept);
      TickStages(cfg, s, accept, arrival);
      hide Tick;
      hide Conserved;
      hide Emit;
      hide Channels;
      hide Banks;
      hide Receive;
      hide Closing;
      SendAndSchedule(accept);
      ReceiveAndCheck(arrival);
    }
  }

  function Closing(s: Ctrl, arrival: Option<Arrival>): Ctrl
    requires Placed(s, arrival)
  {
    var d := Progress(Receive(s, arrival));
    d.(cycle := d.cycle + 1)
  }

  lemma TickStages(cfg: Config, s: Ctrl, accept: seq<bool>, arrival: Option<Arrival>)
    requires Conserved(cfg, s) && OpOk(cfg, s, Cycle(accept, arrival))
    ensures var c := Banks(cfg, Channels(cfg, Emit(cfg, s, accept)));
            Placed(c, arrival) && Tick(cfg, s, accept, arrival) == Closing(c, arrival)
    ensures Conserved(cfg, Tick(cfg, s, accept, arrival))
  {
    CycleStages(cfg, s, accept);
    TickConserves(cfg, s, accept, arrival);
    hide Conserved;
    hide Banks;
    hide Channels;
    hide Emit;
    hide BankOk;
  }

  lemma CycleStages(cfg: Config, s: Ctrl, accept: seq<bool>)
    requires Conserved(cfg, s) && |accept| == |s.out.buffer|
    ensures Distinct(s.out.buffer, IdOf)
    ensures var a := Emit(cfg, s, accept);
            && Shape(cfg, a) && Shape(cfg, Channels(cfg, a))
            && BanksOk(cfg, Channels(cfg, a).banks)
            && |Banks(cfg, Channels(cfg, a)).banks| == |s.banks| && BanksOk(cfg, Banks(cfg, Channels(cfg, a)).banks)
  {
    OutputDistinct(s);
    SendConserves(cfg, s, accept, cfg.vcPartition);
    DelayConserves(cfg, Send(s, accept, cfg.vcPartition));
    ChannelsConserve(cfg, Emit(cfg, s, accept));
    BanksConserve(cfg, Channels(cfg, Emit(cfg, s, accept)));
  }
}
