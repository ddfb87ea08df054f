/**
 The built-in DRAM controller (src/dram.cc, src/dram.h) as values: requests, request-buffer
 entries, banks, channels and the whole controller, with one function per step of
 `run_a_cycle`. `DramController.dfy` proves the imperative controller equal to these functions.
 */
module DramModel {
  import opened Options

  // ---------- values ----------

  /** A `Counter` that the source sets to ULLONG_MAX is `Never`. */
  datatype Time = Never | At(t: nat) {
    predicate Reached(now: nat) {
      At? && t <= now
    }
  }

  datatype ReqType =
    | IFetch | DFetch | DStore | IPrf | DPrf | Wb
    | SwDPrf | SwDPrfNta | SwDPrfT0 | SwDPrfT1 | SwDPrfT2

  /** A memory request; `id` stands for the request's identity (its pointer). */
  datatype Req = Req(id: nat, kind: ReqType, addr: nat, size: nat, gpu: bool, rdyCycle: nat)

  const NO_REQ := Req(0, IFetch, 0, 0, false, 0)

  datatype Phase = Init | Cmd | CmdWait | Data | DataWait

  /** A request-buffer entry; `slot` is the identity of the entry object. */
  datatype Entry = Entry(slot: nat, state: Phase, addr: nat, rid: int, cid: int, req: Req,
                         size: nat, timestamp: nat, scheduled: nat)

  /** What a bank did, kept only to state the command protocol. */
  datatype Event =
    | Select(at: nat, row: int)
    | Precharge(at: nat)
    | Activate(at: nat, row: int)
    | Column(at: nat, row: int)
    | Transfer(at: nat, until: nat)
    | Done(at: nat)

  datatype Bank = Bank(buffer: seq<Entry>, free: seq<Entry>, current: Option<Entry>, openRow: int,
                       dataReady: Time, dataAvail: Time, bankReady: Time, timestamp: nat,
                       log: seq<Event>)

  /** `granted` counts the bytes handed to the bus, as `total_dram_bandwidth` does globally. */
  datatype Channel = Channel(byteAvail: int, busReady: nat, granted: nat)

  /** Where requests go: `sent` were injected into the network, `freed` were handed back to
      the memory system (`free_req`). */
  datatype Output = Output(buffer: seq<Req>, delayed: seq<Req>, sent: seq<Req>, freed: seq<Req>)

  datatype Ctrl = Ctrl(banks: seq<Bank>, channels: seq<Channel>, out: Output, cycle: nat,
                       total: int, completed: int, starve: int, accepted: seq<nat>)

  datatype Config = Config(numBanks: nat, numChannels: nat, busWidth: nat, bufferSize: nat,
                           precharge: nat, activate: nat, column: nat, additional: nat,
                           merge: bool, frfcfs: bool, vcPartition: bool)
  {
    predicate Valid() {
      numChannels > 0 && busWidth > 0
    }

    function PerChannel(): nat
      requires Valid()
    {
      numBanks / numChannels
    }

    function Lo(ch: nat): nat
      requires Valid()
    {
      ch * PerChannel()
    }
  }

  /** An arriving request with its decoded bank, row and column. */
  datatype Arrival = Arrival(req: Req, bid: nat, rid: int, cid: int)

  // ---------- 32-bit int arithmetic of `m_num_completed_in_last_cycle` ----------

  function ToInt32(x: int): int {
    var m := x % 0x1_0000_0000;
    if m < 0x8000_0000 then m else m - 0x1_0000_0000
  }

  // ---------- selecting entries from a buffer ----------

  datatype Pick = ByAddr(addr: nat) | Prefetch

  predicate Matches(e: Entry, p: Pick) {
    match p
    case ByAddr(a) => e.addr == a
    case Prefetch => e.req.kind == DPrf
  }

  function Keep(xs: seq<Entry>, p: Pick): (ys: seq<Entry>)
    ensures |ys| <= |xs|
  {
    if xs == [] then []
    else Keep(xs[..|xs|-1], p) + (if Matches(xs[|xs|-1], p) then [xs[|xs|-1]] else [])
  }

  function Drop(xs: seq<Entry>, p: Pick): (ys: seq<Entry>)
    ensures |ys| <= |xs|
  {
    if xs == [] then []
    else Drop(xs[..|xs|-1], p) + (if Matches(xs[|xs|-1], p) then [] else [xs[|xs|-1]])
  }

  function Reset(e: Entry): Entry {
    Entry(e.slot, Init, 0, -1, -1, NO_REQ, 0, 0, 0)
  }

  function ResetAll(xs: seq<Entry>): (ys: seq<Entry>)
    ensures |ys| == |xs|
  {
    if xs == [] then [] else ResetAll(xs[..|xs|-1]) + [Reset(xs[|xs|-1])]
  }

  function Reqs(xs: seq<Entry>): (ys: seq<Req>)
    ensures |ys| == |xs|
  {
    if xs == [] then [] else Reqs(xs[..|xs|-1]) + [xs[|xs|-1].req]
  }

  // ---------- insertion and prefetch flush ----------

  /** `flush_prefetch`: every buffered hardware prefetch of the bank is given back; its entry
      is not reset. */
  function FlushBank(b: Bank): Bank {
    b.(free := b.free + Keep(b.buffer, Prefetch), buffer := Drop(b.buffer, Prefetch))
  }

  /** `drb_entry_s::set` followed by the timestamp: the entry's state and scheduled cycle are
      left as they were. */
  function SetEntry(e: Entry, a: Arrival, now: nat): Entry {
    Entry(e.slot, e.state, a.req.addr, a.rid, a.cid, a.req, a.req.size, now, e.scheduled)
  }

  function BufferArrival(b: Bank, a: Arrival, now: nat): Bank
    requires b.free != []
  {
    b.(free := b.free[1..], buffer := b.buffer + [SetEntry(b.free[0], a, now)])
  }

  function Flush(s: Ctrl, bid: nat): Ctrl
    requires bid < |s.banks|
  {
    var b := s.banks[bid];
    var gone := Keep(b.buffer, Prefetch);
    s.(banks := s.banks[bid := FlushBank(b)],
       out := s.out.(freed := s.out.freed + Reqs(gone)),
       total := s.total - |gone|)
  }

  function Accept(s: Ctrl, a: Arrival): Ctrl
    requires a.bid < |s.banks| && s.banks[a.bid].free != []
  {
    s.(banks := s.banks[a.bid := BufferArrival(s.banks[a.bid], a, s.cycle)],
       total := s.total + 1,
       accepted := s.accepted + [a.req.id])
  }

  /** `insert_new_req` after address decoding; the flag is its result. */
  function Insert(s: Ctrl, a: Arrival): (r: (Ctrl, bool))
    requires a.bid < |s.banks|
  {
    if s.banks[a.bid].free != [] then (Accept(s, a), true)
    else
      var f := Flush(s, a.bid);
      if f.banks[a.bid].free != [] then (Accept(f, a), true) else (f, false)
  }

  // ---------- output ----------

  /** Scanning state of `send_packet`: the first pass with the classes it has tried so far,
      the second pass for the class the first one never tried, or finished. */
  datatype Scan = First(cpu: bool, gpu: bool) | Second(gpuOnly: bool) | Halt

  function AfterReject(cpu: bool, gpu: bool, vc: bool): Scan {
    if vc && !cpu then Second(false) else if vc && !gpu then Second(true) else Halt
  }

  /** Which requests of the output buffer one `send_packet` injects, as one scan; `accept` is
      the network's answer for each position. */
  function SendMask(xs: seq<Req>, accept: seq<bool>, vc: bool, scan: Scan): (mask: seq<bool>)
    requires |accept| == |xs|
    ensures |mask| == |xs|
  {
    if xs == [] then []
    else
      match scan
      case Halt => [false] + SendMask(xs[1..], accept[1..], vc, Halt)
      case First(cpu, gpu) =>
        var cpu', gpu' := cpu || !xs[0].gpu, gpu || xs[0].gpu;
        if accept[0] then [true] + SendMask(xs[1..], accept[1..], vc, First(cpu', gpu'))
        else [false] + SendMask(xs[1..], accept[1..], vc, AfterReject(cpu', gpu', vc))
      case Second(only) =>
        if xs[0].gpu != only then [false] + SendMask(xs[1..], accept[1..], vc, scan)
        else if accept[0] then [true] + SendMask(xs[1..], accept[1..], vc, scan)
        else [false] + SendMask(xs[1..], accept[1..], vc, Halt)
  }

  function Pick1(xs: seq<Req>, mask: seq<bool>, want: bool): (ys: seq<Req>)
    requires |mask| == |xs|
  {
    if xs == [] then []
    else Pick1(xs[..|xs|-1], mask[..|xs|-1], want)
         + (if mask[|xs|-1] == want then [xs[|xs|-1]] else [])
  }

  function Send(s: Ctrl, accept: seq<bool>, vc: bool): Ctrl
    requires |accept| == |s.out.buffer|
  {
    var mask := SendMask(s.out.buffer, accept, vc, First(false, false));
    s.(out := s.out.(buffer := Pick1(s.out.buffer, mask, false),
                     sent := s.out.sent + Pick1(s.out.buffer, mask, true)))
  }

  /** Number of requests at the head of the delay buffer that are ready. */
  function ReadyPrefix(xs: seq<Req>, now: nat): (n: nat)
    ensures n <= |xs|
  {
    if xs == [] || xs[0].rdyCycle > now then 0 else 1 + ReadyPrefix(xs[1..], now)
  }

  function Delay(s: Ctrl): Ctrl {
    var n := ReadyPrefix(s.out.delayed, s.cycle);
    s.(out := s.out.(buffer := s.out.buffer + s.out.delayed[..n], delayed := s.out.delayed[n..]))
  }

  // ---------- command scheduling ----------

  predicate WantsCmd(b: Bank) {
    b.current.Some? && b.current.value.state == Cmd
  }

  predicate WantsData(b: Bank, now: nat) {
    b.current.Some? && b.current.value.state == Data && b.dataAvail.Reached(now)
  }

  datatype Want = ForCmd | ForData(now: nat)

  predicate Wants(b: Bank, w: Want) {
    match w
    case ForCmd => WantsCmd(b)
    case ForData(now) => WantsData(b, now)
  }

  /** The arbiter shared by `channel_schedule_cmd` and `channel_schedule_data`: the waiting
      bank with the smallest timestamp, the lowest index among equals. */
  function Oldest(bs: seq<Bank>, w: Want): (r: Option<nat>)
    ensures r.Some? ==> r.value < |bs| && Wants(bs[r.value], w)
  {
    if bs == [] then None
    else
      var n := |bs| - 1;
      var r := Oldest(bs[..n], w);
      if Wants(bs[n], w) && (r.None? || bs[n].timestamp < bs[r.value].timestamp) then Some(n) else r
  }

  /** One command for the bank's current request: activate a closed bank, access the column of
      the matching open row, otherwise precharge. */
  function IssueCmd(cfg: Config, b: Bank, now: nat): Bank
    requires WantsCmd(b)
  {
    var e := b.current.value;
    if b.openRow == -1 then
      b.(openRow := e.rid, bankReady := At(now + cfg.activate), dataAvail := Never,
         current := Some(e.(state := CmdWait)), log := b.log + [Activate(now, e.rid)])
    else if e.rid == b.openRow then
      b.(bankReady := At(now + cfg.column), dataAvail := At(now + cfg.column),
         current := Some(e.(state := Data)), log := b.log + [Column(now, e.rid)])
    else
      b.(openRow := -1, bankReady := At(now + cfg.precharge), dataAvail := Never,
         current := Some(e.(state := CmdWait)), log := b.log + [Precharge(now)])
  }

  /** One channel's command slot. */
  function CmdSlice(cfg: Config, bs: seq<Bank>, now: nat): (r: seq<Bank>)
    ensures |r| == |bs|
  {
    match Oldest(bs, ForCmd)
    case None => bs
    case Some(k) => bs[k := IssueCmd(cfg, bs[k], now)]
  }

  // ---------- data scheduling ----------

  /** `acquire_data_bus`. */
  function Acquire(cfg: Config, c: Channel, size: nat, now: nat): (r: (Channel, nat))
    requires cfg.Valid()
    requires 1 <= c.byteAvail
  {
    if size < c.byteAvail then
      (Channel(c.byteAvail - size, now, c.granted + size), now)
    else
      var over := size - c.byteAvail;
      var latency := now + over / cfg.busWidth + 1;
      (Channel(cfg.busWidth - over % cfg.busWidth, latency, c.granted + size), latency)
  }

  function GrantBank(b: Bank, now: nat, ready: nat): Bank
    requires b.current.Some?
  {
    b.(dataReady := At(ready), dataAvail := Never,
       current := Some(b.current.value.(state := DataWait)),
       log := b.log + [Transfer(now, ready)])
  }

  /** Banks of the slice still holding data to transfer. */
  function NumData(bs: seq<Bank>): nat {
    if bs == [] then 0
    else NumData(bs[..|bs|-1])
         + (if bs[|bs|-1].current.Some? && bs[|bs|-1].current.value.state == Data then 1 else 0)
  }

  lemma NumDataUpdate(bs: seq<Bank>, k: nat, b: Bank)
    requires k < |bs|
    requires bs[k].current.Some? && bs[k].current.value.state == Data
    requires !(b.current.Some? && b.current.value.state == Data)
    ensures NumData(bs[k := b]) == NumData(bs) - 1
  {
    var n := |bs| - 1;
    if k == n {
      assert bs[k := b][..n] == bs[..n];
    } else {
      assert bs[k := b][..n] == bs[..n][k := b];
      NumDataUpdate(bs[..n], k, b);
    }
  }

  /** While the channel's bus is free, the oldest bank with available data gets it. */
  function DataSlice(cfg: Config, bs: seq<Bank>, c: Channel, now: nat): (r: (seq<Bank>, Channel))
    requires cfg.Valid()
    requires 1 <= c.byteAvail
    ensures |r.0| == |bs|
    decreases NumData(bs)
  {
    if c.busReady > now then (bs, c)
    else
      match Oldest(bs, ForData(now))
      case None => (bs, c)
      case Some(k) =>
        var (c', ready) := Acquire(cfg, c, bs[k].current.value.size, now);
        var bs' := bs[k := GrantBank(bs[k], now, ready)];
        NumDataUpdate(bs, k, GrantBank(bs[k], now, ready));
        DataSlice(cfg, bs', c', now)
  }

  // ---------- lifting one channel's step to the controller ----------

  function Slice(cfg: Config, banks: seq<Bank>, ch: nat): (bs: seq<Bank>)
    requires cfg.Valid() && ch < cfg.numChannels && |banks| == cfg.numBanks
    ensures |bs| == cfg.PerChannel()
  {
    SliceFits(cfg, ch);
    banks[cfg.Lo(ch)..cfg.Lo(ch) + cfg.PerChannel()]
  }

  lemma SliceFits(cfg: Config, ch: nat)
    requires cfg.Valid() && ch < cfg.numChannels
    ensures 0 <= cfg.Lo(ch) && cfg.Lo(ch) + cfg.PerChannel() <= cfg.numBanks
    ensures cfg.Lo(ch) + cfg.PerChannel() == cfg.Lo(ch + 1)
  {
    SliceArith(ch, cfg.numChannels, cfg.PerChannel(), cfg.numBanks);
  }

  lemma SliceArith(ch: nat, c: nat, n: nat, total: nat)
    requires ch < c && n == total / c
    ensures 0 <= n
    ensures 0 <= ch * n && ch * n + n == (ch + 1) * n <= total
  {
    MulMono(n, ch + 1, c);
    FloorMul(total, c);
  }

  lemma MulMono(d: nat, x: int, y: int)
    requires x <= y
    ensures d * x <= d * y
  {
    assert d * (y - x) >= 0;
  }

  lemma FloorMul(a: nat, d: nat)
    requires d > 0
    ensures 0 <= a / d && (a / d) * d <= a
  {
    assert a == d * (a / d) + a % d;
  }

  /** The banks with channel `ch`'s slice replaced. */
  function Splice(cfg: Config, banks: seq<Bank>, ch: nat, bs: seq<Bank>): (r: seq<Bank>)
    requires cfg.Valid() && ch < cfg.numChannels && |banks| == cfg.numBanks
    requires |bs| == cfg.PerChannel()
    ensures |r| == |banks|
  {
    SliceFits(cfg, ch);
    banks[..cfg.Lo(ch)] + bs + banks[cfg.Lo(ch) + cfg.PerChannel()..]
  }

  /** `channel_schedule_cmd` over the first `k` channels. */
  function CmdUpTo(cfg: Config, banks: seq<Bank>, now: nat, k: nat): (r: seq<Bank>)
    requires cfg.Valid() && k <= cfg.numChannels && |banks| == cfg.numBanks
    ensures |r| == |banks|
  {
    if k == 0 then banks
    else
      var b := CmdUpTo(cfg, banks, now, k - 1);
      Splice(cfg, b, k - 1, CmdSlice(cfg, Slice(cfg, b, k - 1), now))
  }

  predicate BusOk(cfg: Config, c: Channel) {
    1 <= c.byteAvail <= cfg.busWidth
  }

  predicate BusesOk(cfg: Config, cs: seq<Channel>) {
    forall i :: 0 <= i < |cs| ==> BusOk(cfg, cs[i])
  }

  /** `channel_schedule_data` over the first `k` channels. */
  function DataUpTo(cfg: Config, banks: seq<Bank>, cs: seq<Channel>, now: nat, k: nat)
    : (r: (seq<Bank>, seq<Channel>))
    requires cfg.Valid() && k <= cfg.numChannels
    requires |banks| == cfg.numBanks && |cs| == cfg.numChannels
    requires BusesOk(cfg, cs)
    ensures |r.0| == |banks| && |r.1| == |cs|
    ensures forall i :: k <= i < |cs| ==> r.1[i] == cs[i]
  {
    if k == 0 then (banks, cs)
    else
      var (b, c) := DataUpTo(cfg, banks, cs, now, k - 1);
      var (bs, ch) := DataSlice(cfg, Slice(cfg, b, k - 1), c[k - 1], now);
      (Splice(cfg, b, k - 1, bs), c[k - 1 := ch])
  }

  // ---------- completion ----------

  /** A finished request: a write-back is freed, anything else goes to the output or delay
      buffer. */
  function Retire(cfg: Config, o: Output, r: Req, now: nat): Output {
    if r.kind == Wb then o.(freed := o.freed + [r])
    else if cfg.additional > 0 then o.(delayed := o.delayed + [r.(rdyCycle := now + cfg.additional)])
    else o.(buffer := o.buffer + [r])
  }

  function RetireAll(cfg: Config, o: Output, xs: seq<Entry>, now: nat): Output {
    if xs == [] then o
    else Retire(cfg, RetireAll(cfg, o, xs[..|xs|-1], now), xs[|xs|-1].req, now)
  }

  predicate Completes(b: Bank, now: nat) {
    b.current.Some? && b.dataReady.Reached(now)
  }

  function Merged(cfg: Config, b: Bank): seq<Entry>
    requires b.current.Some?
  {
    if cfg.merge then Keep(b.buffer, ByAddr(b.current.value.addr)) else []
  }

  function CompleteBank(cfg: Config, b: Bank, now: nat): Bank {
    if !Completes(b, now) then b
    else
      var e := b.current.value;
      b.(buffer := if cfg.merge then Drop(b.buffer, ByAddr(e.addr)) else b.buffer,
         free := b.free + ResetAll(Merged(cfg, b)) + [Reset(e)],
         current := None, dataReady := Never, log := b.log + [Done(now)])
  }

  /** The counter of `bank_schedule_complete`: a merge overwrites it with the cycle number,
      truncated to int, before the completed request increments it. */
  function CountCompleted(cfg: Config, b: Bank, now: nat, completed: int): int {
    if !Completes(b, now) then completed
    else ToInt32((if Merged(cfg, b) != [] then ToInt32(now) else completed) + 1)
  }

  function CompleteOne(cfg: Config, s: Ctrl, i: nat): (r: Ctrl)
    requires i < |s.banks|
    ensures |r.banks| == |s.banks|
  {
    var b := s.banks[i];
    if !Completes(b, s.cycle) then s
    else
      s.(banks := s.banks[i := CompleteBank(cfg, b, s.cycle)],
         out := Retire(cfg, RetireAll(cfg, s.out, Merged(cfg, b), s.cycle), b.current.value.req, s.cycle),
         completed := CountCompleted(cfg, b, s.cycle, s.completed),
         total := s.total - |Merged(cfg, b)| - 1)
  }

  /** `bank_schedule_complete` over the first `k` banks. */
  function CompleteUpTo(cfg: Config, s: Ctrl, k: nat): (r: Ctrl)
    requires k <= |s.banks|
    ensures |r.banks| == |s.banks|
  {
    if k == 0 then s.(completed := 0) else CompleteOne(cfg, CompleteUpTo(cfg, s, k - 1), k - 1)
  }

  // ---------- selection ----------

  /** `dc_frfcfs_c::sort_func`: demand before prefetch, row hit before row miss, then age. */
  predicate Before(a: Entry, b: Entry, openRow: int) {
    if a.req.kind != DPrf && b.req.kind == DPrf then true
    else if a.req.kind == DPrf && b.req.kind != DPrf then false
    else if a.rid == openRow && b.rid != openRow then true
    else if a.rid != openRow && b.rid == openRow then false
    else a.timestamp < b.timestamp
  }

  function SortIn(e: Entry, xs: seq<Entry>, openRow: int): (ys: seq<Entry>)
    ensures |ys| == |xs| + 1
  {
    if xs == [] then [e]
    else if Before(xs[0], e, openRow) then [xs[0]] + SortIn(e, xs[1..], openRow)
    else [e] + xs
  }

  /** The stable sort `std::list::sort` performs. */
  function SortBuffer(xs: seq<Entry>, openRow: int): (ys: seq<Entry>)
    ensures |ys| == |xs|
  {
    if xs == [] then [] else SortIn(xs[0], SortBuffer(xs[1..], openRow), openRow)
  }

  /** `schedule`: FR-FCFS sorts the buffer in place, FCFS leaves it; the head is taken. */
  function Schedule(cfg: Config, b: Bank): (ys: seq<Entry>)
    ensures |ys| == |b.buffer|
  {
    if cfg.frfcfs then SortBuffer(b.buffer, b.openRow) else b.buffer
  }

  /** One bank of `bank_schedule_new`: an idle bank takes a buffered request, a bank whose
      command latency has passed becomes ready for its next command. */
  function SelectBank(cfg: Config, b: Bank, now: nat): Bank {
    if b.current.None? then
      if b.buffer == [] then b
      else
        var xs := Schedule(cfg, b);
        b.(buffer := xs[1..], current := Some(xs[0].(state := Cmd, scheduled := now)),
           bankReady := Never, timestamp := now, log := b.log + [Select(now, xs[0].rid)])
    else if b.bankReady.Reached(now) && b.current.value.state == CmdWait then
      b.(bankReady := Never, current := Some(b.current.value.(state := Cmd)), timestamp := now)
    else b
  }

  /** `bank_schedule_new` over the first `k` banks. */
  function SelectUpTo(cfg: Config, banks: seq<Bank>, now: nat, k: nat): (r: seq<Bank>)
    requires k <= |banks|
    ensures |r| == |banks|
    ensures forall i :: 0 <= i < k ==> r[i] == SelectBank(cfg, banks[i], now)
    ensures forall i :: k <= i < |banks| ==> r[i] == banks[i]
  {
    if k == 0 then banks
    else
      var r := SelectUpTo(cfg, banks, now, k - 1);
      r[k - 1 := SelectBank(cfg, r[k - 1], now)]
  }

  // ---------- a whole cycle ----------

  /** `progress_check`; the source aborts when the counter reaches 5000. */
  function Progress(s: Ctrl): Ctrl {
    s.(starve := if s.total > 0 && s.completed == 0 then s.starve + 1 else 0)
  }

  const STARVE_LIMIT := 5000

  predicate Shape(cfg: Config, s: Ctrl) {
    cfg.Valid() && |s.banks| == cfg.numBanks && |s.channels| == cfg.numChannels && BusesOk(cfg, s.channels)
  }

  function Emit(cfg: Config, s: Ctrl, accept: seq<bool>): Ctrl
    requires |accept| == |s.out.buffer|
  {
    var t := Send(s, accept, cfg.vcPartition);
    if cfg.additional > 0 then Delay(t) else t
  }

  function Channels(cfg: Config, s: Ctrl): Ctrl
    requires Shape(cfg, s)
  {
    var banks := CmdUpTo(cfg, s.banks, s.cycle, cfg.numChannels);
    var (banks', cs) := DataUpTo(cfg, banks, s.channels, s.cycle, cfg.numChannels);
    s.(banks := banks', channels := cs)
  }

  function Banks(cfg: Config, s: Ctrl): Ctrl
  {
    var t := CompleteUpTo(cfg, s, |s.banks|);
    t.(banks := SelectUpTo(cfg, t.banks, t.cycle, |t.banks|))
  }

  predicate Placed(s: Ctrl, arrival: Option<Arrival>) {
    arrival.Some? ==> arrival.value.bid < |s.banks|
  }

  function Receive(s: Ctrl, arrival: Option<Arrival>): Ctrl
    requires Placed(s, arrival)
  {
    match arrival
    case None => s
    case Some(a) => Insert(s, a).0
  }

  /** `run_a_cycle`; `accept` is the network's answer for each output position and `arrival`
      the packet `receive_packet` finds, if any. */
  function Tick(cfg: Config, s: Ctrl, accept: seq<bool>, arrival: Option<Arrival>): Ctrl
    requires Shape(cfg, s) && |accept| == |s.out.buffer| && Placed(s, arrival)
  {
    var a := Emit(cfg, s, accept);
    var b := Channels(cfg, a);
    var c := Banks(cfg, b);
    var d := Progress(Receive(c, arrival));
    d.(cycle := d.cycle + 1)
  }
}
