/**
 Runs of the DRAM controller: cycles, arrivals between cycles, and the promotion of a prefetch
 that is inside the controller (`memory_c::adjust_req`), in any order.
 */
module DramRuns {
  import opened DramModel
  import opened Options

  datatype Op =
    | Cycle(accept: seq<bool>, arrival: Option<Arrival>)
    | Arrive(a: Arrival)
    | Adjust(id: nat, kind: ReqType, addr: nat, size: nat, gpu: bool)

  // ---------- the initial state ----------

  function FreshEntry(slot: nat): Entry {
    Entry(slot, Init, 0, -1, -1, NO_REQ, 0, 0, 0)
  }

  function FreshEntries(n: nat): (xs: seq<Entry>)
    ensures |xs| == n
    ensures forall i :: 0 <= i < n ==> xs[i] == FreshEntry(i)
  {
    if n == 0 then [] else FreshEntries(n - 1) + [FreshEntry(n - 1)]
  }

  function FreshBank(cfg: Config): Bank {
    Bank([], FreshEntries(cfg.bufferSize), None, -1, Never, Never, Never, 0, [])
  }

  function Start(cfg: Config): (s: Ctrl)
    requires cfg.Valid()
    ensures Shape(cfg, s)
  {
    Ctrl(seq(cfg.numBanks, _ => FreshBank(cfg)),
         seq(cfg.numChannels, _ => Channel(cfg.busWidth, 0, 0)),
         Output([], [], [], []), 0, 0, 0, 0, [])
  }

  // ---------- promotion ----------

  /** Only a hardware prefetch is promoted; the request-buffer entry keeps its own address and
      size. */
  function AdjustReq(r: Req, op: Op): (r': Req)
    requires op.Adjust?
    ensures r'.id == r.id && r'.rdyCycle == r.rdyCycle
  {
    if r.id == op.id && r.kind == DPrf then Req(r.id, op.kind, op.addr, op.size, op.gpu, r.rdyCycle)
    else r
  }

  function AdjustEntry(e: Entry, op: Op): Entry
    requires op.Adjust?
  {
    e.(req := AdjustReq(e.req, op))
  }

  function AdjustEntries(xs: seq<Entry>, op: Op): (ys: seq<Entry>)
    requires op.Adjust?
    ensures |ys| == |xs|
    ensures forall i :: 0 <= i < |xs| ==> ys[i] == AdjustEntry(xs[i], op)
  {
    seq(|xs|, i requires 0 <= i < |xs| => AdjustEntry(xs[i], op))
  }

  function AdjustReqs(xs: seq<Req>, op: Op): (ys: seq<Req>)
    requires op.Adjust?
    ensures |ys| == |xs|
    ensures forall i :: 0 <= i < |xs| ==> ys[i] == AdjustReq(xs[i], op)
  {
    seq(|xs|, i requires 0 <= i < |xs| => AdjustReq(xs[i], op))
  }

  function AdjustBank(b: Bank, op: Op): Bank
    requires op.Adjust?
  {
    b.(buffer := AdjustEntries(b.buffer, op),
       current := match b.current case None => None case Some(e) => Some(AdjustEntry(e, op)))
  }

  function AdjustAll(s: Ctrl, op: Op): (r: Ctrl)
    requires op.Adjust?
    ensures |r.banks| == |s.banks|
  {
    s.(banks := seq(|s.banks|, i requires 0 <= i < |s.banks| => AdjustBank(s.banks[i], op)),
       out := s.out.(buffer := AdjustReqs(s.out.buffer, op), delayed := AdjustReqs(s.out.delayed, op)))
  }

  // ---------- runs ----------

  /** What the callers guarantee of an arrival: a decoded bank, the non-negative row that
      `insert_new_req` asserts, and a request the controller has not been given before. */
  predicate ArrivalOk(cfg: Config, s: Ctrl, a: Arrival) {
    a.bid < cfg.numBanks && a.rid >= 0 && a.req.id !in s.accepted
  }

  predicate OpOk(cfg: Config, s: Ctrl, op: Op) {
    match op
    case Cycle(accept, arrival) =>
      |accept| == |s.out.buffer| && (arrival.Some? ==> ArrivalOk(cfg, s, arrival.value))
    case Arrive(a) => ArrivalOk(cfg, s, a)
    case Adjust(_, kind, _, _, _) => kind != Wb
  }

  function Exec(cfg: Config, s: Ctrl, op: Op): Ctrl
    requires Shape(cfg, s) && OpOk(cfg, s, op)
  {
    match op
    case Cycle(accept, arrival) => Tick(cfg, s, accept, arrival)
    case Arrive(a) => Insert(s, a).0
    case Adjust(_, _, _, _, _) => AdjustAll(s, op)
  }

  ghost predicate IsRun(cfg: Config, states: seq<Ctrl>, ops: seq<Op>) {
    && cfg.Valid()
    && |states| == |ops| + 1
    && states[0] == Start(cfg)
    && forall i :: 0 <= i < |ops| ==>
         Shape(cfg, states[i]) && OpOk(cfg, states[i], ops[i])
         && states[i + 1] == Exec(cfg, states[i], ops[i])
  }

  // ---------- shape is kept ----------

  lemma DataSliceBus(cfg: Config, bs: seq<Bank>, c: Channel, now: nat)
    requires cfg.Valid() && BusOk(cfg, c)
    ensures BusOk(cfg, DataSlice(cfg, bs, c, now).1)
    decreases NumData(bs)
  {
    if c.busReady <= now {
      match Oldest(bs, ForData(now))
      case None =>
      case Some(k) =>
        var (c', ready) := Acquire(cfg, c, bs[k].current.value.size, now);
        NumDataUpdate(bs, k, GrantBank(bs[k], now, ready));
        DataSliceBus(cfg, bs[k := GrantBank(bs[k], now, ready)], c', now);
    }
  }

  lemma {:induction false} DataUpToBuses(cfg: Config, banks: seq<Bank>, cs: seq<Channel>, now: nat, k: nat)
    requires cfg.Valid() && k <= cfg.numChannels && BusesOk(cfg, cs)
    requires |banks| == cfg.numBanks && |cs| == cfg.numChannels
    ensures BusesOk(cfg, DataUpTo(cfg, banks, cs, now, k).1)
  {
    if k > 0 {
      DataUpToBuses(cfg, banks, cs, now, k - 1);
      var (b, c) := DataUpTo(cfg, banks, cs, now, k - 1);
      DataSliceBus(cfg, Slice(cfg, b, k - 1), c[k - 1], now);
    }
  }

  lemma {:induction false} CompleteUpToFrame(cfg: Config, s: Ctrl, k: nat)
    requires k <= |s.banks|
    ensures var r := CompleteUpTo(cfg, s, k);
            r.channels == s.channels && r.cycle == s.cycle && r.starve == s.starve && r.accepted == s.accepted
    ensures forall i :: 0 <= i < k ==> CompleteUpTo(cfg, s, k).banks[i] == CompleteBank(cfg, s.banks[i], s.cycle)
    ensures forall i :: k <= i < |s.banks| ==> CompleteUpTo(cfg, s, k).banks[i] == s.banks[i]
  {
    if k > 0 { CompleteUpToFrame(cfg, s, k - 1); }
  }

  lemma TickShape(cfg: Config, s: Ctrl, accept: seq<bool>, arrival: Option<Arrival>)
    requires Shape(cfg, s) && |accept| == |s.out.buffer| && Placed(s, arrival)
    ensures Shape(cfg, Tick(cfg, s, accept, arrival))
    ensures Tick(cfg, s, accept, arrival).cycle == s.cycle + 1
  {
    var a := Emit(cfg, s, accept);
    var banks := CmdUpTo(cfg, a.banks, a.cycle, cfg.numChannels);
    DataUpToBuses(cfg, banks, a.channels, a.cycle, cfg.numChannels);
    var b := Channels(cfg, a);
    CompleteUpToFrame(cfg, b, |b.banks|);
  }

  lemma ExecShape(cfg: Config, s: Ctrl, op: Op)
    requires Shape(cfg, s) && OpOk(cfg, s, op)
    ensures Shape(cfg, Exec(cfg, s, op))
  {
    match op
    case Cycle(accept, arrival) => TickShape(cfg, s, accept, arrival);
    case Arrive(a) =>
    case Adjust(_, _, _, _, _) =>
  }
}
