/**
 The starvation counter of the DRAM controller (`progress_check`), and the banks no channel
 serves.
 */
module DramProgress {
  import opened DramModel
  import opened Options
  import opened DramRuns
  import opened DramLift
  import opened DramConservation
  import opened DramTiming
  import opened DramService
  import opened DramCompletion

  // ---------- how long the counter can run ----------

  /** `h` cycles in a row saw requests and no completion: some request has been current nearly
      that long. */
  ghost predicate Hungry(s: Ctrl, h: nat) {
    && (h == 1 ==> s.total > 0)
    && (h >= 2 ==> exists b :: 0 <= b < |s.banks| && s.banks[b].current.Some?
                               && s.banks[b].current.value.scheduled + h <= s.cycle + 1)
  }

  predicate AllServed(cfg: Config)
    requires cfg.Valid()
  {
    cfg.numChannels * cfg.PerChannel() == cfg.numBanks
  }

  function Limit(cfg: Config, m: nat): nat
    requires cfg.Valid()
  {
    Bound(cfg, cfg.PerChannel(), m) + 1
  }

  lemma BankBound(cfg: Config, m: nat, s: Ctrl, b: nat)
    requires Shape(cfg, s) && TimelyAll(cfg, m, s)
    requires b < |s.banks| && Served(cfg, b) && s.banks[b].current.Some?
    ensures s.banks[b].current.value.scheduled < s.cycle
    ensures s.cycle <= s.banks[b].current.value.scheduled + Bound(cfg, cfg.PerChannel(), m)
  {
    var ch := ServedChannel(cfg, b);
    SliceFits(cfg, ch);
    var bs := Slice(cfg, s.banks, ch);
    assert bs[b - cfg.Lo(ch)] == s.banks[b];
    TimelyBound(cfg, m, bs, s.channels[ch].busReady, s.cycle, b - cfg.Lo(ch));
  }

  lemma HungryLimit(cfg: Config, m: nat, s: Ctrl, h: nat)
    requires Shape(cfg, s) && TimelyAll(cfg, m, s) && AllServed(cfg) && Hungry(s, h)
    ensures h <= Limit(cfg, m)
  {
    if h >= 2 {
      var b :| 0 <= b < |s.banks| && s.banks[b].current.Some? && s.banks[b].current.value.scheduled + h <= s.cycle + 1;
      BankBound(cfg, m, s, b);
    }
  }

  /** The state in which `receive_packet` runs. */
  function Middle(cfg: Config, s: Ctrl, accept: seq<bool>): Ctrl
    requires Shape(cfg, s) && |accept| == |s.out.buffer|
  {
    Banks(cfg, Channels(cfg, Emit(cfg, s, accept)))
  }

  lemma MiddleBank(cfg: Config, s: Ctrl, accept: seq<bool>, i: nat)
    requires Shape(cfg, s) && |accept| == |s.out.buffer| && i < |s.banks|
    requires !Completes(Channels(cfg, Emit(cfg, s, accept)).banks[i], s.cycle)
    ensures |Middle(cfg, s, accept).banks| == |s.banks|
    ensures var b, c := s.banks[i], Middle(cfg, s, accept).banks[i];
            if b.current.Some? then c.current.Some? && c.current.value.scheduled == b.current.value.scheduled
            else if b.buffer != [] then c.current.Some? && c.current.value.scheduled == s.cycle
            else c.current.None?
  {
    hide CompleteUpTo;
    var a := Emit(cfg, s, accept);
    ChannelsSteady(cfg, a);
    BanksPointwise(cfg, Channels(cfg, a));
    ChannelsShape(cfg, a);
    assert Steady(a.banks[i], Channels(cfg, a).banks[i]);
  }

  lemma MiddleHungry(cfg: Config, m: nat, s: Ctrl, accept: seq<bool>, h: nat)
    requires Conserved(cfg, s) && TimelyAll(cfg, m, s) && AllServed(cfg) && Hungry(s, h) && h >= 1
    requires |accept| == |s.out.buffer|
    requires NoneCompletes(Channels(cfg, Emit(cfg, s, accept)).banks, s.cycle, |s.banks|)
    ensures var c := Middle(cfg, s, accept);
            exists b :: 0 <= b < |c.banks| && c.banks[b].current.Some?
                        && c.banks[b].current.value.scheduled + h <= s.cycle + 1
  {
    hide Middle;
    var i: nat;
    if h == 1 {
      i := LoadSomewhere(s.banks);
      if s.banks[i].current.Some? { BankBound(cfg, m, s, i); }
    } else {
      i :| 0 <= i < |s.banks| && s.banks[i].current.Some? && s.banks[i].current.value.scheduled + h <= s.cycle + 1;
    }
    MiddleBank(cfg, s, accept, i);
    var c := Middle(cfg, s, accept);
    assert c.banks[i].current.Some? && c.banks[i].current.value.scheduled + h <= s.cycle + 1;
  }

  /** Arrivals neither empty the controller nor touch a current request. */
  lemma InsertHungry(cfg: Config, s: Ctrl, a: Arrival)
    requires Conserved(cfg, s) && ArrivalOk(cfg, s, a)
    ensures var t := Insert(s, a).0;
            && |t.banks| == |s.banks| && (s.total > 0 ==> t.total > 0)
            && t.cycle == s.cycle && t.starve == s.starve && t.completed == s.completed
            && forall i :: 0 <= i < |s.banks| ==> t.banks[i].current == s.banks[i].current
  {
    var f := Flush(s, a.bid);
    FlushConserves(cfg, s, a.bid);
    assert f.total >= 0 && s.total >= 0;
    hide Conserved;
    if s.banks[a.bid].free == [] && f.banks[a.bid].free == [] {
      assert Keep(s.banks[a.bid].buffer, Prefetch) == [];
    }
  }

  lemma ReceiveFrame(cfg: Config, c: Ctrl, arrival: Option<Arrival>)
    requires Conserved(cfg, c) && (arrival.Some? ==> ArrivalOk(cfg, c, arrival.value))
    ensures var t := Receive(c, arrival);
            && |t.banks| == |c.banks| && t.cycle == c.cycle && t.starve == c.starve && t.completed == c.completed
            && forall i :: 0 <= i < |c.banks| ==> t.banks[i].current == c.banks[i].current
  {
    if arrival.Some? { InsertHungry(cfg, c, arrival.value); }
  }

  /** A cycle that counts and completes nothing lengthens the hunger by one. */
  lemma TickHungry(cfg: Config, m: nat, s: Ctrl, accept: seq<bool>, arrival: Option<Arrival>, h: nat)
    requires Conserved(cfg, s) && TimelyAll(cfg, m, s) && AllServed(cfg) && Hungry(s, h)
    requires OpOk(cfg, s, Cycle(accept, arrival))
    requires NoneCompletes(Channels(cfg, Emit(cfg, s, accept)).banks, s.cycle, |s.banks|)
    requires Tick(cfg, s, accept, arrival).total > 0
    ensures Hungry(Tick(cfg, s, accept, arrival), h + 1)
  {
    if h >= 1 {
      MiddleHungry(cfg, m, s, accept, h);
      MiddleConserved(cfg, s, accept);
      var c := Middle(cfg, s, accept);
      ReceiveFrame(cfg, c, arrival);
      TickShape(cfg, s, accept, arrival);
      hide Middle;
      var b :| 0 <= b < |c.banks| && c.banks[b].current.Some?
               && c.banks[b].current.value.scheduled + h <= s.cycle + 1;
      var t := Tick(cfg, s, accept, arrival);
      assert t.banks[b].current == c.banks[b].current;
    }
  }

  /** A cycle that completes requests and whose completion counter reads zero all the same. */
  predicate Misreads(cfg: Config, s: Ctrl, op: Op)
    requires Shape(cfg, s) && OpOk(cfg, s, op)
  {
    op.Cycle? &&
    var b := Channels(cfg, Emit(cfg, s, op.accept));
    CompleteUpTo(cfg, b, |b.banks|).completed == 0 && !NoneCompletes(b.banks, b.cycle, |b.banks|)
  }

  lemma HonestReads(cfg: Config, s: Ctrl, op: Op)
    requires Shape(cfg, s) && OpOk(cfg, s, op) && Honest(cfg, s.cycle)
    ensures !Misreads(cfg, s, op)
  {
    if op.Cycle? {
      ChannelsShape(cfg, Emit(cfg, s, op.accept));
      HonestCount(cfg, Channels(cfg, Emit(cfg, s, op.accept)));
    }
  }

  /** What `progress_check` does to the counter in terms of the cycle's completions. */
  lemma TickStarve(cfg: Config, s: Ctrl, accept: seq<bool>, arrival: Option<Arrival>)
    requires Conserved(cfg, s) && OpOk(cfg, s, Cycle(accept, arrival))
    ensures var t := Tick(cfg, s, accept, arrival);
            && (t.starve == 0 || (t.starve == s.starve + 1 && t.total > 0))
            && (!Misreads(cfg, s, Cycle(accept, arrival)) && t.starve == s.starve + 1 && s.starve >= 0 ==>
                  NoneCompletes(Channels(cfg, Emit(cfg, s, accept)).banks, s.cycle, |s.banks|))
  {
    var b := Channels(cfg, Emit(cfg, s, accept));
    ChannelsShape(cfg, Emit(cfg, s, accept));
    CompleteUpToFrame(cfg, b, |b.banks|);
    MiddleConserved(cfg, s, accept);
    ReceiveFrame(cfg, Middle(cfg, s, accept), arrival);
  }

  /** Where the counter stands: `h` of it is accounted for by an old request; the rest can only
      come from the few cycles before a 32-bit wrap in which the completion counter misreads. */
  ghost predicate StarveOk(cfg: Config, m: nat, s: Ctrl, h: nat)
    requires cfg.Valid()
  {
    var nb, p := cfg.numBanks, s.cycle % WRAP;
    var zone := WRAP - nb;
    && h <= s.starve && Hungry(s, h)
    && (!cfg.merge || s.cycle <= zone ==> s.starve == h)
    && (p > zone ==> s.starve <= Limit(cfg, m) + (p - zone))
    && (p <= zone ==> s.starve == h || (p <= h && s.starve - h <= Limit(cfg, m) + nb))
  }

  predicate SaneSizes(cfg: Config, m: nat)
    requires cfg.Valid()
  {
    AllServed(cfg) && Limit(cfg, m) + cfg.numBanks < WRAP
  }

  lemma NextPhase(c: nat)
    ensures (c + 1) % WRAP == if c % WRAP == WRAP - 1 then 0 else c % WRAP + 1
  {
  }

  lemma StarveStep(cfg: Config, m: nat, s: Ctrl, t: Ctrl, h: nat) returns (h': nat)
    requires cfg.Valid() && SaneSizes(cfg, m) && StarveOk(cfg, m, s, h) && h <= Limit(cfg, m)
    requires t.cycle == s.cycle + 1
    requires t.starve == 0 || (t.starve == s.starve + 1 && t.total > 0)
    requires t.starve != 0 ==> Hungry(t, h + 1) || !Honest(cfg, s.cycle)
    ensures StarveOk(cfg, m, t, h')
  {
    NextPhase(s.cycle);
    if t.starve == 0 {
      h' := 0;
    } else if Hungry(t, h + 1) {
      h' := h + 1;
    } else {
      h' := 1;
      assert s.cycle % WRAP <= s.cycle;
    }
  }

  lemma TickStarveOk(cfg: Config, m: nat, s: Ctrl, accept: seq<bool>, arrival: Option<Arrival>, h: nat)
    returns (h': nat)
    requires Conserved(cfg, s) && TimelyAll(cfg, m, s) && OpOk(cfg, s, Cycle(accept, arrival))
    requires SaneSizes(cfg, m) && StarveOk(cfg, m, s, h)
    ensures StarveOk(cfg, m, Tick(cfg, s, accept, arrival), h')
  {
    HungryLimit(cfg, m, s, h);
    TickStarve(cfg, s, accept, arrival);
    if Honest(cfg, s.cycle) { HonestReads(cfg, s, Cycle(accept, arrival)); }
    TickShape(cfg, s, accept, arrival);
    if NoneCompletes(Channels(cfg, Emit(cfg, s, accept)).banks, s.cycle, |s.banks|)
       && Tick(cfg, s, accept, arrival).total > 0
    {
      TickHungry(cfg, m, s, accept, arrival, h);
    }
    h' := StarveStep(cfg, m, s, Tick(cfg, s, accept, arrival), h);
  }

  lemma {:induction false} RunStarve(cfg: Config, states: seq<Ctrl>, ops: seq<Op>, m: nat, i: nat)
    returns (h: nat)
    requires SmallRun(cfg, states, ops, m) && i < |states| && SaneSizes(cfg, m)
    ensures Conserved(cfg, states[i]) && TimelyAll(cfg, m, states[i]) && StarveOk(cfg, m, states[i], h)
  {
    RunTimely(cfg, states, ops, m, i);
    if i == 0 {
      h := 0;
    } else {
      h := RunStarve(cfg, states, ops, m, i - 1);
      h := ExecStarve(cfg, m, states[i - 1], ops[i - 1], h);
    }
  }

  lemma ExecStarve(cfg: Config, m: nat, s: Ctrl, op: Op, h: nat) returns (h': nat)
    requires Conserved(cfg, s) && TimelyAll(cfg, m, s) && OpOk(cfg, s, op)
    requires SaneSizes(cfg, m) && StarveOk(cfg, m, s, h)
    ensures StarveOk(cfg, m, Exec(cfg, s, op), h')
  {
    h' := h;
    match op
    case Cycle(accept, arrival) => h' := TickStarveOk(cfg, m, s, accept, arrival, h);
    case Arrive(a) => StarveInsert(cfg, m, s, a, h);
    case Adjust(_, _, _, _, _) => StarveAdjust(cfg, m, s, op, h);
  }

  lemma StarveInsert(cfg: Config, m: nat, s: Ctrl, a: Arrival, h: nat)
    requires Conserved(cfg, s) && ArrivalOk(cfg, s, a) && StarveOk(cfg, m, s, h)
    ensures StarveOk(cfg, m, Insert(s, a).0, h)
  {
    InsertHungry(cfg, s, a);
    InsertStays(cfg, s, a, h);
  }

  lemma InsertStays(cfg: Config, s: Ctrl, a: Arrival, h: nat)
    requires Conserved(cfg, s) && ArrivalOk(cfg, s, a) && Hungry(s, h)
    ensures var t := Insert(s, a).0; Hungry(t, h) && t.starve == s.starve
  {
    InsertHungry(cfg, s, a);
    var t := Insert(s, a).0;
    if h >= 2 {
      var b :| 0 <= b < |s.banks| && s.banks[b].current.Some? && s.banks[b].current.value.scheduled + h <= s.cycle + 1;
      assert t.banks[b].current == s.banks[b].current;
    }
  }

  lemma StarveAdjust(cfg: Config, m: nat, s: Ctrl, op: Op, h: nat)
    requires Conserved(cfg, s) && op.Adjust? && StarveOk(cfg, m, s, h)
    ensures StarveOk(cfg, m, AdjustAll(s, op), h)
  {
    AdjustStays(s, op, h);
  }

  lemma AdjustStays(s: Ctrl, op: Op, h: nat)
    requires op.Adjust? && Hungry(s, h)
    ensures var t := AdjustAll(s, op); Hungry(t, h) && t.starve == s.starve
  {
    var t := AdjustAll(s, op);
    if h >= 2 {
      var b :| 0 <= b < |s.banks| && s.banks[b].current.Some? && s.banks[b].current.value.scheduled + h <= s.cycle + 1;
      assert t.banks[b] == AdjustBank(s.banks[b], op);
    }
  }

  /** The counter over every run: at most `Limit`, and never more than twice that and the number
      of banks even when the completion counter wraps. */
  lemma StarveBounded(cfg: Config, states: seq<Ctrl>, ops: seq<Op>, m: nat, i: nat)
    requires SmallRun(cfg, states, ops, m) && i < |states| && SaneSizes(cfg, m)
    ensures states[i].starve <= 2 * Limit(cfg, m) + cfg.numBanks
    ensures !cfg.merge || states[i].cycle <= WRAP - cfg.numBanks ==> states[i].starve <= Limit(cfg, m)
  {
    var h := RunStarve(cfg, states, ops, m, i);
    HungryLimit(cfg, m, states[i], h);
  }

  /** No cycle before state `i` misreads. */
  ghost predicate ReadsTrue(cfg: Config, states: seq<Ctrl>, ops: seq<Op>, i: nat)
    requires IsRun(cfg, states, ops) && i < |states|
  {
    forall j :: 0 <= j < i ==> !Misreads(cfg, states[j], ops[j])
  }

  lemma {:induction false} RunHungry(cfg: Config, states: seq<Ctrl>, ops: seq<Op>, m: nat, i: nat)
    requires SmallRun(cfg, states, ops, m) && i < |states| && AllServed(cfg) && ReadsTrue(cfg, states, ops, i)
    ensures states[i].starve >= 0 && Hungry(states[i], states[i].starve)
  {
    if i > 0 {
      RunHungry(cfg, states, ops, m, i - 1);
      RunTimely(cfg, states, ops, m, i - 1);
      var s, op := states[i - 1], ops[i - 1];
      match op
      case Cycle(accept, arrival) =>
        TickStarve(cfg, s, accept, arrival);
        if states[i].starve > 0 { TickHungry(cfg, m, s, accept, arrival, s.starve); }
      case Arrive(a) => InsertStays(cfg, s, a, s.starve);
      case Adjust(_, _, _, _, _) => AdjustStays(s, op, s.starve);
    }
  }

  /** As long as the completion counter tells the truth the starvation counter stays within `Limit`. */
  lemma StarveWithin(cfg: Config, states: seq<Ctrl>, ops: seq<Op>, m: nat, i: nat)
    requires SmallRun(cfg, states, ops, m) && i < |states| && AllServed(cfg) && ReadsTrue(cfg, states, ops, i)
    ensures states[i].starve <= Limit(cfg, m)
  {
    RunHungry(cfg, states, ops, m, i);
    RunTimely(cfg, states, ops, m, i);
    HungryLimit(cfg, m, states[i], states[i].starve);
  }

  /** When the bound is below 5000 the assertion of `progress_check` fires only after a cycle that misread. */
  lemma NeverStarves(cfg: Config, states: seq<Ctrl>, ops: seq<Op>, m: nat, i: nat)
    requires SmallRun(cfg, states, ops, m) && i < |states| && AllServed(cfg) && Limit(cfg, m) < STARVE_LIMIT
    ensures states[i].starve >= STARVE_LIMIT ==> exists j :: 0 <= j < i && Misreads(cfg, states[j], ops[j])
  {
    if ReadsTrue(cfg, states, ops, i) { StarveWithin(cfg, states, ops, m, i); }
  }

  lemma {:induction false} CyclesPass(cfg: Config, states: seq<Ctrl>, ops: seq<Op>, j: nat, i: nat)
    requires IsRun(cfg, states, ops) && j < i < |states| && ops[j].Cycle?
    ensures states[j].cycle < states[i].cycle
  {
    hide Tick;
    var s, op := states[i - 1], ops[i - 1];
    CycleNext(cfg, s, op);
    if j < i - 1 { CyclesPass(cfg, states, ops, j, i - 1); }
  }

  lemma CycleNext(cfg: Config, s: Ctrl, op: Op)
    requires Shape(cfg, s) && OpOk(cfg, s, op)
    ensures Exec(cfg, s, op).cycle == s.cycle + if op.Cycle? then 1 else 0
  {
    match op
    case Cycle(accept, arrival) => TickShape(cfg, s, accept, arrival);
    case Arrive(a) =>
    case Adjust(_, _, _, _, _) =>
  }

  /** In particular it does not fire without merging, nor before the cycle number nears 2^32. */
  lemma NeverStarvesEarly(cfg: Config, states: seq<Ctrl>, ops: seq<Op>, m: nat, i: nat)
    requires SmallRun(cfg, states, ops, m) && i < |states| && AllServed(cfg) && Limit(cfg, m) < STARVE_LIMIT
    requires cfg.numBanks < WRAP && (!cfg.merge || states[i].cycle <= WRAP - cfg.numBanks)
    ensures states[i].starve < STARVE_LIMIT
  {
    NeverStarves(cfg, states, ops, m, i);
    forall j | 0 <= j < i
      ensures !Misreads(cfg, states[j], ops[j])
    {
      if ops[j].Cycle? {
        CyclesPass(cfg, states, ops, j, i);
        HonestReads(cfg, states[j], ops[j]);
      }
    }
  }

  /** With half the bound it never fires at all. */
  lemma NeverStarvesAtAll(cfg: Config, states: seq<Ctrl>, ops: seq<Op>, m: nat, i: nat)
    requires SmallRun(cfg, states, ops, m) && i < |states| && AllServed(cfg)
    requires 2 * Limit(cfg, m) + cfg.numBanks < STARVE_LIMIT
    ensures states[i].starve < STARVE_LIMIT
  {
    StarveBounded(cfg, states, ops, m, i);
  }

  // ---------- banks no channel serves ----------

  function Nones(n: nat): (xs: seq<bool>)
    ensures |xs| == n
  {
    seq(n, _ => false)
  }

  /** `n` cycles in which nothing arrives and nothing is sent. */
  function Idle(cfg: Config, s: Ctrl, n: nat): (t: Ctrl)
    requires Shape(cfg, s)
    ensures Shape(cfg, t) && t.cycle == s.cycle + n && |t.banks| == |s.banks|
  {
    if n == 0 then s
    else
      var t := Idle(cfg, s, n - 1);
      TickShape(cfg, t, Nones(|t.out.buffer|), None);
      Tick(cfg, t, Nones(|t.out.buffer|), None)
  }

  function IdleOp(cfg: Config, s: Ctrl, n: nat): Op
    requires Shape(cfg, s)
  {
    Cycle(Nones(|Idle(cfg, s, n).out.buffer|), None)
  }

  function IdleStates(cfg: Config, s: Ctrl, n: nat): (xs: seq<Ctrl>)
    requires Shape(cfg, s)
    ensures |xs| == n + 1
    ensures forall i :: 0 <= i <= n ==> xs[i] == Idle(cfg, s, i)
  {
    seq(n + 1, i requires 0 <= i <= n => Idle(cfg, s, i))
  }

  function IdleOps(cfg: Config, s: Ctrl, n: nat): (xs: seq<Op>)
    requires Shape(cfg, s)
    ensures |xs| == n
    ensures forall i :: 0 <= i < n ==> xs[i] == IdleOp(cfg, s, i)
  {
    seq(n, i requires 0 <= i < n => IdleOp(cfg, s, i))
  }

  lemma IdleExec(cfg: Config, s: Ctrl, n: nat, m: nat)
    requires Shape(cfg, s)
    ensures var t := Idle(cfg, s, n);
            Steps(cfg, t, IdleOp(cfg, s, n), Idle(cfg, s, n + 1), m)
  {
    hide Tick;
  }

  /** One arrival at the start and then idle cycles make a run. */
  lemma IdleIsRun(cfg: Config, a: Arrival, n: nat, m: nat)
    requires cfg.Valid() && a.bid < cfg.numBanks && a.rid >= 0 && a.req.size <= m
    ensures var s := Insert(Start(cfg), a).0;
            && Shape(cfg, s)
            && SmallRun(cfg, [Start(cfg)] + IdleStates(cfg, s, n), [Arrive(a)] + IdleOps(cfg, s, n), m)
  {
    ExecShape(cfg, Start(cfg), Arrive(a));
    var s := Insert(Start(cfg), a).0;
    var xs, ys := IdleStates(cfg, s, n), IdleOps(cfg, s, n);
    assert Steps(cfg, Start(cfg), Arrive(a), xs[0], m);
    hide Steps;
    hide Insert;
    hide Start;
    forall i: nat | i < n
      ensures Steps(cfg, xs[i], ys[i], xs[i + 1], m)
    {
      IdleExec(cfg, s, i, m);
      assert xs[i] == Idle(cfg, s, i) && xs[i + 1] == Idle(cfg, s, i + 1) && ys[i] == IdleOp(cfg, s, i);
    }
    Prepend(cfg, Arrive(a), xs, ys, m);
  }

  predicate Steps(cfg: Config, s: Ctrl, op: Op, t: Ctrl, m: nat) {
    Shape(cfg, s) && OpOk(cfg, s, op) && SmallOp(op, m) && t == Exec(cfg, s, op)
  }

  lemma Prepend(cfg: Config, op: Op, xs: seq<Ctrl>, ys: seq<Op>, m: nat)
    requires cfg.Valid() && |xs| == |ys| + 1 && Steps(cfg, Start(cfg), op, xs[0], m)
    requires forall i: nat :: i < |ys| ==> Steps(cfg, xs[i], ys[i], xs[i + 1], m)
    ensures SmallRun(cfg, [Start(cfg)] + xs, [op] + ys, m)
  {
    hide Exec;
    hide OpOk;
    hide SmallOp;
    hide Shape;
    hide Start;
    var states, ops := [Start(cfg)] + xs, [op] + ys;
    forall i | 0 <= i < |ops|
      ensures Shape(cfg, states[i]) && OpOk(cfg, states[i], ops[i]) && states[i + 1] == Exec(cfg, states[i], ops[i])
      ensures SmallOp(ops[i], m)
    {
      if i > 0 {
        assert Steps(cfg, xs[i - 1], ys[i - 1], xs[i], m);
      }
    }
  }

  lemma TickBank(cfg: Config, s: Ctrl, accept: seq<bool>, i: nat)
    requires Shape(cfg, s) && |accept| == |s.out.buffer| && i < |s.banks| && !Served(cfg, i)
    ensures |Tick(cfg, s, accept, None).banks| == |s.banks|
    ensures Tick(cfg, s, accept, None).banks[i] == Turn(cfg, s.banks[i], s.cycle)
  {
    hide Turn;
    var e := Emit(cfg, s, accept);
    ChannelsSteady(cfg, e);
    ChannelsShape(cfg, e);
    BanksPointwise(cfg, Channels(cfg, e));
  }

  predicate Stuck(b: Bank) {
    b.dataReady == Never && b.current.Some? && b.current.value.state == Cmd && b.current.value.scheduled == 0
  }

  lemma StuckTurn(cfg: Config, b: Bank, n: nat)
    requires Stuck(b) || (b.current.None? && b.buffer != [] && b.dataReady == Never && n == 0)
    ensures Stuck(Turn(cfg, b, n))
  {
  }

  /** A bank no channel serves never issues a command: a request selected there stays. */
  lemma {:induction false} UnservedStuck(cfg: Config, s: Ctrl, i: nat, n: nat)
    requires Shape(cfg, s) && i < |s.banks| && !Served(cfg, i) && s.cycle == 0 && n >= 1
    requires s.banks[i].current.None? && s.banks[i].buffer != [] && s.banks[i].dataReady == Never
    ensures Stuck(Idle(cfg, s, n).banks[i])
  {
    hide Tick;
    hide Turn;
    if n > 1 { UnservedStuck(cfg, s, i, n - 1); }
    var t := Idle(cfg, s, n - 1);
    TickBank(cfg, t, Nones(|t.out.buffer|), i);
    StuckTurn(cfg, t.banks[i], n - 1);
  }

  /** Somewhere in a run, a request of bank `b` has been current for more than `limit` cycles. */
  ghost predicate Slow(cfg: Config, states: seq<Ctrl>, ops: seq<Op>, m: nat, i: nat, b: nat, limit: nat) {
    && SmallRun(cfg, states, ops, m) && i < |states|
    && b < |states[i].banks| && states[i].banks[b].current.Some?
    && states[i].cycle > states[i].banks[b].current.value.scheduled + limit
  }

  ghost predicate BoundedBy(cfg: Config, b: nat, m: nat, limit: nat) {
    forall states: seq<Ctrl>, ops: seq<Op>, i: nat :: !Slow(cfg, states, ops, m, i, b, limit)
  }

  ghost predicate HasBound(cfg: Config, b: nat, m: nat) {
    exists limit: nat :: BoundedBy(cfg, b, m, limit)
  }

  lemma FirstArrival(cfg: Config, a: Arrival)
    requires cfg.Valid() && a.bid < cfg.numBanks && a.rid >= 0 && cfg.bufferSize > 0
    ensures var s := Insert(Start(cfg), a).0;
            && |s.banks| == cfg.numBanks && s.cycle == 0
            && s.banks[a.bid].current.None? && s.banks[a.bid].buffer != [] && s.banks[a.bid].dataReady == Never
  {
    assert Start(cfg).banks[a.bid] == FreshBank(cfg);
  }

  lemma UnservedSlow(cfg: Config, b: nat, m: nat, limit: nat)
    requires cfg.Valid() && b < cfg.numBanks && cfg.bufferSize > 0 && !Served(cfg, b)
    ensures !BoundedBy(cfg, b, m, limit)
  {
    hide Insert;
    hide Idle;
    hide SmallRun;
    var a, n := Arrival(NO_REQ, b, 0, 0), limit + 1;
    IdleIsRun(cfg, a, n, m);
    FirstArrival(cfg, a);
    var s := Insert(Start(cfg), a).0;
    UnservedStuck(cfg, s, b, n);
    var states, ops := [Start(cfg)] + IdleStates(cfg, s, n), [Arrive(a)] + IdleOps(cfg, s, n);
    assert states[n + 1] == IdleStates(cfg, s, n)[n];
    assert Slow(cfg, states, ops, m, n + 1, b, limit);
  }

  /** A bank has a bound on the service of its requests exactly when a channel serves it. */
  lemma BoundedIffServed(cfg: Config, b: nat, m: nat)
    requires cfg.Valid() && b < cfg.numBanks && cfg.bufferSize > 0
    ensures HasBound(cfg, b, m) <==> Served(cfg, b)
  {
    if Served(cfg, b) {
      forall states: seq<Ctrl>, ops: seq<Op>, i: nat
        ensures !Slow(cfg, states, ops, m, i, b, Bound(cfg, cfg.PerChannel(), m))
      {
        if Slow(cfg, states, ops, m, i, b, Bound(cfg, cfg.PerChannel(), m)) {
          SelectedCompletesInTime(cfg, states, ops, m, i, b);
        }
      }
      assert BoundedBy(cfg, b, m, Bound(cfg, cfg.PerChannel(), m));
    } else {
      forall limit: nat
        ensures !BoundedBy(cfg, b, m, limit)
      {
        UnservedSlow(cfg, b, m, limit);
      }
    }
  }
}
