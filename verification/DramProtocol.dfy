/**
 The DRAM command protocol. A monitor, independent of the controller, watches the events of one
 bank and accepts only legal ones; every bank of every run is accepted, and an accepted log
 serves each request with exactly one of the three command sequences.
 */
module DramProtocol {
  import opened DramModel
  import opened Options
  import opened DramRuns
  import opened DramLift
  import opened DramConservation

  // ---------- the monitor ----------

  /** What the bank is doing for its current request: commands are still needed, data is being
      read into the row, data is on the bus. */
  datatype Job = Free | Needs(target: int, ready: nat) | Fetching(ready: nat) | Moving(until: nat)

  datatype Monitor = Monitor(row: int, job: Job, last: nat)

  const POWER_UP := Monitor(-1, Free, 0)

  /** Activate only a closed bank and only for the wanted row; column only on the wanted open
      row; precharge only another open row and only between transfers; and nothing before the
      previous command's latency has passed. */
  function Watch(cfg: Config, m: Monitor, e: Event): Option<Monitor> {
    if e.at < m.last then None
    else
      match e
      case Select(at, row) =>
        if m.job.Free? then Some(Monitor(m.row, Needs(row, at), at)) else None
      case Precharge(at) =>
        if m.job.Needs? && m.job.ready <= at && m.row != -1 && m.row != m.job.target
        then Some(Monitor(-1, Needs(m.job.target, at + cfg.precharge), at)) else None
      case Activate(at, row) =>
        if m.job.Needs? && m.job.ready <= at && m.row == -1 && row == m.job.target >= 0
        then Some(Monitor(row, Needs(m.job.target, at + cfg.activate), at)) else None
      case Column(at, row) =>
        if m.job.Needs? && m.job.ready <= at && m.row == row == m.job.target >= 0
        then Some(Monitor(m.row, Fetching(at + cfg.column), at)) else None
      case Transfer(at, until) =>
        if m.job.Fetching? && m.job.ready <= at <= until
        then Some(Monitor(m.row, Moving(until), at)) else None
      case Done(at) =>
        if m.job.Moving? && m.job.until <= at then Some(Monitor(m.row, Free, at)) else None
  }

  function WatchAll(cfg: Config, log: seq<Event>): Option<Monitor> {
    if log == [] then Some(POWER_UP)
    else
      match WatchAll(cfg, log[..|log|-1])
      case None => None
      case Some(m) => Watch(cfg, m, log[|log|-1])
  }

  lemma WatchNext(cfg: Config, log: seq<Event>, e: Event)
    requires WatchAll(cfg, log).Some?
    ensures WatchAll(cfg, log + [e]) == Watch(cfg, WatchAll(cfg, log).value, e)
  {
    assert (log + [e])[..|log + [e]| - 1] == log;
  }

  // ---------- the monitor follows the bank ----------

  predicate JobOf(b: Bank, j: Job)
    requires FieldsOk(b)
  {
    match b.current
    case None => j.Free?
    case Some(e) =>
      match e.state
      case Init => false
      case Cmd => j.Needs? && j.target == e.rid && j.ready <= b.timestamp
      case CmdWait => j == Needs(e.rid, b.bankReady.t)
      case Data => j == Fetching(b.dataAvail.t)
      case DataWait => j == Moving(b.dataReady.t)
  }

  /** The bank's log is accepted, and the monitor then agrees with the bank's fields. */
  predicate LogOk(cfg: Config, b: Bank, now: nat) {
    && FieldsOk(b)
    && WatchAll(cfg, b.log).Some?
    && var m := WatchAll(cfg, b.log).value;
       m.row == b.openRow && m.last <= now && JobOf(b, m.job)
       && (b.current.Some? ==> b.timestamp <= now)
  }

  lemma IssueCmdLogged(cfg: Config, b: Bank, now: nat)
    requires LogOk(cfg, b, now) && WantsCmd(b)
    ensures LogOk(cfg, IssueCmd(cfg, b, now), now)
  {
    var e := b.current.value;
    var ev := if b.openRow == -1 then Activate(now, e.rid)
              else if e.rid == b.openRow then Column(now, e.rid) else Precharge(now);
    WatchNext(cfg, b.log, ev);
  }

  lemma GrantLogged(cfg: Config, b: Bank, now: nat, ready: nat)
    requires LogOk(cfg, b, now) && WantsData(b, now) && now <= ready
    ensures LogOk(cfg, GrantBank(b, now, ready), now)
  {
    WatchNext(cfg, b.log, Transfer(now, ready));
  }

  lemma CompleteLogged(cfg: Config, b: Bank, now: nat)
    requires LogOk(cfg, b, now)
    ensures LogOk(cfg, CompleteBank(cfg, b, now), now)
  {
    if Completes(b, now) { WatchNext(cfg, b.log, Done(now)); }
  }

  lemma SelectLogged(cfg: Config, b: Bank, now: nat)
    requires LogOk(cfg, b, now) && forall e :: e in b.buffer ==> e.rid >= 0
    ensures LogOk(cfg, SelectBank(cfg, b, now), now)
  {
    if b.current.None? && b.buffer != [] {
      var xs := Schedule(cfg, b);
      SortBufferIn(b.buffer, b.openRow);
      assert xs[0] in xs;
      WatchNext(cfg, b.log, Select(now, xs[0].rid));
    }
  }

  lemma AdvanceLogged(cfg: Config, b: Bank, mid: Bank, c: Bank, now: nat)
    requires LogOk(cfg, b, now) && Commanded(cfg, b, mid, now) && Granted(mid, c, now)
    ensures LogOk(cfg, c, now)
  {
    if mid != b { IssueCmdLogged(cfg, b, now); }
    hide IssueCmd;
    if c != mid { GrantLogged(cfg, mid, now, c.dataReady.t); }
  }

  lemma TurnLogged(cfg: Config, b: Bank, now: nat)
    requires BankOk(cfg, b) && LogOk(cfg, b, now)
    ensures LogOk(cfg, Turn(cfg, b, now), now)
  {
    CompleteLogged(cfg, b, now);
    CompleteBankOk(cfg, b, now);
    SelectLogged(cfg, CompleteBank(cfg, b, now), now);
  }

  predicate Logged(cfg: Config, s: Ctrl) {
    forall i :: 0 <= i < |s.banks| ==> LogOk(cfg, s.banks[i], s.cycle)
  }

  /** Steps that change neither log, phase nor row. */
  predicate SameLog(b: Bank, c: Bank) {
    && b.log == c.log && b.openRow == c.openRow && b.timestamp == c.timestamp
    && b.bankReady == c.bankReady && b.dataAvail == c.dataAvail && b.dataReady == c.dataReady
    && b.current.Some? == c.current.Some?
    && (b.current.Some? ==> b.current.value.state == c.current.value.state && b.current.value.rid == c.current.value.rid)
  }

  lemma SameLogOk(cfg: Config, b: Bank, c: Bank, now: nat, later: nat)
    requires LogOk(cfg, b, now) && SameLog(b, c) && now <= later
    ensures LogOk(cfg, c, later)
  {
  }

  lemma InsertLogged(cfg: Config, s: Ctrl, a: Arrival)
    requires Logged(cfg, s) && a.bid < |s.banks|
    ensures Logged(cfg, Insert(s, a).0) && Insert(s, a).0.cycle == s.cycle
  {
    var t := Insert(s, a).0;
    forall i | 0 <= i < |t.banks|
      ensures LogOk(cfg, t.banks[i], t.cycle)
    {
      assert SameLog(s.banks[i], t.banks[i]);
      SameLogOk(cfg, s.banks[i], t.banks[i], s.cycle, t.cycle);
    }
  }

  lemma MiddleLogged(cfg: Config, s: Ctrl)
    requires Conserved(cfg, s) && Logged(cfg, s)
    ensures Logged(cfg, Banks(cfg, Channels(cfg, s)))
    ensures Banks(cfg, Channels(cfg, s)).cycle == s.cycle && |Banks(cfg, Channels(cfg, s)).banks| == |s.banks|
  {
    hide Banks;
    hide Turn;
    ChannelsConserve(cfg, s);
    ChannelsShape(cfg, s);
    var b := Channels(cfg, s);
    BanksPointwise(cfg, b);
    forall i | 0 <= i < |b.banks|
      ensures LogOk(cfg, Turn(cfg, b.banks[i], s.cycle), s.cycle)
    {
      var mid := ChannelsEach(cfg, s, i);
      AdvanceLogged(cfg, s.banks[i], mid, b.banks[i], s.cycle);
      TurnLogged(cfg, b.banks[i], s.cycle);
    }
  }

  lemma TickLogged(cfg: Config, s: Ctrl, accept: seq<bool>, arrival: Option<Arrival>)
    requires Conserved(cfg, s) && Logged(cfg, s) && OpOk(cfg, s, Cycle(accept, arrival))
    ensures Logged(cfg, Tick(cfg, s, accept, arrival))
  {
    SendConserves(cfg, s, accept, cfg.vcPartition);
    DelayConserves(cfg, Send(s, accept, cfg.vcPartition));
    var a := Emit(cfg, s, accept);
    MiddleLogged(cfg, a);
    hide Emit;
    var c := Banks(cfg, Channels(cfg, a));
    hide Banks;
    hide Channels;
    if arrival.Some? { InsertLogged(cfg, c, arrival.value); }
    var d := Progress(Receive(c, arrival));
    forall i | 0 <= i < |d.banks|
      ensures LogOk(cfg, d.banks[i], d.cycle + 1)
    {
      SameLogOk(cfg, d.banks[i], d.banks[i], d.cycle, d.cycle + 1);
    }
  }

  lemma AdjustLogged(cfg: Config, s: Ctrl, op: Op)
    requires Logged(cfg, s) && op.Adjust?
    ensures Logged(cfg, AdjustAll(s, op))
  {
    var t := AdjustAll(s, op);
    forall i | 0 <= i < |t.banks|
      ensures LogOk(cfg, t.banks[i], t.cycle)
    {
      SameLogOk(cfg, s.banks[i], t.banks[i], s.cycle, t.cycle);
    }
  }

  /** Every bank of every run obeys the protocol. */
  lemma {:induction false} RunObeysProtocol(cfg: Config, states: seq<Ctrl>, ops: seq<Op>, i: nat)
    requires IsRun(cfg, states, ops) && i < |states|
    ensures forall b :: 0 <= b < |states[i].banks| ==> WatchAll(cfg, states[i].banks[b].log).Some?
    ensures Logged(cfg, states[i])
  {
    if i > 0 {
      RunObeysProtocol(cfg, states, ops, i - 1);
      RunConserved(cfg, states, ops, i - 1);
      var s := states[i - 1];
      match ops[i - 1]
      case Cycle(accept, arrival) => TickLogged(cfg, s, accept, arrival);
      case Arrive(a) => InsertLogged(cfg, s, a);
      case Adjust(_, _, _, _, _) => AdjustLogged(cfg, s, ops[i - 1]);
    }
  }

  // ---------- what an accepted log looks like ----------

  predicate IsHit(w: seq<Event>) {
    |w| == 1 && w[0].Column?
  }

  predicate IsClosedMiss(w: seq<Event>) {
    |w| == 2 && w[0].Activate? && w[1].Column? && w[0].row == w[1].row
  }

  predicate IsConflict(w: seq<Event>) {
    |w| == 3 && w[0].Precharge? && w[1].Activate? && w[2].Column? && w[1].row == w[2].row
  }

  /** One of the three command sequences, each command at least the previous one's latency
      after it. */
  predicate Served1(cfg: Config, since: nat, row: int, w: seq<Event>, done: nat) {
    || (IsHit(w) && w[0].row == row && since <= w[0].at && w[0].at + cfg.column <= done)
    || (IsClosedMiss(w) && w[0].row == row && since <= w[0].at
        && w[0].at + cfg.activate <= w[1].at && w[1].at + cfg.column <= done)
    || (IsConflict(w) && w[1].row == row && since <= w[0].at && w[0].at + cfg.precharge <= w[1].at
        && w[1].at + cfg.activate <= w[2].at && w[2].at + cfg.column <= done)
  }

  /** The events of one completed request: its selection, its commands, one transfer. */
  ghost predicate Transaction(cfg: Config, t: seq<Event>) {
    && |t| >= 4 && t[0].Select? && t[|t|-1].Done? && t[|t|-2].Transfer?
    && t[|t|-2].until <= t[|t|-1].at
    && Served1(cfg, t[0].at, t[0].row, t[1..|t|-2], t[|t|-2].at)
  }

  /** The state reached by an accepted log, by index. */
  function After(cfg: Config, log: seq<Event>, i: nat): Option<Monitor>
    requires i <= |log|
  {
    WatchAll(cfg, log[..i])
  }

  lemma AfterStep(cfg: Config, log: seq<Event>, i: nat)
    requires 0 < i <= |log| && After(cfg, log, i).Some?
    ensures After(cfg, log, i - 1).Some?
    ensures Watch(cfg, After(cfg, log, i - 1).value, log[i - 1]) == After(cfg, log, i)
  {
    assert log[..i][..i - 1] == log[..i - 1];
  }

  /** How the bank came to have its wanted row open: the request was selected at `k` and has
      since had no command, an activate, or a precharge and an activate. */
  predicate Opened(cfg: Config, log: seq<Event>, k: nat, i: nat, row: int, ready: nat) {
    && k < i <= |log| && log[k].Select? && log[k].row == row
    && (|| (i == k + 1 && ready == log[k].at)
        || (i == k + 2 && log[k+1].Activate? && log[k+1].row == row
            && log[k].at <= log[k+1].at && ready == log[k+1].at + cfg.activate)
        || (i == k + 3 && log[k+1].Precharge? && log[k+2].Activate? && log[k+2].row == row
            && log[k].at <= log[k+1].at && log[k+1].at + cfg.precharge <= log[k+2].at
            && ready == log[k+2].at + cfg.activate))
  }

  lemma NeverNeedsAtStart(cfg: Config, log: seq<Event>, i: nat)
    requires i <= |log| && After(cfg, log, i).Some? && !After(cfg, log, i).value.job.Free?
    ensures i > 0
  {
    assert log[..0] == [];
  }

  lemma RowOpened(cfg: Config, log: seq<Event>, i: nat) returns (k: nat)
    requires i <= |log| && After(cfg, log, i).Some?
    requires var m := After(cfg, log, i).value; m.job.Needs? && m.row == m.job.target >= 0
    ensures var m := After(cfg, log, i).value; Opened(cfg, log, k, i, m.row, m.job.ready)
    ensures After(cfg, log, k).Some? && After(cfg, log, k).value.job.Free?
  {
    hide WatchAll;
    NeverNeedsAtStart(cfg, log, i);
    AfterStep(cfg, log, i);
    hide After;
    k := i - 1;
    if log[i-1].Activate? {
      NeverNeedsAtStart(cfg, log, i - 1);
      AfterStep(cfg, log, i - 1);
      k := i - 2;
      if log[i-2].Precharge? {
        NeverNeedsAtStart(cfg, log, i - 2);
        AfterStep(cfg, log, i - 2);
        k := i - 3;
      }
    }
  }

  /** In an accepted log that ends with a completion, the last request was served by exactly one
      of the three sequences, from its selection on; what precedes it is an accepted log of a
      bank without a request. */
  lemma EveryRequestServedOnce(cfg: Config, log: seq<Event>)
    requires WatchAll(cfg, log).Some? && log != [] && log[|log|-1].Done?
    ensures exists k :: 0 <= k < |log| && Transaction(cfg, log[k..])
                        && After(cfg, log, k).Some? && After(cfg, log, k).value.job.Free?
  {
    var n := |log|;
    assert log[..n] == log;
    AfterStep(cfg, log, n);
    AfterStep(cfg, log, n - 1);
    AfterStep(cfg, log, n - 2);
    hide After;
    hide WatchAll;
    assert log[n-2].Transfer? && log[n-3].Column?;
    var k := RowOpened(cfg, log, n - 3);
    OpenedServed(cfg, log, k, After(cfg, log, n - 3).value.job.ready);
  }

  lemma OpenedServed(cfg: Config, log: seq<Event>, k: nat, ready: nat)
    requires |log| >= 4 && log[|log|-1].Done? && log[|log|-2].Transfer? && log[|log|-3].Column?
    requires Opened(cfg, log, k, |log| - 3, log[|log|-3].row, ready) && ready <= log[|log|-3].at
    requires log[|log|-3].at + cfg.column <= log[|log|-2].at && log[|log|-2].until <= log[|log|-1].at
    ensures Transaction(cfg, log[k..])
  {
    var t := log[k..];
    assert t[1..|t|-2] == log[k+1..|log|-2];
  }
}
