/**
 A run of a controller with one bank in which the completion counter misreads and the starvation counter
 then reaches 5000 although the service bound is below it: two reads of one address and one of another
 arrive so that the first two complete in the last cycle before the 32-bit cycle number wraps.
 */
module DramLateRun {
  import opened DramModel
  import opened Options
  import opened DramRuns
  import opened DramService
  import opened DramTiming
  import opened DramCompletion
  import opened DramProgress
  import DramOutput

  const LATE := Config(1, 1, 64, 3, 0, 0, 4000, 0, true, false, false)

  // ---------- states with one bank ----------

  ghost predicate Reached(s: Ctrl) {
    exists states: seq<Ctrl>, ops: seq<Op> :: SmallRun(LATE, states, ops, 1) && states[|ops|] == s
  }

  function One(b: Bank, ch: Channel, out: Output, cycle: nat, total: int, completed: int, starve: int, accepted: seq<nat>): Ctrl {
    Ctrl([b], [ch], out, cycle, total, completed, starve, accepted)
  }

  lemma Goes(s: Ctrl, op: Op)
    requires Reached(s) && Shape(LATE, s) && OpOk(LATE, s, op) && SmallOp(op, 1)
    ensures Reached(Exec(LATE, s, op))
  {
    hide Exec;
    hide Shape;
    hide OpOk;
    hide Start;
    var states: seq<Ctrl>, ops: seq<Op> :| SmallRun(LATE, states, ops, 1) && states[|ops|] == s;
    var more, steps := states + [Exec(LATE, s, op)], ops + [op];
    assert more[|steps|] == Exec(LATE, s, op);
    assert SmallRun(LATE, more, steps, 1);
  }

  lemma Whole(xs: seq<Bank>)
    requires |xs| == 1
    ensures LATE.PerChannel() == 1 && LATE.Lo(0) == 0 && Slice(LATE, xs, 0) == xs
    ensures forall ys: seq<Bank> :: |ys| == 1 ==> Splice(LATE, xs, 0, ys) == ys
  {
    assert LATE.Lo(0) == 0 * LATE.PerChannel();
    forall ys: seq<Bank> | |ys| == 1
      ensures Splice(LATE, xs, 0, ys) == ys
    {
    }
  }

  function Command(b: Bank, now: nat): Bank { if WantsCmd(b) then IssueCmd(LATE, b, now) else b }

  lemma OldestOne(b: Bank, w: Want)
    ensures Oldest([b], w) == if Wants(b, w) then Some(0) else None
  {
    assert [b][..0] == [];
    assert Oldest([b][..0], w) == None;
  }

  /** The channel steps are those of the one slice. */
  lemma OneChannel(s: Ctrl, d: Bank, g: Bank, e: Channel)
    requires Shape(LATE, s) && CmdSlice(LATE, s.banks, s.cycle) == [d]
    requires DataSlice(LATE, [d], s.channels[0], s.cycle) == ([g], e)
    ensures Channels(LATE, s) == s.(banks := [g], channels := [e])
  {
    Whole(s.banks);
    Whole([d]);
    hide CmdSlice;
    hide DataSlice;
    hide Slice;
    hide Splice;
    assert CmdUpTo(LATE, s.banks, s.cycle, 0) == s.banks;
    assert CmdUpTo(LATE, s.banks, s.cycle, 1) == [d];
    assert DataUpTo(LATE, [d], s.channels, s.cycle, 0) == ([d], s.channels);
    assert DataUpTo(LATE, [d], s.channels, s.cycle, 1) == ([g], s.channels[0 := e]);
    assert s.channels[0 := e] == [e];
  }

  /** One bank with no data to transfer. */
  lemma ChannelNone(s: Ctrl)
    requires Shape(LATE, s) && !WantsData(Command(s.banks[0], s.cycle), s.cycle)
    ensures Channels(LATE, s) == s.(banks := [Command(s.banks[0], s.cycle)])
  {
    var b, c := s.banks[0], s.channels[0];
    assert s.banks == [b] && s.channels == [c];
    var d := Command(b, s.cycle);
    OldestOne(b, ForCmd);
    OldestOne(d, ForData(s.cycle));
    hide IssueCmd;
    OneChannel(s, d, d, c);
  }

  // ---------- cycles ----------

  lemma {:induction false} PickNone(xs: seq<Req>, mask: seq<bool>)
    requires |mask| == |xs| && forall i :: 0 <= i < |xs| ==> !mask[i]
    ensures Pick1(xs, mask, false) == xs && Pick1(xs, mask, true) == []
  {
    if xs != [] { PickNone(xs[..|xs|-1], mask[..|xs|-1]); }
  }

  lemma NoneSent(xs: seq<Req>, no: seq<bool>, mask: seq<bool>)
    requires no == Nones(|xs|) && mask == SendMask(xs, no, false, First(false, false))
    ensures forall i :: 0 <= i < |xs| ==> !mask[i]
  {
    DramOutput.SendPrefix(xs, no, false, false);
    hide SendMask;
    if xs != [] {
      assert !no[0];
      forall i | 0 <= i < |xs|
        ensures !mask[i]
      {
        assert !DramOutput.AllAccepted(no, i + 1);
      }
    }
  }

  /** A network that takes nothing. */
  lemma EmitNone(s: Ctrl)
    ensures Emit(LATE, s, Nones(|s.out.buffer|)) == s
  {
    var xs, no := s.out.buffer, Nones(|s.out.buffer|);
    var mask := SendMask(xs, no, LATE.vcPartition, First(false, false));
    NoneSent(xs, no, mask);
    PickNone(xs, mask);
    hide SendMask;
    assert s.out.sent + [] == s.out.sent;
  }

  function Quiet(s: Ctrl): Op { Cycle(Nones(|s.out.buffer|), None) }

  /** A cycle in which no data is transferred. */
  lemma QuietTick(s: Ctrl)
    requires Shape(LATE, s)
    requires var d := Command(s.banks[0], s.cycle); !WantsData(d, s.cycle) && !Completes(d, s.cycle)
    ensures OpOk(LATE, s, Quiet(s))
    ensures Exec(LATE, s, Quiet(s))
            == s.(banks := [SelectBank(LATE, Command(s.banks[0], s.cycle), s.cycle)], completed := 0, cycle := s.cycle + 1,
                  starve := if s.total > 0 then s.starve + 1 else 0)
  {
    EmitNone(s);
    ChannelNone(s);
    var d := Command(s.banks[0], s.cycle);
    var b := Channels(LATE, s);
    hide Command;
    hide SelectBank;
    hide Emit;
    hide Channels;
    assert CompleteUpTo(LATE, b, 1) == b.(completed := 0);
    assert SelectUpTo(LATE, [d], s.cycle, 1) == [d][0 := SelectBank(LATE, d, s.cycle)];
    assert Banks(LATE, b) == b.(completed := 0, banks := [SelectBank(LATE, d, s.cycle)]);
  }

  /** Data on its way. */
  predicate Fetching(s: Ctrl, until: nat) {
    && Shape(LATE, s) && s.total > 0
    && var b := s.banks[0];
       b.current.Some? && b.current.value.state == Data && b.dataAvail == At(until) && b.dataReady == Never
  }

  lemma {:induction false} WaitTicks(s: Ctrl, until: nat, n: nat)
    requires Reached(s) && Fetching(s, until) && s.cycle + n <= until
    ensures Reached(s.(cycle := s.cycle + n, starve := s.starve + n, completed := if n == 0 then s.completed else 0))
  {
    hide Reached;
    if n > 0 {
      WaitTicks(s, until, n - 1);
      var t := s.(cycle := s.cycle + (n - 1), starve := s.starve + (n - 1), completed := if n == 1 then s.completed else 0);
      WaitTick(t, until);
      Goes(t, Quiet(t));
    }
  }

  lemma WaitTick(t: Ctrl, until: nat)
    requires Fetching(t, until) && t.cycle < until
    ensures Shape(LATE, t) && OpOk(LATE, t, Quiet(t))
    ensures Exec(LATE, t, Quiet(t)) == t.(completed := 0, cycle := t.cycle + 1, starve := t.starve + 1)
  {
    QuietTick(t);
    assert t.banks == [t.banks[0]];
    hide Exec;
  }

  predicate Empty(s: Ctrl) {
    Shape(LATE, s) && s.banks == [FreshBank(LATE)] && s.total == 0 && s.starve == 0 && s.completed == 0
  }

  lemma {:induction false} IdleTicks(s: Ctrl, n: nat)
    requires Reached(s) && Empty(s)
    ensures Reached(s.(cycle := s.cycle + n))
  {
    hide Reached;
    if n > 0 {
      IdleTicks(s, n - 1);
      var t := s.(cycle := s.cycle + (n - 1));
      IdleTick(t);
      Goes(t, Quiet(t));
    }
  }

  lemma IdleTick(t: Ctrl)
    requires Empty(t)
    ensures OpOk(LATE, t, Quiet(t)) && Exec(LATE, t, Quiet(t)) == t.(cycle := t.cycle + 1)
  {
    QuietTick(t);
    hide Exec;
    hide FreshEntries;
  }

  // ---------- the completing cycle ----------

  /** The bus is free and one byte fits in what is left of it. */
  lemma ChannelGrant(s: Ctrl)
    requires Shape(LATE, s) && s.channels[0].busReady <= s.cycle && s.channels[0].byteAvail > 1
    requires WantsData(s.banks[0], s.cycle) && s.banks[0].current.value.size == 1
    ensures var c := s.channels[0];
            Channels(LATE, s) == s.(banks := [GrantBank(s.banks[0], s.cycle, s.cycle)],
                                    channels := [Channel(c.byteAvail - 1, s.cycle, c.granted + 1)])
  {
    var b, c, now := s.banks[0], s.channels[0], s.cycle;
    assert s.banks == [b] && s.channels == [c];
    var d, e := GrantBank(b, now, now), Channel(c.byteAvail - 1, now, c.granted + 1);
    GrantSlice(b, c, now);
    OneChannel(s, b, d, e);
  }

  lemma GrantSlice(b: Bank, c: Channel, now: nat)
    requires c.busReady <= now && 1 < c.byteAvail && WantsData(b, now) && b.current.value.size == 1
    ensures CmdSlice(LATE, [b], now) == [b]
    ensures DataSlice(LATE, [b], c, now) == ([GrantBank(b, now, now)], Channel(c.byteAvail - 1, now, c.granted + 1))
  {
    var d, e := GrantBank(b, now, now), Channel(c.byteAvail - 1, now, c.granted + 1);
    OldestOne(b, ForCmd);
    OldestOne(b, ForData(now));
    OldestOne(d, ForData(now));
    assert Acquire(LATE, c, 1, now) == (e, now);
    assert [b][0 := d] == [d];
    hide Oldest;
    assert DataSlice(LATE, [d], e, now) == ([d], e);
  }

  lemma OneKept(e: Entry, f: Entry, p: Pick)
    requires Matches(e, p) && !Matches(f, p)
    ensures Keep([e, f], p) == [e] && Drop([e, f], p) == [f]
  {
    assert [e, f][..1] == [e] && [e][..0] == [];
    assert Keep([e], p) == [] + [e] && Drop([e], p) == [];
  }

  /** Two reads of one address complete in cycle `WRAP - 1`; the counter reads zero, and the next read is
      selected. */
  lemma GrantTick(s: Ctrl, q: Entry, e: Entry, f: Entry)
    requires Shape(LATE, s) && s.cycle == WRAP - 1 && s.total == 3
    requires s.channels[0].busReady <= s.cycle && s.channels[0].byteAvail > 1
    requires var b := s.banks[0];
             b.current == Some(q) && b.buffer == [e, f] && q.state == Data && b.dataAvail == At(s.cycle)
    requires q.size == 1 && q.addr == e.addr != f.addr && q.req.kind == e.req.kind == DFetch
    ensures OpOk(LATE, s, Quiet(s)) && Misreads(LATE, s, Quiet(s))
    ensures var t := Exec(LATE, s, Quiet(s));
            && Shape(LATE, t) && t.cycle == WRAP && t.total == 1 && t.starve == s.starve + 1
            && t.banks[0].current == Some(f.(state := Cmd, scheduled := s.cycle)) && t.banks[0].openRow == s.banks[0].openRow
            && t.banks[0].dataReady == Never && t.banks[0].buffer == []
  {
    EmitNone(s);
    ChannelGrant(s);
    OneKept(e, f, ByAddr(q.addr));
    var d := GrantBank(s.banks[0], s.cycle, s.cycle);
    var b := Channels(LATE, s);
    assert Completes(d, s.cycle) && Merged(LATE, d) == [e];
    assert CountCompleted(LATE, d, s.cycle, 0) == 0;
    hide Emit;
    hide Channels;
    hide GrantBank;
    hide RetireAll;
    hide Retire;
    hide CountCompleted;
    assert b.(completed := 0).banks[0] == d;
    assert CompleteUpTo(LATE, b, 0) == b.(completed := 0);
    var c := CompleteOne(LATE, b.(completed := 0), 0);
    assert CompleteUpTo(LATE, b, 1) == c;
    assert c.completed == 0 && c.total == 1;
    assert !NoneCompletes(b.banks, s.cycle, 1);
    assert Misreads(LATE, s, Quiet(s));
    var g := CompleteBank(LATE, d, s.cycle);
    assert c.banks == [g];
    assert SelectUpTo(LATE, [g], s.cycle, 1) == [g][0 := SelectBank(LATE, g, s.cycle)];
    assert g.buffer == [f] && g.current.None?;
  }

  // ---------- the run ----------

  const READ := Req(1, DFetch, 64, 1, false, 0)
  const SAME := READ.(id := 2)
  const OTHER := READ.(id := 3, addr := 128)

  /** The cycle in which the three reads arrive. */
  const T0: nat := WRAP - 4003

  function Waiting(slot: nat, r: Req): Entry { Entry(slot, Init, r.addr, 0, 0, r, 1, T0, 0) }

  lemma Arrivals()
    ensures exists s :: Reached(s) && Shape(LATE, s) && s.cycle == T0 && s.total == 3 && s.starve == 0
              && s.channels == [Channel(64, 0, 0)]
              && s.banks == [FreshBank(LATE).(buffer := [Waiting(0, READ), Waiting(1, SAME), Waiting(2, OTHER)], free := [])]
  {
    hide Reached;
    var s0 := Start(LATE);
    StartReached();
    IdleTicks(s0, T0);
    var s1 := s0.(cycle := T0);
    ArriveGoes(s1, READ, [], FreshEntries(3), 0);
    FreshThree();
    var s2 := Insert(s1, Arrival(READ, 0, 0, 0)).0;
    ArriveGoes(s2, SAME, s2.banks[0].buffer, s2.banks[0].free, 1);
    var s3 := Insert(s2, Arrival(SAME, 0, 0, 0)).0;
    ArriveGoes(s3, OTHER, s3.banks[0].buffer, s3.banks[0].free, 2);
    var s4 := Insert(s3, Arrival(OTHER, 0, 0, 0)).0;
    assert s4.banks[0].buffer == [Waiting(0, READ), Waiting(1, SAME), Waiting(2, OTHER)];
    assert s4.banks == [s4.banks[0]];
  }

  lemma FreshThree()
    ensures FreshEntries(3) == [FreshEntry(0), FreshEntry(1), FreshEntry(2)]
  {
  }

  lemma StartReached()
    ensures Reached(Start(LATE)) && Empty(Start(LATE)) && Start(LATE).cycle == 0 && Start(LATE).accepted == []
    ensures Start(LATE).channels == [Channel(64, 0, 0)]
  {
    var s := Start(LATE);
    var none: seq<Op> := [];
    assert SmallRun(LATE, [s], none, 1) && [s][|none|] == s;
    hide FreshBank;
    assert s.banks == [FreshBank(LATE)];
  }

  lemma ArriveGoes(s: Ctrl, r: Req, buffer: seq<Entry>, free: seq<Entry>, slot: nat)
    requires Reached(s) && Shape(LATE, s) && r.size == 1 && r.id !in s.accepted && s.cycle == T0
    requires s.banks == [FreshBank(LATE).(buffer := buffer, free := free)] && free != [] && free[0] == FreshEntry(slot)
    ensures var t := Insert(s, Arrival(r, 0, 0, 0)).0;
            && Reached(t) && Shape(LATE, t)
            && t == s.(banks := [FreshBank(LATE).(buffer := buffer + [Waiting(slot, r)], free := free[1..])],
                       total := s.total + 1, accepted := s.accepted + [r.id])
  {
    Goes(s, Arrive(Arrival(r, 0, 0, 0)));
    hide Reached;
    hide FreshEntries;
    assert SetEntry(free[0], Arrival(r, 0, 0, 0), T0) == Waiting(slot, r);
  }

  /** The first read has been given its column command. */
  lemma FirstColumn()
    ensures exists s :: Reached(s) && Fetching(s, WRAP - 1) && s.cycle == T0 + 3 && s.total == 3 && s.starve == 3
              && s.channels == [Channel(64, 0, 0)] && s.banks[0].openRow == 0
              && s.banks[0].current == Some(Waiting(0, READ).(state := Data, scheduled := T0))
              && s.banks[0].buffer == [Waiting(1, SAME), Waiting(2, OTHER)]
  {
    hide Reached;
    Arrivals();
    var s :| Reached(s) && Shape(LATE, s) && s.cycle == T0 && s.total == 3 && s.starve == 0
             && s.channels == [Channel(64, 0, 0)]
             && s.banks == [FreshBank(LATE).(buffer := [Waiting(0, READ), Waiting(1, SAME), Waiting(2, OTHER)], free := [])];
    var t := s;
    t := Step(t);
    t := Step(t);
    t := Step(t);
  }

  lemma Step(s: Ctrl) returns (t: Ctrl)
    requires Reached(s) && Shape(LATE, s) && s.total > 0
    requires var d := Command(s.banks[0], s.cycle); !WantsData(d, s.cycle) && !Completes(d, s.cycle)
    ensures Reached(t) && Shape(LATE, t)
    ensures t == s.(banks := [SelectBank(LATE, Command(s.banks[0], s.cycle), s.cycle)], completed := 0, cycle := s.cycle + 1,
                    starve := s.starve + 1)
  {
    QuietTick(s);
    hide Exec;
    hide OpOk;
    Goes(s, Quiet(s));
    t := Exec(LATE, s, Quiet(s));
  }

  ghost predicate Misread(s: Ctrl) {
    Reached(s) && Shape(LATE, s) && OpOk(LATE, s, Quiet(s)) && Misreads(LATE, s, Quiet(s))
  }

  /** The third read was selected when the first two completed. */
  ghost predicate ThirdSelected(t: Ctrl) {
    && Reached(t) && Shape(LATE, t) && t.cycle == WRAP && t.total == 1 && t.starve == 4003
    && t.banks[0].current == Some(Waiting(2, OTHER).(state := Cmd, scheduled := WRAP - 1)) && t.banks[0].openRow == 0
    && t.banks[0].dataReady == Never
  }

  /** The cycle that completes the two merged reads misreads. */
  lemma MisreadReached() returns (u: Ctrl, t: Ctrl)
    ensures Misread(u) && ThirdSelected(t)
  {
    hide Reached;
    FirstColumn();
    var s :| Reached(s) && Fetching(s, WRAP - 1) && s.cycle == T0 + 3 && s.total == 3 && s.starve == 3
             && s.channels == [Channel(64, 0, 0)] && s.banks[0].openRow == 0
             && s.banks[0].current == Some(Waiting(0, READ).(state := Data, scheduled := T0))
             && s.banks[0].buffer == [Waiting(1, SAME), Waiting(2, OTHER)];
    WaitTicks(s, WRAP - 1, 3999);
    u := s.(cycle := s.cycle + 3999, starve := s.starve + 3999, completed := 0);
    GrantTick(u, s.banks[0].current.value, Waiting(1, SAME), Waiting(2, OTHER));
    Goes(u, Quiet(u));
    t := Exec(LATE, u, Quiet(u));
  }

  lemma AsRun(s: Ctrl)
    requires Reached(s)
    ensures exists states: seq<Ctrl>, ops: seq<Op> :: SmallRun(LATE, states, ops, 1) && states[|ops|] == s
  {
  }

  /** A run with a cycle that completes two requests and reads zero. */
  lemma CompletedReadsZero()
    ensures exists states: seq<Ctrl>, ops: seq<Op>, i: nat :: MisreadsAt(states, ops, i)
  {
    var u, t := MisreadReached();
    hide ThirdSelected;
    MisreadRuns(u);
  }

  ghost predicate MisreadsAt(states: seq<Ctrl>, ops: seq<Op>, i: nat) {
    SmallRun(LATE, states, ops, 1) && i < |ops| && Misreads(LATE, states[i], ops[i])
  }

  ghost predicate StarvesAt(states: seq<Ctrl>, ops: seq<Op>, i: nat) {
    SmallRun(LATE, states, ops, 1) && i < |states| && states[i].starve >= STARVE_LIMIT
  }

  /** With the bound below 5000 a run in which the starvation counter reaches it after such a cycle. */
  lemma StarvesAfterMisread()
    ensures AllServed(LATE) && Limit(LATE, 1) < STARVE_LIMIT
    ensures exists states: seq<Ctrl>, ops: seq<Op>, i: nat :: StarvesAt(states, ops, i)
  {
    LimitSmall();
    var u, t := MisreadReached();
    hide Misread;
    Hunger(t);
  }

  lemma LimitSmall()
    ensures AllServed(LATE) && Limit(LATE, 1) == 4006
  {
    assert LATE.PerChannel() == 1;
    assert BusTime(LATE, 1) == 1;
  }

  lemma MisreadRuns(s: Ctrl)
    requires Misread(s)
    ensures exists states: seq<Ctrl>, ops: seq<Op>, i: nat :: MisreadsAt(states, ops, i)
  {
    hide Exec;
    hide Shape;
    hide OpOk;
    hide Start;
    hide Misreads;
    var states: seq<Ctrl>, ops: seq<Op> :| SmallRun(LATE, states, ops, 1) && states[|ops|] == s;
    var more, steps := states + [Exec(LATE, s, Quiet(s))], ops + [Quiet(s)];
    assert SmallRun(LATE, more, steps, 1);
    assert more[|ops|] == s && steps[|ops|] == Quiet(s);
    assert MisreadsAt(more, steps, |ops|);
  }

  lemma Hunger(t: Ctrl)
    requires ThirdSelected(t)
    ensures exists states: seq<Ctrl>, ops: seq<Op>, i: nat :: StarvesAt(states, ops, i)
  {
    hide Reached;
    var u := Step(t);
    WaitTicks(u, WRAP + 4000, 996);
    var v := u.(cycle := u.cycle + 996, starve := u.starve + 996, completed := 0);
    AsRun(v);
    hide SmallRun;
    var states: seq<Ctrl>, ops: seq<Op> :| SmallRun(LATE, states, ops, 1) && states[|ops|] == v;
    LastIndex(states, ops);
    assert StarvesAt(states, ops, |ops|);
  }

  lemma LastIndex(states: seq<Ctrl>, ops: seq<Op>)
    requires SmallRun(LATE, states, ops, 1)
    ensures |states| == |ops| + 1
  {
  }
}
