/**
 Where each kind of request leaves the controller, over runs: a write-back is released, a prefetch is
 injected or flushed, and a demand keeps its kind and leaves only by injection.
 */
module DramKinds {
  import opened DramModel
  import opened Options
  import opened DramRuns
  import opened DramLift
  import opened DramConservation
  import opened DramExits

  // ---------- what is sent and what is freed ----------

  ghost predicate KindsOk(o: Output) {
    && (forall r :: r in o.freed ==> r.kind == Wb || r.kind == DPrf)
    && (forall r :: r in o.buffer || r in o.delayed || r in o.sent ==> r.kind != Wb)
  }

  lemma {:induction false} RetireAllKinds(cfg: Config, o: Output, xs: seq<Entry>, now: nat)
    requires KindsOk(o)
    ensures KindsOk(RetireAll(cfg, o, xs, now))
  {
    if xs != [] { RetireAllKinds(cfg, o, xs[..|xs|-1], now); }
  }

  lemma {:induction false} CompleteKinds(cfg: Config, s: Ctrl, k: nat)
    requires k <= |s.banks| && KindsOk(s.out)
    ensures KindsOk(CompleteUpTo(cfg, s, k).out)
  {
    if k > 0 {
      CompleteKinds(cfg, s, k - 1);
      var t := CompleteUpTo(cfg, s, k - 1);
      if Completes(t.banks[k - 1], t.cycle) { RetireAllKinds(cfg, t.out, Merged(cfg, t.banks[k - 1]), t.cycle); }
    }
  }

  lemma {:induction false} Pick1In(xs: seq<Req>, mask: seq<bool>, want: bool)
    requires |mask| == |xs|
    ensures forall r :: r in Pick1(xs, mask, want) ==> r in xs
  {
    if xs != [] { Pick1In(xs[..|xs|-1], mask[..|xs|-1], want); }
  }

  lemma EmitKinds(cfg: Config, s: Ctrl, accept: seq<bool>)
    requires |accept| == |s.out.buffer| && KindsOk(s.out)
    ensures KindsOk(Emit(cfg, s, accept).out)
  {
    var mask := SendMask(s.out.buffer, accept, cfg.vcPartition, First(false, false));
    Pick1In(s.out.buffer, mask, true);
    Pick1In(s.out.buffer, mask, false);
  }

  lemma {:induction false} ReqsIn(xs: seq<Entry>)
    ensures forall r :: r in Reqs(xs) ==> exists e :: e in xs && e.req == r
  {
    if xs != [] {
      var n := |xs| - 1;
      ReqsIn(xs[..n]);
      forall r | r in Reqs(xs)
        ensures exists e :: e in xs && e.req == r
      {
        if r == xs[n].req {
          assert xs[n] in xs;
        } else {
          assert r in Reqs(xs[..n]);
          var e :| e in xs[..n] && e.req == r;
          assert e in xs;
        }
      }
    }
  }

  lemma InsertKinds(s: Ctrl, a: Arrival)
    requires a.bid < |s.banks| && KindsOk(s.out)
    ensures KindsOk(Insert(s, a).0.out)
  {
    KeepDropIn(s.banks[a.bid].buffer, Prefetch);
    ReqsIn(Keep(s.banks[a.bid].buffer, Prefetch));
    hide Keep;
    hide FlushBank;
  }

  lemma ExecKinds(cfg: Config, s: Ctrl, op: Op)
    requires Shape(cfg, s) && OpOk(cfg, s, op) && KindsOk(s.out)
    ensures KindsOk(Exec(cfg, s, op).out)
  {
    match op
    case Cycle(accept, arrival) =>
      var a := Emit(cfg, s, accept);
      EmitKinds(cfg, s, accept);
      CompleteKinds(cfg, Channels(cfg, a), |Channels(cfg, a).banks|);
      var c := Banks(cfg, Channels(cfg, a));
      if arrival.Some? { InsertKinds(c, arrival.value); }
    case Arrive(a) => InsertKinds(s, a);
    case Adjust(_, _, _, _, _) =>
  }

  /** In every state of every run: whatever was freed is a write-back or a prefetch, and no write-back was sent
      or waits to be. */
  lemma {:induction false} RunKinds(cfg: Config, states: seq<Ctrl>, ops: seq<Op>, i: nat)
    requires IsRun(cfg, states, ops) && i < |states|
    ensures forall r :: r in states[i].out.freed ==> r.kind == Wb || r.kind == DPrf
    ensures forall r :: r in states[i].out.buffer || r in states[i].out.delayed || r in states[i].out.sent ==> r.kind != Wb
  {
    if i > 0 {
      RunKinds(cfg, states, ops, i - 1);
      ExecKinds(cfg, states[i - 1], ops[i - 1]);
    }
  }

  // ---------- one request ----------

  /** What is known of a request: its number and its kind, if that is not a prefetch's. */
  datatype Tag = Tag(id: nat, kind: ReqType)

  predicate Is(r: Req, g: Tag) { r.id == g.id ==> r.kind == g.kind }

  predicate BankIs(b: Bank, g: Tag) {
    && (forall e :: e in b.buffer ==> Is(e.req, g))
    && (b.current.Some? ==> Is(b.current.value.req, g))
  }

  ghost predicate OutIs(o: Output, g: Tag) {
    forall r :: r in o.buffer || r in o.delayed || r in o.sent || r in o.freed ==> Is(r, g)
  }

  ghost predicate AllIs(s: Ctrl, g: Tag) {
    OutIs(s.out, g) && forall b :: 0 <= b < |s.banks| ==> BankIs(s.banks[b], g)
  }

  lemma {:induction false} RetireAllIs(cfg: Config, o: Output, xs: seq<Entry>, now: nat, g: Tag)
    requires OutIs(o, g) && forall e :: e in xs ==> Is(e.req, g)
    ensures OutIs(RetireAll(cfg, o, xs, now), g)
  {
    if xs != [] {
      assert xs[|xs|-1] in xs;
      RetireAllIs(cfg, o, xs[..|xs|-1], now, g);
    }
  }

  lemma CompleteOneIs(cfg: Config, s: Ctrl, i: nat, g: Tag)
    requires i < |s.banks| && OutIs(s.out, g) && BankIs(s.banks[i], g)
    ensures OutIs(CompleteOne(cfg, s, i).out, g)
  {
    var b := s.banks[i];
    if Completes(b, s.cycle) {
      KeepDropIn(b.buffer, ByAddr(b.current.value.addr));
      RetireAllIs(cfg, s.out, Merged(cfg, b), s.cycle, g);
      hide Keep;
      hide RetireAll;
    }
  }

  lemma Untouched(cfg: Config, s: Ctrl, k: nat)
    requires 0 < k <= |s.banks|
    ensures CompleteUpTo(cfg, s, k - 1).banks[k - 1] == s.banks[k - 1]
  {
    CompleteUpToFrame(cfg, s, k - 1);
  }

  lemma {:induction false} CompleteIs(cfg: Config, s: Ctrl, k: nat, g: Tag)
    requires k <= |s.banks| && AllIs(s, g)
    ensures OutIs(CompleteUpTo(cfg, s, k).out, g)
  {
    if k > 0 {
      hide BankIs;
      hide OutIs;
      hide CompleteOne;
      CompleteIs(cfg, s, k - 1, g);
      Untouched(cfg, s, k);
      CompleteOneIs(cfg, CompleteUpTo(cfg, s, k - 1), k - 1, g);
    }
  }

  lemma TurnIs(cfg: Config, b: Bank, now: nat, g: Tag)
    requires BankIs(b, g)
    ensures BankIs(CompleteBank(cfg, b, now), g) && BankIs(Turn(cfg, b, now), g)
  {
    if Completes(b, now) { KeepDropIn(b.buffer, ByAddr(b.current.value.addr)); }
    var c := CompleteBank(cfg, b, now);
    if c.current.None? && c.buffer != [] {
      SortBufferIn(c.buffer, c.openRow);
      var xs := Schedule(cfg, c);
      assert xs[0] in xs;
      forall e | e in xs[1..]
        ensures e in xs
      {
      }
    }
  }

  lemma AdvanceIs(cfg: Config, b: Bank, mid: Bank, c: Bank, now: nat, g: Tag)
    requires BankIs(b, g) && Commanded(cfg, b, mid, now) && Granted(mid, c, now)
    ensures BankIs(c, g)
  {
  }

  lemma MiddleIs(cfg: Config, e: Ctrl, g: Tag)
    requires Shape(cfg, e) && AllIs(e, g)
    ensures AllIs(Banks(cfg, Channels(cfg, e)), g)
  {
    hide Turn;
    hide BankIs;
    ChannelsShape(cfg, e);
    var b := Channels(cfg, e);
    BanksPointwise(cfg, b);
    forall i | 0 <= i < |b.banks|
      ensures BankIs(b.banks[i], g) && BankIs(Turn(cfg, b.banks[i], b.cycle), g)
    {
      assert BankIs(e.banks[i], g);
      var mid := ChannelsEach(cfg, e, i);
      AdvanceIs(cfg, e.banks[i], mid, b.banks[i], e.cycle, g);
      TurnIs(cfg, b.banks[i], b.cycle, g);
    }
    CompleteIs(cfg, b, |b.banks|, g);
    hide Channels;
    hide OutIs;
  }

  lemma EmitIs(cfg: Config, s: Ctrl, accept: seq<bool>, g: Tag)
    requires |accept| == |s.out.buffer| && AllIs(s, g)
    ensures AllIs(Emit(cfg, s, accept), g)
  {
    var mask := SendMask(s.out.buffer, accept, cfg.vcPartition, First(false, false));
    Pick1In(s.out.buffer, mask, true);
    Pick1In(s.out.buffer, mask, false);
    hide BankIs;
  }

  lemma InsertIs(s: Ctrl, a: Arrival, g: Tag)
    requires a.bid < |s.banks| && AllIs(s, g) && Is(a.req, g)
    ensures AllIs(Insert(s, a).0, g)
  {
    var b := s.banks[a.bid];
    assert BankIs(b, g);
    KeepDropIn(b.buffer, Prefetch);
    ReqsIn(Keep(b.buffer, Prefetch));
    var t := Insert(s, a).0;
    forall i | 0 <= i < |t.banks|
      ensures BankIs(t.banks[i], g)
    {
      assert BankIs(s.banks[i], g);
    }
    hide Keep;
    hide Drop;
    assert OutIs(t.out, g);
  }

  lemma AdjustReqsIs(xs: seq<Req>, op: Op, g: Tag)
    requires op.Adjust? && g.kind != DPrf && forall r :: r in xs ==> Is(r, g)
    ensures forall r :: r in AdjustReqs(xs, op) ==> Is(r, g)
  {
    forall r | r in AdjustReqs(xs, op)
      ensures Is(r, g)
    {
      var k :| 0 <= k < |xs| && AdjustReqs(xs, op)[k] == r;
      assert xs[k] in xs;
    }
  }

  lemma AdjustIs(s: Ctrl, op: Op, g: Tag)
    requires AllIs(s, g) && op.Adjust? && g.kind != DPrf
    ensures AllIs(AdjustAll(s, op), g)
  {
    var t := AdjustAll(s, op);
    AdjustReqsIs(s.out.buffer, op, g);
    AdjustReqsIs(s.out.delayed, op, g);
    forall i | 0 <= i < |t.banks|
      ensures BankIs(t.banks[i], g)
    {
      assert BankIs(s.banks[i], g);
    }
  }

  predicate ArrivalIs(op: Op, g: Tag) {
    match op
    case Cycle(_, arrival) => arrival.Some? ==> Is(arrival.value.req, g)
    case Arrive(a) => Is(a.req, g)
    case Adjust(_, _, _, _, _) => true
  }

  lemma ExecIs(cfg: Config, s: Ctrl, op: Op, g: Tag)
    requires Shape(cfg, s) && OpOk(cfg, s, op) && AllIs(s, g) && ArrivalIs(op, g) && g.kind != DPrf
    ensures AllIs(Exec(cfg, s, op), g)
  {
    match op
    case Cycle(accept, arrival) =>
      var e := Emit(cfg, s, accept);
      EmitIs(cfg, s, accept, g);
      MiddleIs(cfg, e, g);
      ChannelsShape(cfg, e);
      BanksPointwise(cfg, Channels(cfg, e));
      hide Banks;
      hide Channels;
      if arrival.Some? { InsertIs(Banks(cfg, Channels(cfg, e)), arrival.value, g); }
    case Arrive(a) => InsertIs(s, a, g);
    case Adjust(_, _, _, _, _) => AdjustIs(s, op, g);
  }

  lemma {:induction false} NoneOcc(xs: seq<Entry>, v: nat)
    requires Occ(xs, ById, v) == 0
    ensures forall e :: e in xs ==> e.req.id != v
  {
    if xs != [] { NoneOcc(xs[..|xs|-1], v); }
  }

  lemma {:induction false} NoneIdOcc(xs: seq<Req>, v: nat)
    requires IdOcc(xs, v) == 0
    ensures forall r :: r in xs ==> r.id != v
  {
    if xs != [] { NoneIdOcc(xs[..|xs|-1], v); }
  }

  lemma {:induction false} NoneHeld(banks: seq<Bank>, g: Tag)
    requires Held(banks, g.id) == 0
    ensures forall b :: 0 <= b < |banks| ==> BankIs(banks[b], g)
  {
    if banks != [] {
      NoneHeld(banks[..|banks|-1], g);
      NoneOcc(banks[|banks|-1].buffer, g.id);
    }
  }

  /** What was not accepted is nowhere, so nothing contradicts its tag. */
  lemma FreshIs(cfg: Config, states: seq<Ctrl>, ops: seq<Op>, i: nat, g: Tag)
    requires IsRun(cfg, states, ops) && i < |states| && g.id !in states[i].accepted
    ensures AllIs(states[i], g)
  {
    RunConserved(cfg, states, ops, i);
    var s := states[i];
    assert Places(s, g.id) == 0;
    NoneHeld(s.banks, g);
    NoneIdOcc(s.out.buffer, g.id);
    NoneIdOcc(s.out.delayed, g.id);
    NoneIdOcc(s.out.sent, g.id);
    NoneIdOcc(s.out.freed, g.id);
  }

  lemma AcceptedStays(cfg: Config, s: Ctrl, op: Op, v: nat)
    requires Shape(cfg, s) && OpOk(cfg, s, op) && v in s.accepted
    ensures v in Exec(cfg, s, op).accepted
  {
    match op
    case Cycle(accept, arrival) => TickAccepted(cfg, s, accept);
    case Arrive(a) =>
    case Adjust(_, _, _, _, _) =>
  }

  /** The request that arrives in step `op`. */
  predicate Brings(op: Op, r: Req) {
    match op
    case Cycle(_, arrival) => arrival.Some? && arrival.value.req == r
    case Arrive(a) => a.req == r
    case Adjust(_, _, _, _, _) => false
  }

  lemma {:induction false} TagKept(cfg: Config, states: seq<Ctrl>, ops: seq<Op>, i: nat, j: nat, r: Req)
    requires IsRun(cfg, states, ops) && i < j < |states| && Brings(ops[i], r) && r.kind != DPrf
    requires r.id in states[i + 1].accepted
    ensures AllIs(states[j], Tag(r.id, r.kind)) && r.id in states[j].accepted
  {
    var g := Tag(r.id, r.kind);
    hide Exec;
    hide AllIs;
    if j == i + 1 {
      FreshIs(cfg, states, ops, i, g);
      ExecIs(cfg, states[i], ops[i], g);
    } else {
      TagKept(cfg, states, ops, i, j - 1, r);
      AcceptedStays(cfg, states[j - 1], ops[j - 1], r.id);
      ExecIs(cfg, states[j - 1], ops[j - 1], g);
    }
  }

  /** A request that arrives as neither a write-back nor a prefetch and is accepted is never freed: at any time
      after, it is inside the controller once or has been injected once, and what was injected has the kind it
      came with. */
  lemma DemandLeavesBySending(cfg: Config, states: seq<Ctrl>, ops: seq<Op>, i: nat, j: nat, r: Req)
    requires IsRun(cfg, states, ops) && i < j < |states| && Brings(ops[i], r) && r.id in states[i + 1].accepted
    requires r.kind != Wb && r.kind != DPrf
    ensures forall x :: x in states[j].out.freed ==> x.id != r.id
    ensures forall x :: x in states[j].out.sent && x.id == r.id ==> x.kind == r.kind
    ensures Inside(states[j], r.id) + IdOcc(states[j].out.sent, r.id) == 1
  {
    TagKept(cfg, states, ops, i, j, r);
    RunKinds(cfg, states, ops, j);
    LeavesOnce(cfg, states, ops, j, j, r.id);
    var s := states[j];
    forall x | x in s.out.freed
      ensures x.id != r.id
    {
      assert Is(x, Tag(r.id, r.kind));
    }
    NeverIn(s.out.freed, r.id);
  }

  lemma {:induction false} NeverIn(xs: seq<Req>, v: nat)
    requires forall x :: x in xs ==> x.id != v
    ensures IdOcc(xs, v) == 0
  {
    if xs != [] {
      assert xs[|xs|-1] in xs;
      NeverIn(xs[..|xs|-1], v);
    }
  }
}
