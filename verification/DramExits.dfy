/**
 What conservation says, spelled out: the books of a bank, and the one exit of every accepted request,
 by injection into the network, by a write-back's release or by a prefetch flush.
 */
module DramExits {
  import opened DramModel
  import opened Options
  import opened DramRuns
  import opened DramLift
  import opened DramConservation

  // ---------- the books of a bank ----------

  /** In every state of every run: free entries, buffered ones and the current one make up a bank's
      buffer, buffered entries are in DRAM_INIT, and data is on its way exactly in DRAM_DATA_WAIT. */
  lemma BankBooks(cfg: Config, states: seq<Ctrl>, ops: seq<Op>, i: nat, b: nat)
    requires IsRun(cfg, states, ops) && i < |states| && b < |states[i].banks|
    ensures var k := states[i].banks[b];
            && |k.free| + |k.buffer| + (if k.current.Some? then 1 else 0) == cfg.bufferSize
            && (forall e :: e in k.buffer || e in k.free ==> e.state == Init)
            && (k.dataReady.At? <==> k.current.Some? && k.current.value.state == DataWait)
            && (k.dataAvail.At? <==> k.current.Some? && k.current.value.state == Data)
    ensures states[i].total == TotalLoad(states[i].banks)
  {
    RunConserved(cfg, states, ops, i);
    assert BankOk(cfg, states[i].banks[b]);
  }

  // ---------- exits are for good ----------

  /** Nothing that left comes back. */
  predicate Grows(a: Output, b: Output) { a.sent <= b.sent && a.freed <= b.freed }

  lemma {:induction false} RetireAllGrows(cfg: Config, o: Output, xs: seq<Entry>, now: nat)
    ensures Grows(o, RetireAll(cfg, o, xs, now))
  {
    if xs != [] { RetireAllGrows(cfg, o, xs[..|xs|-1], now); }
  }

  lemma CompleteOneGrows(cfg: Config, s: Ctrl, i: nat)
    requires i < |s.banks|
    ensures Grows(s.out, CompleteOne(cfg, s, i).out)
  {
    if Completes(s.banks[i], s.cycle) { RetireAllGrows(cfg, s.out, Merged(cfg, s.banks[i]), s.cycle); }
  }

  lemma {:induction false} CompleteGrows(cfg: Config, s: Ctrl, k: nat)
    requires k <= |s.banks|
    ensures Grows(s.out, CompleteUpTo(cfg, s, k).out)
  {
    if k > 0 {
      CompleteGrows(cfg, s, k - 1);
      CompleteOneGrows(cfg, CompleteUpTo(cfg, s, k - 1), k - 1);
    }
  }

  lemma EmitGrows(cfg: Config, s: Ctrl, accept: seq<bool>)
    requires |accept| == |s.out.buffer|
    ensures Grows(s.out, Emit(cfg, s, accept).out)
  {
  }

  lemma InsertGrows(s: Ctrl, a: Arrival)
    requires a.bid < |s.banks|
    ensures Grows(s.out, Insert(s, a).0.out)
  {
  }

  lemma ExecGrows(cfg: Config, s: Ctrl, op: Op)
    requires Shape(cfg, s) && OpOk(cfg, s, op)
    ensures Grows(s.out, Exec(cfg, s, op).out)
  {
    match op
    case Cycle(accept, arrival) =>
      var a := Emit(cfg, s, accept);
      EmitGrows(cfg, s, accept);
      CompleteGrows(cfg, Channels(cfg, a), |Channels(cfg, a).banks|);
      var c := Banks(cfg, Channels(cfg, a));
      if arrival.Some? { InsertGrows(c, arrival.value); }
    case Arrive(a) => InsertGrows(s, a);
    case Adjust(_, _, _, _, _) =>
  }

  lemma {:induction false} RunGrows(cfg: Config, states: seq<Ctrl>, ops: seq<Op>, i: nat, j: nat)
    requires IsRun(cfg, states, ops) && i <= j < |states|
    ensures Grows(states[i].out, states[j].out)
  {
    if i < j {
      RunGrows(cfg, states, ops, i, j - 1);
      ExecGrows(cfg, states[j - 1], ops[j - 1]);
    }
  }

  // ---------- one exit ----------

  /** How often a request has left the controller. */
  function Exits(s: Ctrl, v: nat): nat { IdOcc(s.out.sent, v) + IdOcc(s.out.freed, v) }

  /** How often it is in a bank or in one of the output buffers. */
  function Inside(s: Ctrl, v: nat): nat { Held(s.banks, v) + IdOcc(s.out.buffer, v) + IdOcc(s.out.delayed, v) }

  lemma PrefixOcc(xs: seq<Req>, ys: seq<Req>, v: nat)
    requires xs <= ys
    ensures IdOcc(xs, v) <= IdOcc(ys, v)
  {
    assert ys == xs + ys[|xs|..];
    IdOccCat(xs, ys[|xs|..], v);
  }

  /** At any time an accepted request either is inside once or has left once; once it has left it never
      is inside or leaves again, and what was not accepted does neither. */
  lemma LeavesOnce(cfg: Config, states: seq<Ctrl>, ops: seq<Op>, i: nat, j: nat, v: nat)
    requires IsRun(cfg, states, ops) && i <= j < |states|
    ensures Inside(states[i], v) + Exits(states[i], v) == if v in states[i].accepted then 1 else 0
    ensures Exits(states[i], v) == 1 ==> Exits(states[j], v) == 1 && Inside(states[j], v) == 0
  {
    RunConserved(cfg, states, ops, i);
    RunConserved(cfg, states, ops, j);
    assert Places(states[i], v) == One(v in states[i].accepted);
    assert Places(states[j], v) == One(v in states[j].accepted);
    RunGrows(cfg, states, ops, i, j);
    PrefixOcc(states[i].out.sent, states[j].out.sent, v);
    PrefixOcc(states[i].out.freed, states[j].out.freed, v);
  }
}
