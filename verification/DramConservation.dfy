/**
 Conservation in the DRAM controller: every request-buffer entry is in exactly one of the free
 list, the buffer and the current slot of its bank; `m_total_req` counts the requests held; and
 every request accepted is held, on its way out, injected or freed, exactly once.
 */
module DramConservation {
  import opened DramModel
  import opened Options
  import opened DramRuns
  import opened DramLift

  // ---------- occurrences of an entry object or of a request ----------

  datatype Key = BySlot | ById

  function KeyOf(e: Entry, k: Key): nat {
    if k.BySlot? then e.slot else e.req.id
  }

  function One(b: bool): nat {
    if b then 1 else 0
  }

  function Occ(xs: seq<Entry>, k: Key, v: nat): nat {
    if xs == [] then 0 else Occ(xs[..|xs|-1], k, v) + One(KeyOf(xs[|xs|-1], k) == v)
  }

  function IdOcc(xs: seq<Req>, v: nat): nat {
    if xs == [] then 0 else IdOcc(xs[..|xs|-1], v) + One(xs[|xs|-1].id == v)
  }

  function CurOcc(b: Bank, k: Key, v: nat): nat {
    One(b.current.Some? && KeyOf(b.current.value, k) == v)
  }

  lemma {:induction false} OccCat(xs: seq<Entry>, ys: seq<Entry>, k: Key, v: nat)
    ensures Occ(xs + ys, k, v) == Occ(xs, k, v) + Occ(ys, k, v)
  {
    if ys == [] {
      assert xs + ys == xs;
    } else {
      assert (xs + ys)[..|xs + ys| - 1] == xs + ys[..|ys|-1];
      OccCat(xs, ys[..|ys|-1], k, v);
    }
  }

  lemma {:induction false} IdOccCat(xs: seq<Req>, ys: seq<Req>, v: nat)
    ensures IdOcc(xs + ys, v) == IdOcc(xs, v) + IdOcc(ys, v)
  {
    if ys == [] {
      assert xs + ys == xs;
    } else {
      assert (xs + ys)[..|xs + ys| - 1] == xs + ys[..|ys|-1];
      IdOccCat(xs, ys[..|ys|-1], v);
    }
  }

  lemma OccOne(e: Entry, k: Key, v: nat)
    ensures Occ([e], k, v) == One(KeyOf(e, k) == v)
  {
    assert [e][..0] == [];
  }

  lemma IdOccOne(r: Req, v: nat)
    ensures IdOcc([r], v) == One(r.id == v)
  {
    assert [r][..0] == [];
  }

  lemma OccHead(xs: seq<Entry>, k: Key, v: nat)
    requires xs != []
    ensures Occ(xs, k, v) == One(KeyOf(xs[0], k) == v) + Occ(xs[1..], k, v)
  {
    assert [xs[0]] + xs[1..] == xs;
    OccCat([xs[0]], xs[1..], k, v);
    OccOne(xs[0], k, v);
  }

  lemma {:induction false} ReqsOcc(xs: seq<Entry>, v: nat)
    ensures IdOcc(Reqs(xs), v) == Occ(xs, ById, v)
  {
    if xs != [] {
      var n := |xs| - 1;
      assert Reqs(xs)[..n] == Reqs(xs[..n]);
      ReqsOcc(xs[..n], v);
    }
  }

  lemma {:induction false} KeepDropOcc(xs: seq<Entry>, p: Pick, k: Key, v: nat)
    ensures Occ(xs, k, v) == Occ(Keep(xs, p), k, v) + Occ(Drop(xs, p), k, v)
  {
    if xs != [] {
      var n := |xs| - 1;
      KeepDropOcc(xs[..n], p, k, v);
      OccCat(Keep(xs[..n], p), if Matches(xs[n], p) then [xs[n]] else [], k, v);
      OccCat(Drop(xs[..n], p), if Matches(xs[n], p) then [] else [xs[n]], k, v);
      OccOne(xs[n], k, v);
    }
  }

  lemma {:induction false} KeepDropIn(xs: seq<Entry>, p: Pick)
    ensures |xs| == |Keep(xs, p)| + |Drop(xs, p)|
    ensures forall e :: e in Keep(xs, p) <==> e in xs && Matches(e, p)
    ensures forall e :: e in Drop(xs, p) <==> e in xs && !Matches(e, p)
  {
    if xs != [] {
      var n := |xs| - 1;
      KeepDropIn(xs[..n], p);
      assert xs == xs[..n] + [xs[n]];
    }
  }

  lemma {:induction false} ResetAllOcc(xs: seq<Entry>, v: nat)
    ensures Occ(ResetAll(xs), BySlot, v) == Occ(xs, BySlot, v)
  {
    if xs != [] {
      var n := |xs| - 1;
      assert ResetAll(xs)[..n] == ResetAll(xs[..n]);
      ResetAllOcc(xs[..n], v);
    }
  }

  lemma {:induction false} ResetAllIn(xs: seq<Entry>)
    ensures forall e :: e in ResetAll(xs) ==> e.state == Init
  {
    if xs != [] { ResetAllIn(xs[..|xs|-1]); }
  }

  lemma {:induction false} SortInOcc(e: Entry, xs: seq<Entry>, openRow: int, k: Key, v: nat)
    ensures Occ(SortIn(e, xs, openRow), k, v) == One(KeyOf(e, k) == v) + Occ(xs, k, v)
  {
    var ys := SortIn(e, xs, openRow);
    OccHead(ys, k, v);
    if xs != [] && Before(xs[0], e, openRow) {
      assert ys[1..] == SortIn(e, xs[1..], openRow);
      SortInOcc(e, xs[1..], openRow, k, v);
      OccHead(xs, k, v);
    } else {
      assert ys[1..] == xs;
    }
  }

  lemma {:induction false} SortBufferOcc(xs: seq<Entry>, openRow: int, k: Key, v: nat)
    ensures Occ(SortBuffer(xs, openRow), k, v) == Occ(xs, k, v)
  {
    if xs != [] {
      SortBufferOcc(xs[1..], openRow, k, v);
      SortInOcc(xs[0], SortBuffer(xs[1..], openRow), openRow, k, v);
      OccHead(xs, k, v);
    }
  }

  lemma {:induction false} SortInIn(e: Entry, xs: seq<Entry>, openRow: int)
    ensures forall x :: x in SortIn(e, xs, openRow) <==> x == e || x in xs
  {
    if xs != [] && Before(xs[0], e, openRow) { SortInIn(e, xs[1..], openRow); }
  }

  lemma {:induction false} SortBufferIn(xs: seq<Entry>, openRow: int)
    ensures forall x :: x in SortBuffer(xs, openRow) <==> x in xs
  {
    if xs != [] {
      SortBufferIn(xs[1..], openRow);
      SortInIn(xs[0], SortBuffer(xs[1..], openRow), openRow);
    }
  }

  lemma {:induction false} AdjustOcc(xs: seq<Entry>, op: Op, k: Key, v: nat)
    requires op.Adjust?
    ensures Occ(AdjustEntries(xs, op), k, v) == Occ(xs, k, v)
  {
    if xs != [] {
      var n := |xs| - 1;
      assert AdjustEntries(xs, op)[..n] == AdjustEntries(xs[..n], op);
      AdjustOcc(xs[..n], op, k, v);
    }
  }

  lemma {:induction false} AdjustIdOcc(xs: seq<Req>, op: Op, v: nat)
    requires op.Adjust?
    ensures IdOcc(AdjustReqs(xs, op), v) == IdOcc(xs, v)
  {
    if xs != [] {
      var n := |xs| - 1;
      assert AdjustReqs(xs, op)[..n] == AdjustReqs(xs[..n], op);
      AdjustIdOcc(xs[..n], op, v);
    }
  }

  // ---------- one bank: entry objects ----------

  function SlotOcc(b: Bank, v: nat): nat {
    Occ(b.free, BySlot, v) + Occ(b.buffer, BySlot, v) + CurOcc(b, BySlot, v)
  }

  /** Each of the `bufferSize` entry objects is in exactly one of the bank's three places. */
  ghost predicate SlotsOk(cfg: Config, b: Bank) {
    forall v: nat :: SlotOcc(b, v) == One(v < cfg.bufferSize)
  }

  function Room(b: Bank): nat {
    |b.free| + |b.buffer| + One(b.current.Some?)
  }

  /** The fields of a bank agree with its phase. The equivalences make the state assertions of
      the source hold: a finite data-ready time means a transfer is under way, and so on. */
  predicate FieldsOk(b: Bank) {
    && (b.current.Some? ==> b.current.value.state != Init && b.current.value.rid >= 0)
    && (b.dataReady.At? <==> b.current.Some? && b.current.value.state == DataWait)
    && (b.dataAvail.At? <==> b.current.Some? && b.current.value.state == Data)
    && (b.current.Some? && b.current.value.state == CmdWait ==>
          b.bankReady.At? && (b.openRow == -1 || b.openRow == b.current.value.rid))
    && (b.current.Some? && b.current.value.state in {Data, DataWait} ==> b.openRow == b.current.value.rid)
    && b.openRow >= -1
  }

  predicate ListsOk(b: Bank) {
    && (forall e :: e in b.buffer ==> e.state == Init && e.rid >= 0)
    && (forall e :: e in b.free ==> e.state == Init)
  }

  ghost predicate BankOk(cfg: Config, b: Bank) {
    SlotsOk(cfg, b) && Room(b) == cfg.bufferSize && FieldsOk(b) && ListsOk(b)
  }

  lemma {:induction false} FreshOcc(n: nat, v: nat)
    ensures Occ(FreshEntries(n), BySlot, v) == One(v < n)
  {
    if n > 0 {
      assert FreshEntries(n)[..n - 1] == FreshEntries(n - 1);
      FreshOcc(n - 1, v);
    }
  }

  lemma FreshBankOk(cfg: Config)
    ensures BankOk(cfg, FreshBank(cfg))
  {
    forall v: nat
      ensures SlotOcc(FreshBank(cfg), v) == One(v < cfg.bufferSize)
    {
      FreshOcc(cfg.bufferSize, v);
    }
  }

  lemma FlushBankOk(cfg: Config, b: Bank)
    requires BankOk(cfg, b)
    ensures BankOk(cfg, FlushBank(b))
  {
    var c := FlushBank(b);
    forall v: nat
      ensures SlotOcc(c, v) == SlotOcc(b, v)
    {
      KeepDropOcc(b.buffer, Prefetch, BySlot, v);
      OccCat(b.free, Keep(b.buffer, Prefetch), BySlot, v);
    }
    KeepDropIn(b.buffer, Prefetch);
  }

  lemma BufferArrivalOk(cfg: Config, b: Bank, a: Arrival, now: nat)
    requires BankOk(cfg, b) && b.free != [] && a.rid >= 0
    ensures BankOk(cfg, BufferArrival(b, a, now))
  {
    var c, e := BufferArrival(b, a, now), SetEntry(b.free[0], a, now);
    forall v: nat
      ensures SlotOcc(c, v) == SlotOcc(b, v)
    {
      OccHead(b.free, BySlot, v);
      OccCat(b.buffer, [e], BySlot, v);
      OccOne(e, BySlot, v);
    }
  }

  /** A step that leaves the lists alone and keeps the current entry's identity. */
  predicate SameEntries(b: Bank, c: Bank) {
    && b.buffer == c.buffer && b.free == c.free
    && b.current.Some? == c.current.Some?
    && (b.current.Some? ==>
          && c.current.value.slot == b.current.value.slot
          && c.current.value.req == b.current.value.req)
  }

  lemma SameEntriesOk(cfg: Config, b: Bank, c: Bank)
    requires BankOk(cfg, b) && SameEntries(b, c) && FieldsOk(c)
    ensures BankOk(cfg, c)
  {
    forall v: nat
      ensures SlotOcc(c, v) == SlotOcc(b, v)
    {
    }
  }

  lemma IssueCmdFields(cfg: Config, b: Bank, now: nat)
    requires FieldsOk(b) && WantsCmd(b)
    ensures FieldsOk(IssueCmd(cfg, b, now)) && SameEntries(b, IssueCmd(cfg, b, now))
  {
  }

  lemma GrantBankFields(b: Bank, now: nat, ready: nat)
    requires FieldsOk(b) && WantsData(b, now)
    ensures FieldsOk(GrantBank(b, now, ready)) && SameEntries(b, GrantBank(b, now, ready))
  {
  }

  /** The assertion of `bank_schedule_complete`: only a bank in DRAM_DATA_WAIT completes. */
  lemma CompletesInDataWait(cfg: Config, b: Bank, now: nat)
    requires BankOk(cfg, b) && Completes(b, now)
    ensures b.current.value.state == DataWait
  {
  }

  lemma CompleteBankOk(cfg: Config, b: Bank, now: nat)
    requires BankOk(cfg, b)
    ensures BankOk(cfg, CompleteBank(cfg, b, now))
  {
    if Completes(b, now) {
      var e, m, c := b.current.value, Merged(cfg, b), CompleteBank(cfg, b, now);
      forall v: nat
        ensures SlotOcc(c, v) == SlotOcc(b, v)
      {
        KeepDropOcc(b.buffer, ByAddr(e.addr), BySlot, v);
        ResetAllOcc(m, v);
        OccCat(b.free, ResetAll(m), BySlot, v);
        OccCat(b.free + ResetAll(m), [Reset(e)], BySlot, v);
        OccOne(Reset(e), BySlot, v);
      }
      KeepDropIn(b.buffer, ByAddr(e.addr));
      ResetAllIn(m);
    }
  }

  lemma ScheduleOcc(cfg: Config, b: Bank, k: Key, v: nat)
    requires b.buffer != []
    ensures var xs := Schedule(cfg, b);
            Occ(b.buffer, k, v) == One(KeyOf(xs[0], k) == v) + Occ(xs[1..], k, v)
  {
    SortBufferOcc(b.buffer, b.openRow, k, v);
    OccHead(Schedule(cfg, b), k, v);
  }

  lemma SelectBankOk(cfg: Config, b: Bank, now: nat)
    requires BankOk(cfg, b)
    ensures BankOk(cfg, SelectBank(cfg, b, now))
  {
    var c := SelectBank(cfg, b, now);
    if b.current.None? && b.buffer != [] {
      forall v: nat
        ensures SlotOcc(c, v) == SlotOcc(b, v)
      {
        ScheduleOcc(cfg, b, BySlot, v);
      }
      SortBufferIn(b.buffer, b.openRow);
      var xs := Schedule(cfg, b);
      assert xs[0] in xs;
    } else {
      SameEntriesOk(cfg, b, c);
    }
  }

  lemma AdjustBankOk(cfg: Config, b: Bank, op: Op)
    requires BankOk(cfg, b) && op.Adjust?
    ensures BankOk(cfg, AdjustBank(b, op))
  {
    var c := AdjustBank(b, op);
    forall v: nat
      ensures SlotOcc(c, v) == SlotOcc(b, v)
    {
      AdjustOcc(b.buffer, op, BySlot, v);
    }
  }

  ghost predicate BanksOk(cfg: Config, banks: seq<Bank>) {
    forall i :: 0 <= i < |banks| ==> BankOk(cfg, banks[i])
  }

  // ---------- requests held by the banks ----------

  function HeldBy(b: Bank, v: nat): nat {
    Occ(b.buffer, ById, v) + CurOcc(b, ById, v)
  }

  function Held(banks: seq<Bank>, v: nat): nat {
    if banks == [] then 0 else Held(banks[..|banks|-1], v) + HeldBy(banks[|banks|-1], v)
  }

  function Load(b: Bank): nat {
    |b.buffer| + One(b.current.Some?)
  }

  /** Buffered plus current requests over all banks. */
  function TotalLoad(banks: seq<Bank>): nat {
    if banks == [] then 0 else TotalLoad(banks[..|banks|-1]) + Load(banks[|banks|-1])
  }

  lemma {:induction false} HeldUpdate(banks: seq<Bank>, i: nat, b: Bank, v: nat)
    requires i < |banks|
    ensures Held(banks[i := b], v) + HeldBy(banks[i], v) == Held(banks, v) + HeldBy(b, v)
    ensures TotalLoad(banks[i := b]) + Load(banks[i]) == TotalLoad(banks) + Load(b)
  {
    var n := |banks| - 1;
    if i == n {
      assert banks[i := b][..n] == banks[..n];
    } else {
      assert banks[i := b][..n] == banks[..n][i := b];
      HeldUpdate(banks[..n], i, b, v);
    }
  }

  /** Two banks hold the same requests, though possibly in other places or order. */
  ghost predicate SameHeld(b: Bank, c: Bank) {
    Load(b) == Load(c) && forall v: nat :: HeldBy(b, v) == HeldBy(c, v)
  }

  lemma {:induction false} HeldSame(xs: seq<Bank>, ys: seq<Bank>, v: nat)
    requires |xs| == |ys|
    requires forall i :: 0 <= i < |xs| ==> SameHeld(xs[i], ys[i])
    ensures Held(xs, v) == Held(ys, v) && TotalLoad(xs) == TotalLoad(ys)
  {
    if xs != [] { HeldSame(xs[..|xs|-1], ys[..|ys|-1], v); }
  }

  lemma {:induction false} HeldNone(banks: seq<Bank>, v: nat)
    requires forall i :: 0 <= i < |banks| ==> banks[i].buffer == [] && banks[i].current.None?
    ensures Held(banks, v) == 0 && TotalLoad(banks) == 0
  {
    if banks != [] { HeldNone(banks[..|banks|-1], v); }
  }

  /** A controller that counts a request holds one in some bank, buffered or current. */
  lemma LoadSomewhere(banks: seq<Bank>) returns (i: nat)
    requires TotalLoad(banks) > 0
    ensures i < |banks| && (banks[i].buffer != [] || banks[i].current.Some?)
  {
    if forall j :: 0 <= j < |banks| ==> banks[j].buffer == [] && banks[j].current.None? {
      HeldNone(banks, 0);
      assert false;
    }
    i :| 0 <= i < |banks| && !(banks[i].buffer == [] && banks[i].current.None?);
  }

  function OutOcc(o: Output, v: nat): nat {
    IdOcc(o.buffer, v) + IdOcc(o.delayed, v) + IdOcc(o.sent, v) + IdOcc(o.freed, v)
  }

  /** The number of places a request is in. */
  function Places(s: Ctrl, v: nat): nat {
    Held(s.banks, v) + OutOcc(s.out, v)
  }

  /** An accepted request is in one place, any other in none; `m_total_req` is the number of
      requests held. */
  ghost predicate Accounted(s: Ctrl) {
    && (forall v: nat :: Places(s, v) == One(v in s.accepted))
    && s.total == TotalLoad(s.banks)
  }

  predicate Sorted(xs: seq<Req>, bound: nat) {
    && (forall i, j :: 0 <= i < j < |xs| ==> xs[i].rdyCycle <= xs[j].rdyCycle)
    && (forall i :: 0 <= i < |xs| ==> xs[i].rdyCycle <= bound)
  }

  ghost predicate Conserved(cfg: Config, s: Ctrl) {
    Shape(cfg, s) && BanksOk(cfg, s.banks) && Accounted(s) && Sorted(s.out.delayed, s.cycle + cfg.additional)
  }

  // ---------- output steps ----------

  lemma {:induction false} Pick1Occ(xs: seq<Req>, mask: seq<bool>, v: nat)
    requires |mask| == |xs|
    ensures IdOcc(xs, v) == IdOcc(Pick1(xs, mask, true), v) + IdOcc(Pick1(xs, mask, false), v)
  {
    if xs != [] {
      var n := |xs| - 1;
      Pick1Occ(xs[..n], mask[..n], v);
      IdOccCat(Pick1(xs[..n], mask[..n], true), if mask[n] then [xs[n]] else [], v);
      IdOccCat(Pick1(xs[..n], mask[..n], false), if mask[n] then [] else [xs[n]], v);
      IdOccOne(xs[n], v);
    }
  }

  lemma SendConserves(cfg: Config, s: Ctrl, accept: seq<bool>, vc: bool)
    requires Conserved(cfg, s) && |accept| == |s.out.buffer|
    ensures Conserved(cfg, Send(s, accept, vc))
  {
    var mask := SendMask(s.out.buffer, accept, vc, First(false, false));
    var r := Send(s, accept, vc);
    forall v: nat
      ensures Places(r, v) == Places(s, v)
    {
      Pick1Occ(s.out.buffer, mask, v);
      IdOccCat(s.out.sent, Pick1(s.out.buffer, mask, true), v);
    }
  }

  lemma DelayConserves(cfg: Config, s: Ctrl)
    requires Conserved(cfg, s)
    ensures Conserved(cfg, Delay(s))
  {
    var n, r := ReadyPrefix(s.out.delayed, s.cycle), Delay(s);
    forall v: nat
      ensures Places(r, v) == Places(s, v)
    {
      assert s.out.delayed == s.out.delayed[..n] + s.out.delayed[n..];
      IdOccCat(s.out.delayed[..n], s.out.delayed[n..], v);
      IdOccCat(s.out.buffer, s.out.delayed[..n], v);
    }
  }

  lemma {:induction false} ReadyPrefixExact(xs: seq<Req>, now: nat, bound: nat)
    requires Sorted(xs, bound)
    ensures forall i :: 0 <= i < |xs| ==> (i < ReadyPrefix(xs, now) <==> xs[i].rdyCycle <= now)
  {
    if xs != [] && xs[0].rdyCycle <= now {
      ReadyPrefixExact(xs[1..], now, bound);
      forall i | 0 <= i < |xs|
        ensures i < ReadyPrefix(xs, now) <==> xs[i].rdyCycle <= now
      {
        if i > 0 { assert xs[1..][i - 1] == xs[i]; }
      }
    }
  }

  /** Although `delay_packet` stops at the first request that is not ready, it releases exactly
      the ready ones, in order. */
  lemma DelayReleasesAllReady(cfg: Config, s: Ctrl)
    requires Conserved(cfg, s)
    ensures exists n ::
      (&& 0 <= n <= |s.out.delayed|
       && Delay(s).out.buffer == s.out.buffer + s.out.delayed[..n]
       && Delay(s).out.delayed == s.out.delayed[n..]
       && (forall r :: r in s.out.delayed[..n] ==> r.rdyCycle <= s.cycle)
       && (forall r :: r in s.out.delayed[n..] ==> r.rdyCycle > s.cycle))
  {
    ReadyPrefixExact(s.out.delayed, s.cycle, s.cycle + cfg.additional);
    var n := ReadyPrefix(s.out.delayed, s.cycle);
    assert Delay(s).out.buffer == s.out.buffer + s.out.delayed[..n];
  }

  // ---------- channel steps ----------

  lemma SameEntriesHeld(b: Bank, c: Bank)
    requires SameEntries(b, c)
    ensures SameHeld(b, c)
  {
  }

  /** The banks are all in order and hold the same requests as before. */
  ghost predicate Same(cfg: Config, xs: seq<Bank>, ys: seq<Bank>) {
    && |xs| == |ys| && BanksOk(cfg, ys)
    && forall i :: 0 <= i < |xs| ==> SameHeld(xs[i], ys[i])
  }

  lemma AdvanceKeeps(cfg: Config, b: Bank, mid: Bank, c: Bank, now: nat)
    requires BankOk(cfg, b) && Commanded(cfg, b, mid, now) && Granted(mid, c, now)
    ensures BankOk(cfg, c) && SameHeld(b, c)
  {
    if WantsCmd(b) { IssueCmdFields(cfg, b, now); }
    if c != mid { GrantBankFields(mid, now, c.dataReady.t); }
    hide IssueCmd;
    hide GrantBank;
    assert SameEntries(b, c) && FieldsOk(c);
    SameEntriesOk(cfg, b, c);
    SameEntriesHeld(b, c);
  }

  /** A step that only replaces the banks by ones holding the same requests. */
  lemma SameConserves(cfg: Config, s: Ctrl, t: Ctrl)
    requires Conserved(cfg, s) && Same(cfg, s.banks, t.banks) && Shape(cfg, t)
    requires t.out == s.out && t.accepted == s.accepted && t.total == s.total && t.cycle == s.cycle
    ensures Conserved(cfg, t)
  {
    forall v: nat
      ensures Places(t, v) == Places(s, v)
    {
      HeldSame(s.banks, t.banks, v);
    }
    HeldSame(s.banks, t.banks, 0);
  }

  lemma ChannelsConserve(cfg: Config, s: Ctrl)
    requires Conserved(cfg, s)
    ensures Conserved(cfg, Channels(cfg, s))
  {
    ChannelsShape(cfg, s);
    var t := Channels(cfg, s);
    forall i | 0 <= i < |s.banks|
      ensures BankOk(cfg, t.banks[i]) && SameHeld(s.banks[i], t.banks[i])
    {
      var mid := ChannelsEach(cfg, s, i);
      AdvanceKeeps(cfg, s.banks[i], mid, t.banks[i], s.cycle);
    }
    SameConserves(cfg, s, t);
  }

  // ---------- bank steps ----------

  lemma RetireOcc(cfg: Config, o: Output, r: Req, now: nat, v: nat)
    ensures OutOcc(Retire(cfg, o, r, now), v) == OutOcc(o, v) + One(r.id == v)
  {
    if r.kind == Wb {
      AppendOcc(o.freed, r, v);
    } else if cfg.additional > 0 {
      AppendOcc(o.delayed, r.(rdyCycle := now + cfg.additional), v);
    } else {
      AppendOcc(o.buffer, r, v);
    }
  }

  lemma AppendOcc(xs: seq<Req>, r: Req, v: nat)
    ensures IdOcc(xs + [r], v) == IdOcc(xs, v) + One(r.id == v)
  {
    IdOccOne(r, v);
    IdOccCat(xs, [r], v);
  }

  lemma {:induction false} RetireAllOcc(cfg: Config, o: Output, xs: seq<Entry>, now: nat, v: nat)
    ensures OutOcc(RetireAll(cfg, o, xs, now), v) == OutOcc(o, v) + Occ(xs, ById, v)
  {
    if xs != [] {
      RetireAllOcc(cfg, o, xs[..|xs|-1], now, v);
      RetireOcc(cfg, RetireAll(cfg, o, xs[..|xs|-1], now), xs[|xs|-1].req, now, v);
    }
  }

  lemma {:induction false} RetireAllSorted(cfg: Config, o: Output, xs: seq<Entry>, now: nat)
    requires Sorted(o.delayed, now + cfg.additional)
    ensures Sorted(RetireAll(cfg, o, xs, now).delayed, now + cfg.additional)
  {
    if xs != [] { RetireAllSorted(cfg, o, xs[..|xs|-1], now); }
  }

  lemma CompleteOnePlaces(cfg: Config, s: Ctrl, i: nat, v: nat)
    requires i < |s.banks|
    ensures Places(CompleteOne(cfg, s, i), v) == Places(s, v)
    ensures s.total == TotalLoad(s.banks) ==> CompleteOne(cfg, s, i).total == TotalLoad(CompleteOne(cfg, s, i).banks)
  {
    var b := s.banks[i];
    if Completes(b, s.cycle) {
      var e, m, c := b.current.value, Merged(cfg, b), CompleteBank(cfg, b, s.cycle);
      KeepDropOcc(b.buffer, ByAddr(e.addr), ById, v);
      KeepDropIn(b.buffer, ByAddr(e.addr));
      HeldUpdate(s.banks, i, c, v);
      RetireAllOcc(cfg, s.out, m, s.cycle, v);
      RetireOcc(cfg, RetireAll(cfg, s.out, m, s.cycle), e.req, s.cycle, v);
    }
  }

  lemma CompleteOneAccounted(cfg: Config, s: Ctrl, i: nat)
    requires Accounted(s) && i < |s.banks|
    ensures Accounted(CompleteOne(cfg, s, i))
  {
    var t := CompleteOne(cfg, s, i);
    forall v: nat
      ensures Places(t, v) == One(v in t.accepted)
    {
      CompleteOnePlaces(cfg, s, i, v);
      assert Places(s, v) == One(v in s.accepted);
    }
    CompleteOnePlaces(cfg, s, i, 0);
  }

  lemma CompleteOneConserves(cfg: Config, s: Ctrl, i: nat)
    requires Conserved(cfg, s) && i < |s.banks|
    ensures Conserved(cfg, CompleteOne(cfg, s, i))
  {
    CompleteOneAccounted(cfg, s, i);
    var b := s.banks[i];
    hide Accounted;
    hide BankOk;
    hide CountCompleted;
    if Completes(b, s.cycle) {
      CompleteBankOk(cfg, b, s.cycle);
      RetireAllSorted(cfg, s.out, Merged(cfg, b), s.cycle);
    }
  }

  lemma ClearCountConserves(cfg: Config, s: Ctrl)
    requires Conserved(cfg, s)
    ensures Conserved(cfg, s.(completed := 0))
  {
    forall v: nat
      ensures Places(s.(completed := 0), v) == Places(s, v)
    {
    }
  }

  lemma {:induction false} CompleteUpToConserves(cfg: Config, s: Ctrl, k: nat)
    requires Conserved(cfg, s) && k <= |s.banks|
    ensures Conserved(cfg, CompleteUpTo(cfg, s, k))
  {
    hide CompleteOne;
    hide Conserved;
    if k == 0 {
      ClearCountConserves(cfg, s);
    } else {
      CompleteUpToConserves(cfg, s, k - 1);
      CompleteOneConserves(cfg, CompleteUpTo(cfg, s, k - 1), k - 1);
    }
  }

  lemma SelectKeeps(cfg: Config, b: Bank, now: nat)
    requires BankOk(cfg, b)
    ensures BankOk(cfg, SelectBank(cfg, b, now)) && SameHeld(b, SelectBank(cfg, b, now))
  {
    SelectBankOk(cfg, b, now);
    var c := SelectBank(cfg, b, now);
    if b.current.None? && b.buffer != [] {
      forall v: nat
        ensures HeldBy(b, v) == HeldBy(c, v)
      {
        ScheduleOcc(cfg, b, ById, v);
      }
    } else {
      SameEntriesHeld(b, c);
    }
  }

  lemma BanksConserve(cfg: Config, s: Ctrl)
    requires Conserved(cfg, s)
    ensures Conserved(cfg, Banks(cfg, s))
  {
    var t := CompleteUpTo(cfg, s, |s.banks|);
    CompleteUpToConserves(cfg, s, |s.banks|);
    forall i | 0 <= i < |t.banks|
      ensures BankOk(cfg, Banks(cfg, s).banks[i]) && SameHeld(t.banks[i], Banks(cfg, s).banks[i])
    {
      SelectKeeps(cfg, t.banks[i], t.cycle);
    }
    SameConserves(cfg, t, Banks(cfg, s));
  }

  // ---------- arrivals ----------

  lemma FlushConserves(cfg: Config, s: Ctrl, bid: nat)
    requires Conserved(cfg, s) && bid < |s.banks|
    ensures Conserved(cfg, Flush(s, bid))
  {
    var b, t := s.banks[bid], Flush(s, bid);
    var gone, c := Keep(b.buffer, Prefetch), FlushBank(b);
    FlushBankOk(cfg, b);
    forall v: nat
      ensures Places(t, v) == Places(s, v)
    {
      KeepDropOcc(b.buffer, Prefetch, ById, v);
      HeldUpdate(s.banks, bid, c, v);
      ReqsOcc(gone, v);
      IdOccCat(s.out.freed, Reqs(gone), v);
    }
    KeepDropIn(b.buffer, Prefetch);
    HeldUpdate(s.banks, bid, c, 0);
  }

  lemma AcceptConserves(cfg: Config, s: Ctrl, a: Arrival)
    requires Conserved(cfg, s) && ArrivalOk(cfg, s, a) && s.banks[a.bid].free != []
    ensures Conserved(cfg, Accept(s, a))
  {
    var b, t := s.banks[a.bid], Accept(s, a);
    var c, e := BufferArrival(b, a, s.cycle), SetEntry(b.free[0], a, s.cycle);
    BufferArrivalOk(cfg, b, a, s.cycle);
    forall v: nat
      ensures Places(t, v) == One(v in t.accepted)
    {
      OccCat(b.buffer, [e], ById, v);
      OccOne(e, ById, v);
      HeldUpdate(s.banks, a.bid, c, v);
      assert Places(s, v) == One(v in s.accepted);
    }
    HeldUpdate(s.banks, a.bid, c, 0);
  }

  lemma InsertConserves(cfg: Config, s: Ctrl, a: Arrival)
    requires Conserved(cfg, s) && ArrivalOk(cfg, s, a)
    ensures Conserved(cfg, Insert(s, a).0)
    ensures Insert(s, a).0.accepted == if Insert(s, a).1 then s.accepted + [a.req.id] else s.accepted
  {
    if s.banks[a.bid].free != [] {
      AcceptConserves(cfg, s, a);
    } else {
      FlushConserves(cfg, s, a.bid);
      var f := Flush(s, a.bid);
      if f.banks[a.bid].free != [] { AcceptConserves(cfg, f, a); }
    }
  }

  lemma AdjustConserves(cfg: Config, s: Ctrl, op: Op)
    requires Conserved(cfg, s) && op.Adjust?
    ensures Conserved(cfg, AdjustAll(s, op))
  {
    var t := AdjustAll(s, op);
    forall i | 0 <= i < |s.banks|
      ensures BankOk(cfg, t.banks[i]) && SameHeld(s.banks[i], t.banks[i])
    {
      AdjustBankOk(cfg, s.banks[i], op);
      forall v: nat
        ensures HeldBy(s.banks[i], v) == HeldBy(t.banks[i], v)
      {
        AdjustOcc(s.banks[i].buffer, op, ById, v);
      }
    }
    forall v: nat
      ensures Places(t, v) == Places(s, v)
    {
      HeldSame(s.banks, t.banks, v);
      AdjustIdOcc(s.out.buffer, op, v);
      AdjustIdOcc(s.out.delayed, op, v);
    }
    HeldSame(s.banks, t.banks, 0);
  }

  // ---------- whole runs ----------

  lemma ProgressConserves(cfg: Config, s: Ctrl)
    requires Conserved(cfg, s)
    ensures var d := Progress(s); Conserved(cfg, d.(cycle := d.cycle + 1))
  {
    var d := Progress(s);
    var e := d.(cycle := d.cycle + 1);
    forall v: nat
      ensures Places(e, v) == Places(s, v)
    {
    }
  }

  lemma TickConserves(cfg: Config, s: Ctrl, accept: seq<bool>, arrival: Option<Arrival>)
    requires Conserved(cfg, s) && OpOk(cfg, s, Cycle(accept, arrival))
    ensures Conserved(cfg, Tick(cfg, s, accept, arrival))
  {
    SendConserves(cfg, s, accept, cfg.vcPartition);
    DelayConserves(cfg, Send(s, accept, cfg.vcPartition));
    var a := Emit(cfg, s, accept);
    ChannelsConserve(cfg, a);
    var b := Channels(cfg, a);
    BanksConserve(cfg, b);
    var c := Banks(cfg, b);
    TickAccepted(cfg, s, accept);
    if arrival.Some? { InsertConserves(cfg, c, arrival.value); }
    ProgressConserves(cfg, Receive(c, arrival));
  }

  lemma TickAccepted(cfg: Config, s: Ctrl, accept: seq<bool>)
    requires Shape(cfg, s) && |accept| == |s.out.buffer|
    ensures Banks(cfg, Channels(cfg, Emit(cfg, s, accept))).accepted == s.accepted
  {
    var b := Channels(cfg, Emit(cfg, s, accept));
    CompleteUpToFrame(cfg, b, |b.banks|);
  }

  lemma StartConserved(cfg: Config)
    requires cfg.Valid()
    ensures Conserved(cfg, Start(cfg))
  {
    FreshBankOk(cfg);
    forall v: nat
      ensures Places(Start(cfg), v) == 0
    {
      HeldNone(Start(cfg).banks, v);
    }
    HeldNone(Start(cfg).banks, 0);
  }

  /** Every state of every run is conserved. */
  lemma {:induction false} RunConserved(cfg: Config, states: seq<Ctrl>, ops: seq<Op>, i: nat)
    requires IsRun(cfg, states, ops) && i < |states|
    ensures Conserved(cfg, states[i])
  {
    if i == 0 {
      StartConserved(cfg);
    } else {
      RunConserved(cfg, states, ops, i - 1);
      var s := states[i - 1];
      match ops[i - 1]
      case Cycle(accept, arrival) => TickConserves(cfg, s, accept, arrival);
      case Arrive(a) => InsertConserves(cfg, s, a);
      case Adjust(_, _, _, _, _) => AdjustConserves(cfg, s, ops[i - 1]);
    }
  }
}
