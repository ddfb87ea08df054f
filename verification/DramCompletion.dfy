/**
 `m_num_completed_in_last_cycle`: what the counter reads after the completion loop. A merge overwrites it
 with the cycle number, and it has 32 bits.
 */
module DramCompletion {
  import opened DramModel
  import opened Options
  import opened DramLift
  import opened DramRuns
  import opened DramConservation

  const WRAP := 0x1_0000_0000

  predicate NoneCompletes(banks: seq<Bank>, now: nat, k: nat)
    requires k <= |banks|
  {
    forall i :: 0 <= i < k ==> !Completes(banks[i], now)
  }

  /** How many of the banks from `i` to below `k` complete. */
  function Completing(s: Ctrl, i: nat, k: nat): (n: nat)
    requires k <= |s.banks|
    ensures i <= k ==> n <= k - i
    decreases k
  {
    if k <= i then 0 else Completing(s, i, k - 1) + if Completes(s.banks[k - 1], s.cycle) then 1 else 0
  }

  predicate MergesAt(cfg: Config, s: Ctrl, i: nat)
    requires i < |s.banks|
  {
    Completes(s.banks[i], s.cycle) && Merged(cfg, s.banks[i]) != []
  }

  /** The last of the first `k` banks that completes and merges. */
  function LastMerge(cfg: Config, s: Ctrl, k: nat): (r: Option<nat>)
    requires k <= |s.banks|
    ensures r.Some? ==> r.value < k && MergesAt(cfg, s, r.value)
    ensures forall j :: (if r.Some? then r.value + 1 else 0) <= j < k ==> !MergesAt(cfg, s, j)
  {
    if k == 0 then None else if MergesAt(cfg, s, k - 1) then Some(k - 1) else LastMerge(cfg, s, k - 1)
  }

  /** The number counted, were the counter unbounded. */
  function Counted(cfg: Config, s: Ctrl, k: nat): nat
    requires k <= |s.banks|
  {
    match LastMerge(cfg, s, k)
    case None => Completing(s, 0, k)
    case Some(i) => s.cycle + Completing(s, i, k)
  }

  lemma ToInt32Next(x: int)
    ensures ToInt32(ToInt32(x) + 1) == ToInt32(x + 1)
    ensures ToInt32(x) == 0 <==> x % WRAP == 0
  {
    var m, q := x % WRAP, x / WRAP;
    assert x == q * WRAP + m;
    assert (x + 1) % WRAP == (m + 1) % WRAP;
    assert (m - WRAP + 1) % WRAP == (m + 1) % WRAP;
  }

  lemma CountedStep(cfg: Config, s: Ctrl, k: nat)
    requires 0 < k <= |s.banks|
    ensures Counted(cfg, s, k) == if MergesAt(cfg, s, k - 1) then s.cycle + 1
                                  else Counted(cfg, s, k - 1) + if Completes(s.banks[k - 1], s.cycle) then 1 else 0
  {
    hide Completes;
    hide Merged;
    assert Completing(s, k - 1, k - 1) == 0;
  }

  lemma CompletedStep(cfg: Config, s: Ctrl, k: nat)
    requires 0 < k <= |s.banks|
    ensures CompleteUpTo(cfg, s, k).completed
            == var n := CompleteUpTo(cfg, s, k - 1).completed;
               if !Completes(s.banks[k - 1], s.cycle) then n
               else ToInt32((if MergesAt(cfg, s, k - 1) then ToInt32(s.cycle) else n) + 1)
  {
    CompleteUpToFrame(cfg, s, k - 1);
    assert CompleteUpTo(cfg, s, k - 1).banks[k - 1] == s.banks[k - 1];
    hide ToInt32;
    hide CompleteBank;
    hide RetireAll;
    hide Retire;
  }

  lemma NextCount(completes: bool, merges: bool, now: nat, n: int, r: nat, n': int, r': nat)
    requires n == ToInt32(r) && (merges ==> completes)
    requires n' == if !completes then n else ToInt32((if merges then ToInt32(now) else n) + 1)
    requires r' == if merges then now + 1 else r + if completes then 1 else 0
    ensures n' == ToInt32(r')
  {
    ToInt32Next(now);
    ToInt32Next(r);
    hide ToInt32;
  }

  lemma {:induction false} CompletedIs(cfg: Config, s: Ctrl, k: nat)
    requires k <= |s.banks|
    ensures CompleteUpTo(cfg, s, k).completed == ToInt32(Counted(cfg, s, k))
  {
    if k > 0 {
      hide ToInt32;
      hide Counted;
      hide CompleteUpTo;
      hide Completes;
      hide Merged;
      CompletedIs(cfg, s, k - 1);
      CompletedStep(cfg, s, k);
      CountedStep(cfg, s, k);
      NextCount(Completes(s.banks[k - 1], s.cycle), MergesAt(cfg, s, k - 1), s.cycle,
                CompleteUpTo(cfg, s, k - 1).completed, Counted(cfg, s, k - 1),
                CompleteUpTo(cfg, s, k).completed, Counted(cfg, s, k));
    } else {
      assert Counted(cfg, s, 0) == 0;
    }
  }

  lemma {:induction false} CompletingSome(s: Ctrl, i: nat, k: nat)
    requires i <= k <= |s.banks|
    ensures Completing(s, i, k) > 0 <==> exists j :: i <= j < k && Completes(s.banks[j], s.cycle)
  {
    if k > i { CompletingSome(s, i, k - 1); }
  }

  /** In a cycle that completes something the counter reads zero if and only if some completing bank merged
      and the cycle plus the number of banks completing from the last such one on is 0 modulo 2^32. */
  lemma ReadsZeroIff(cfg: Config, s: Ctrl)
    requires |s.banks| < WRAP && !NoneCompletes(s.banks, s.cycle, |s.banks|)
    ensures CompleteUpTo(cfg, s, |s.banks|).completed == 0 <==>
              var r := LastMerge(cfg, s, |s.banks|);
              r.Some? && (s.cycle + Completing(s, r.value, |s.banks|)) % WRAP == 0
  {
    CompletedIs(cfg, s, |s.banks|);
    ToInt32Next(Counted(cfg, s, |s.banks|));
    CompletingSome(s, 0, |s.banks|);
    hide CompleteUpTo;
    hide ToInt32;
    hide Completes;
  }

  /** A cycle that completes nothing leaves zero. */
  lemma ReadsNone(cfg: Config, s: Ctrl)
    requires NoneCompletes(s.banks, s.cycle, |s.banks|)
    ensures CompleteUpTo(cfg, s, |s.banks|).completed == 0
  {
    CompletedIs(cfg, s, |s.banks|);
    CompletingSome(s, 0, |s.banks|);
  }

  /** So the counter tells whether anything completed unless requests are merged shortly before the cycle
      number wraps. */
  predicate Honest(cfg: Config, c: nat) {
    cfg.numBanks < WRAP && (cfg.merge ==> c % WRAP + cfg.numBanks < WRAP)
  }

  lemma ModAdd(c: nat, n: nat)
    requires c % WRAP + n < WRAP
    ensures (c + n) % WRAP == c % WRAP + n
  {
  }

  lemma HonestCount(cfg: Config, s: Ctrl)
    requires |s.banks| == cfg.numBanks && Honest(cfg, s.cycle)
    ensures CompleteUpTo(cfg, s, |s.banks|).completed == 0 <==> NoneCompletes(s.banks, s.cycle, |s.banks|)
  {
    hide CompleteUpTo;
    hide Completes;
    if NoneCompletes(s.banks, s.cycle, |s.banks|) {
      ReadsNone(cfg, s);
    } else {
      ReadsZeroIff(cfg, s);
      var r := LastMerge(cfg, s, |s.banks|);
      if r.Some? {
        CompletingSome(s, r.value, |s.banks|);
        var n := Completing(s, r.value, |s.banks|);
        ModAdd(s.cycle, n);
      }
    }
  }
}
