/**
 The list idioms of src/dram.cc: entries and requests are collected in one loop and then removed
 from the list one object at a time. When objects are distinct this leaves exactly what was not
 collected. Also the two passes of `send_packet` against the one scan of the model.
 */
module DramLists {
  import opened DramModel
  import opened Options
  import opened DramRuns
  import opened DramConservation
  import opened Removal

  // ---------- identities ----------

  function SlotOf(e: Entry): nat { e.slot }

  function IdOf(r: Req): nat { r.id }

  // ---------- entries ----------

  lemma {:induction false} OccAtLeast(xs: seq<Entry>, i: nat)
    requires i < |xs|
    ensures Occ(xs, BySlot, xs[i].slot) >= 1
  {
    if i < |xs| - 1 { OccAtLeast(xs[..|xs|-1], i); }
  }

  lemma {:induction false} OccDistinct(xs: seq<Entry>)
    requires forall v: nat :: Occ(xs, BySlot, v) <= 1
    ensures Distinct(xs, SlotOf)
  {
    if xs != [] {
      var n := |xs| - 1;
      forall v: nat
        ensures Occ(xs[..n], BySlot, v) <= 1
      {
        assert Occ(xs, BySlot, v) <= 1;
      }
      OccDistinct(xs[..n]);
      forall i | 0 <= i < n
        ensures xs[i].slot != xs[n].slot
      {
        OccAtLeast(xs[..n], i);
        assert Occ(xs, BySlot, xs[n].slot) <= 1;
      }
    }
  }

  lemma BufferDistinct(cfg: Config, b: Bank)
    requires BankOk(cfg, b)
    ensures Distinct(b.buffer, SlotOf)
  {
    forall v: nat
      ensures Occ(b.buffer, BySlot, v) <= 1
    {
      assert SlotOcc(b, v) == One(v < cfg.bufferSize);
    }
    OccDistinct(b.buffer);
  }

  /** With distinct slots, the kept slots are those of the matching entries. */
  lemma KeptKeys(all: seq<Entry>, k: nat, p: Pick)
    requires Distinct(all, SlotOf) && k < |all|
    ensures SlotOf(all[k]) in Keys(Keep(all, p), SlotOf) <==> Matches(all[k], p)
  {
    var e, kept := all[k], Keep(all, p);
    KeepDropIn(all, p);
    if Matches(e, p) {
      assert e in kept;
      var j :| 0 <= j < |kept| && kept[j] == e;
      assert SlotOf(kept[j]) in Keys(kept, SlotOf);
    } else {
      forall j | 0 <= j < |kept|
        ensures SlotOf(kept[j]) != SlotOf(e)
      {
        assert kept[j] in kept;
        var i :| 0 <= i < |all| && all[i] == kept[j];
      }
    }
  }

  lemma {:induction false} MinusKept(all: seq<Entry>, n: nat, p: Pick)
    requires Distinct(all, SlotOf) && n <= |all|
    ensures Minus(all[..n], SlotOf, Keys(Keep(all, p), SlotOf)) == Drop(all[..n], p)
  {
    if n > 0 {
      MinusKept(all, n - 1, p);
      assert all[..n][..n - 1] == all[..n - 1];
      KeptKeys(all, n - 1, p);
    }
  }

  /** Removing the matching entries of a bank's buffer object by object leaves the others. */
  lemma DropByObject(cfg: Config, b: Bank, p: Pick)
    requires BankOk(cfg, b)
    ensures Minus(b.buffer, SlotOf, Keys(Keep(b.buffer, p), SlotOf)) == Drop(b.buffer, p)
  {
    BufferDistinct(cfg, b);
    assert b.buffer[..|b.buffer|] == b.buffer;
    MinusKept(b.buffer, |b.buffer|, p);
  }

  // ---------- requests ----------

  lemma {:induction false} IdOccAtLeast(xs: seq<Req>, i: nat)
    requires i < |xs|
    ensures IdOcc(xs, xs[i].id) >= 1
  {
    if i < |xs| - 1 { IdOccAtLeast(xs[..|xs|-1], i); }
  }

  lemma {:induction false} IdOccDistinct(xs: seq<Req>)
    requires forall v: nat :: IdOcc(xs, v) <= 1
    ensures Distinct(xs, IdOf)
  {
    if xs != [] {
      var n := |xs| - 1;
      forall v: nat
        ensures IdOcc(xs[..n], v) <= 1
      {
        assert IdOcc(xs, v) <= 1;
      }
      IdOccDistinct(xs[..n]);
      forall i | 0 <= i < n
        ensures xs[i].id != xs[n].id
      {
        IdOccAtLeast(xs[..n], i);
        assert IdOcc(xs, xs[n].id) <= 1;
      }
    }
  }

  lemma OutputDistinct(s: Ctrl)
    requires Accounted(s)
    ensures Distinct(s.out.buffer, IdOf)
  {
    forall v: nat
      ensures IdOcc(s.out.buffer, v) <= 1
    {
      assert Places(s, v) == One(v in s.accepted);
    }
    IdOccDistinct(s.out.buffer);
  }

  lemma {:induction false} Pick1In(xs: seq<Req>, mask: seq<bool>, want: bool)
    requires |mask| == |xs|
    ensures forall r :: r in Pick1(xs, mask, want) ==> exists i :: 0 <= i < |xs| && xs[i] == r && mask[i] == want
    ensures forall i :: 0 <= i < |xs| && mask[i] == want ==> xs[i] in Pick1(xs, mask, want)
  {
    if xs != [] {
      var n := |xs| - 1;
      Pick1In(xs[..n], mask[..n], want);
      forall r | r in Pick1(xs, mask, want)
        ensures exists i :: 0 <= i < |xs| && xs[i] == r && mask[i] == want
      {
        if r in Pick1(xs[..n], mask[..n], want) {
          var i :| 0 <= i < n && xs[..n][i] == r && mask[..n][i] == want;
          assert xs[i] == r && mask[i] == want;
        } else {
          assert xs[n] == r && mask[n] == want;
        }
      }
      forall i | 0 <= i < |xs| && mask[i] == want
        ensures xs[i] in Pick1(xs, mask, want)
      {
        if i < n { assert xs[..n][i] == xs[i] && mask[..n][i] == want; }
      }
    }
  }

  lemma {:induction false} MinusPicked(all: seq<Req>, mask: seq<bool>, n: nat)
    requires Distinct(all, IdOf) && |mask| == |all| && n <= |all|
    ensures Minus(all[..n], IdOf, Keys(Pick1(all, mask, true), IdOf)) == Pick1(all[..n], mask[..n], false)
  {
    if n > 0 {
      MinusPicked(all, mask, n - 1);
      assert all[..n][..n - 1] == all[..n - 1] && mask[..n][..n - 1] == mask[..n - 1];
      var r, went := all[n - 1], Pick1(all, mask, true);
      Pick1In(all, mask, true);
      if mask[n - 1] {
        assert r in went;
        var j :| 0 <= j < |went| && went[j] == r;
        assert IdOf(went[j]) in Keys(went, IdOf);
      } else {
        forall j | 0 <= j < |went|
          ensures IdOf(went[j]) != IdOf(r)
        {
          assert went[j] in went;
          var i :| 0 <= i < |all| && all[i] == went[j] && mask[i];
        }
      }
    }
  }

  /** Removing the injected requests object by object leaves those not injected. */
  lemma SentByObject(xs: seq<Req>, mask: seq<bool>)
    requires Distinct(xs, IdOf) && |mask| == |xs|
    ensures Minus(xs, IdOf, Keys(Pick1(xs, mask, true), IdOf)) == Pick1(xs, mask, false)
  {
    assert xs[..|xs|] == xs && mask[..|xs|] == mask;
    MinusPicked(xs, mask, |xs|);
  }

  // ---------- the two passes of send_packet ----------

  /** `req_type_checked` and `req_type_allowed`. */
  datatype Classes = Classes(cpu: bool, gpu: bool) {
    predicate Has(g: bool) { if g then gpu else cpu }

    function Add(g: bool): Classes { if g then Classes(cpu, true) else Classes(true, gpu) }

    function Join(o: Classes): Classes { Classes(cpu || o.cpu, gpu || o.gpu) }
  }

  const NEITHER := Classes(false, false)

  /** The requests one pass injects. */
  function PassSent(xs: seq<Req>, accept: seq<bool>, allowed: Classes): seq<Req>
    requires |accept| == |xs|
  {
    if xs == [] then []
    else if !allowed.Has(xs[0].gpu) then PassSent(xs[1..], accept[1..], allowed)
    else if accept[0] then [xs[0]] + PassSent(xs[1..], accept[1..], allowed)
    else []
  }

  /** The classes one pass tries. */
  function PassTried(xs: seq<Req>, accept: seq<bool>, allowed: Classes): Classes
    requires |accept| == |xs|
  {
    if xs == [] then NEITHER
    else if !allowed.Has(xs[0].gpu) then PassTried(xs[1..], accept[1..], allowed)
    else if accept[0] then NEITHER.Add(xs[0].gpu).Join(PassTried(xs[1..], accept[1..], allowed))
    else NEITHER.Add(xs[0].gpu)
  }

  lemma {:induction false} Pick1Head(xs: seq<Req>, mask: seq<bool>, want: bool)
    requires |mask| == |xs| && xs != []
    ensures Pick1(xs, mask, want) == (if mask[0] == want then [xs[0]] else []) + Pick1(xs[1..], mask[1..], want)
  {
    var n := |xs| - 1;
    if n > 0 {
      Pick1Head(xs[..n], mask[..n], want);
      assert xs[1..][..n - 1] == xs[..n][1..] && mask[1..][..n - 1] == mask[..n][1..];
    }
  }

  lemma {:induction false} HaltSendsNone(xs: seq<Req>, accept: seq<bool>, vc: bool)
    requires |accept| == |xs|
    ensures Pick1(xs, SendMask(xs, accept, vc, Halt), true) == []
  {
    if xs != [] {
      var mask := SendMask(xs, accept, vc, Halt);
      Pick1Head(xs, mask, true);
      assert mask[1..] == SendMask(xs[1..], accept[1..], vc, Halt);
      HaltSendsNone(xs[1..], accept[1..], vc);
    }
  }

  function Only(g: bool): Classes { Classes(!g, g) }

  lemma {:induction false} SecondSends(xs: seq<Req>, accept: seq<bool>, vc: bool, g: bool)
    requires |accept| == |xs|
    ensures Pick1(xs, SendMask(xs, accept, vc, Second(g)), true) == PassSent(xs, accept, Only(g))
  {
    if xs != [] {
      var mask := SendMask(xs, accept, vc, Second(g));
      Pick1Head(xs, mask, true);
      if xs[0].gpu == g && !accept[0] {
        assert mask[1..] == SendMask(xs[1..], accept[1..], vc, Halt);
        HaltSendsNone(xs[1..], accept[1..], vc);
      } else {
        assert mask[1..] == SendMask(xs[1..], accept[1..], vc, Second(g));
        SecondSends(xs[1..], accept[1..], vc, g);
      }
    }
  }

  function SecondPart(xs: seq<Req>, accept: seq<bool>, vc: bool, tried: Classes): seq<Req>
    requires |accept| == |xs|
  {
    if vc && !(tried.cpu && tried.gpu) then PassSent(xs, accept, Classes(!tried.cpu, !tried.gpu)) else []
  }

  lemma {:induction false} PassesFrom(xs: seq<Req>, accept: seq<bool>, vc: bool, before: Classes)
    requires |accept| == |xs|
    ensures var tried := before.Join(PassTried(xs, accept, Classes(true, true)));
            Pick1(xs, SendMask(xs, accept, vc, First(before.cpu, before.gpu)), true)
            == PassSent(xs, accept, Classes(true, true)) + SecondPart(xs, accept, vc, tried)
  {
    if xs != [] {
      var mask := SendMask(xs, accept, vc, First(before.cpu, before.gpu));
      var now := before.Add(xs[0].gpu);
      var tried := before.Join(PassTried(xs, accept, Classes(true, true)));
      Pick1Head(xs, mask, true);
      if accept[0] {
        assert mask[1..] == SendMask(xs[1..], accept[1..], vc, First(now.cpu, now.gpu));
        PassesFrom(xs[1..], accept[1..], vc, now);
        assert tried == now.Join(PassTried(xs[1..], accept[1..], Classes(true, true)));
        assert SecondPart(xs, accept, vc, tried) == SecondPart(xs[1..], accept[1..], vc, tried);
      } else {
        assert tried == now;
        var next := AfterReject(now.cpu, now.gpu, vc);
        assert mask[1..] == SendMask(xs[1..], accept[1..], vc, next);
        if next.Second? {
          SecondSends(xs[1..], accept[1..], vc, next.gpuOnly);
          assert Classes(!now.cpu, !now.gpu) == Only(next.gpuOnly);
        } else {
          HaltSendsNone(xs[1..], accept[1..], vc);
        }
      }
    }
  }

  /** The two passes together inject what the one scan selects. */
  lemma TwoPasses(xs: seq<Req>, accept: seq<bool>, vc: bool)
    requires |accept| == |xs|
    ensures Pick1(xs, SendMask(xs, accept, vc, First(false, false)), true)
         == PassSent(xs, accept, Classes(true, true))
            + SecondPart(xs, accept, vc, PassTried(xs, accept, Classes(true, true)))
  {
    PassesFrom(xs, accept, vc, NEITHER);
    assert NEITHER.Join(PassTried(xs, accept, Classes(true, true))) == PassTried(xs, accept, Classes(true, true));
  }
}
