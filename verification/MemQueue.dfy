/** What `queue_c::push` promises: a bounded list kept by class and priority, with a stable sort. */
module MemQueue {
  import opened MemLists
  import opened MemModel
  import opened MemSteps
  import opened Options

  /** Nobody stands behind one it is ahead of. */
  ghost predicate InRank(o: Order, s: Mem, xs: seq<Id>) {
    forall i, j :: 0 <= i < j < |xs| ==> !Ahead(o, At(s, xs[j]), At(s, xs[i]))
  }

  /** Being behind is transitive. */
  lemma BehindTrans(o: Order, a: Req, b: Req, c: Req)
    requires !Ahead(o, b, a) && !Ahead(o, c, b)
    ensures !Ahead(o, c, a)
  {
  }

  /** The place of the new one: behind all it is not ahead of, before all others. */
  lemma {:induction false} RankedPlace(o: Order, s: Mem, xs: seq<Id>, x: Id) returns (k: nat)
    requires InRank(o, s, xs)
    ensures k <= |xs| && Ranked(o, s, xs, x) == xs[..k] + [x] + xs[k..]
    ensures forall i :: 0 <= i < |xs| ==> (i < k <==> !Ahead(o, At(s, x), At(s, xs[i])))
  {
    var n := |xs| - 1;
    if xs != [] && Ahead(o, At(s, x), At(s, xs[n])) {
      k := RankedPlace(o, s, xs[..n], x);
      assert xs[..n][..k] == xs[..k] && xs[..n][k..] + [xs[n]] == xs[k..];
    } else {
      k := |xs|;
      assert xs[..k] == xs && xs[k..] == [];
      forall i | 0 <= i < |xs|
        ensures !Ahead(o, At(s, x), At(s, xs[i]))
      {
        if i < n { BehindTrans(o, At(s, xs[i]), At(s, xs[n]), At(s, x)); }
      }
    }
  }

  lemma RankedInRank(o: Order, s: Mem, xs: seq<Id>, x: Id)
    requires InRank(o, s, xs)
    ensures InRank(o, s, Ranked(o, s, xs, x))
  {
    var k := RankedPlace(o, s, xs, x);
    var ys := xs[..k] + [x] + xs[k..];
    forall i, j | 0 <= i < j < |ys|
      ensures !Ahead(o, At(s, ys[j]), At(s, ys[i]))
    {
      if i == k {
        assert ys[j] == xs[j - 1] && Ahead(o, At(s, x), At(s, xs[j - 1]));
        Asymmetric(o, At(s, x), At(s, xs[j - 1]));
      }
    }
  }

  lemma Asymmetric(o: Order, a: Req, b: Req)
    requires Ahead(o, a, b)
    ensures !Ahead(o, b, a)
  {
  }

  lemma {:induction false} SortInRank(o: Order, s: Mem, xs: seq<Id>)
    ensures InRank(o, s, Sort(o, s, xs))
  {
    if xs != [] {
      SortInRank(o, s, xs[..|xs|-1]);
      RankedInRank(o, s, Sort(o, s, xs[..|xs|-1]), xs[|xs|-1]);
    }
  }

  /** A list in rank stays as it is: the sort is stable. */
  lemma {:induction false} SortKeeps(o: Order, s: Mem, xs: seq<Id>)
    requires InRank(o, s, xs)
    ensures Sort(o, s, xs) == xs
  {
    if xs != [] {
      var n := |xs| - 1;
      SortKeeps(o, s, xs[..n]);
      assert n > 0 ==> xs[..n][n - 1] == xs[n - 1];
      assert xs[..n] + [xs[n]] == xs;
    }
  }

  /** A push is refused, and changes nothing, exactly when the queue is full. Otherwise the queue has one more
      of the request and is in rank; if it was before, the others keep their order and the request stands
      behind those it is not ahead of. */
  lemma PushOrdered(cfg: Config, s: Mem, p: Place, id: Id)
    ensures var (t, ok) := Push(cfg, s, p, id); var o, xs := cfg.order, Q(s, p);
            && (ok <==> |xs| != Size(p)) && (!ok ==> t == s) && (forall q :: q != p ==> Q(t, q) == Q(s, q))
            && (ok ==> InRank(o, t, Q(t, p)) && At(t, id).queue == Some(p)
                       && forall v :: Count(Q(t, p), v) == Count(xs, v) + if v == id then 1 else 0)
            && (ok && InRank(o, s, xs) ==>
                  exists k :: 0 <= k <= |xs| && Q(t, p) == xs[..k] + [id] + xs[k..]
                              && forall i :: 0 <= i < |xs| ==> (i < k <==> !Ahead(o, At(s, id), At(s, xs[i]))))
  {
    hide InRank;
    hide Sort;
    hide Ahead;
    hide Count;
    var o, xs := cfg.order, Q(s, p);
    if !Full(s, p) {
      PushSorts(cfg, s, p, id);
      CountsOne(o, s, xs, id);
      if InRank(o, s, xs) { var k := LastInRank(o, s, xs, id); }
    }
  }

  /** So what a push leaves, said without the comparator: the favoured class first if there is one, and within a
      class no request before one of higher priority. */
  lemma RankSaid(cfg: Config, s: Mem, p: Place, id: Id, i: nat, j: nat)
    requires Push(cfg, s, p, id).1 && i < j < |Q(Push(cfg, s, p, id).0, p)|
    ensures var t := Push(cfg, s, p, id).0; var a, b := At(t, Q(t, p)[i]), At(t, Q(t, p)[j]);
            && (cfg.order == CpuFirst && a.gpu ==> b.gpu) && (cfg.order == GpuFirst && b.gpu ==> a.gpu)
            && (cfg.order == ByPriority || a.gpu == b.gpu ==> a.priority >= b.priority)
  {
    PushOrdered(cfg, s, p, id);
    var t := Push(cfg, s, p, id).0;
    assert !Ahead(cfg.order, At(t, Q(t, p)[j]), At(t, Q(t, p)[i]));
    hide Push;
  }

  lemma PushSorts(cfg: Config, s: Mem, p: Place, id: Id)
    requires !Full(s, p)
    ensures var t := Push(cfg, s, p, id).0;
            Q(t, p) == Sort(cfg.order, s, Q(s, p) + [id]) && InRank(cfg.order, t, Q(t, p))
  {
    var t := Push(cfg, s, p, id).0;
    SortInRank(cfg.order, s, Q(s, p) + [id]);
    SameRank(cfg.order, s, t, Sort(cfg.order, s, Q(s, p) + [id]));
    hide Sort;
    hide InRank;
  }

  lemma CountsOne(o: Order, s: Mem, xs: seq<Id>, id: Id)
    ensures forall v :: Count(Sort(o, s, xs + [id]), v) == Count(xs, v) + if v == id then 1 else 0
  {
    forall v
      ensures Count(Sort(o, s, xs + [id]), v) == Count(xs, v) + if v == id then 1 else 0
    {
      SortCount(o, s, xs + [id], v);
      CountAppend(xs, id, v);
    }
  }

  lemma LastInRank(o: Order, s: Mem, xs: seq<Id>, id: Id) returns (k: nat)
    requires InRank(o, s, xs)
    ensures k <= |xs| && Sort(o, s, xs + [id]) == xs[..k] + [id] + xs[k..]
    ensures forall i :: 0 <= i < |xs| ==> (i < k <==> !Ahead(o, At(s, id), At(s, xs[i])))
  {
    SortKeeps(o, s, xs);
    assert (xs + [id])[..|xs|] == xs;
    k := RankedPlace(o, s, xs, id);
  }

  lemma SameRank(o: Order, s: Mem, t: Mem, ys: seq<Id>)
    requires InRank(o, s, ys)
    requires forall x :: At(t, x).gpu == At(s, x).gpu && At(t, x).priority == At(s, x).priority
    ensures InRank(o, t, ys)
  {
    forall i, j | 0 <= i < j < |ys|
      ensures !Ahead(o, At(t, ys[j]), At(t, ys[i]))
    {
      assert !Ahead(o, At(s, ys[j]), At(s, ys[i]));
    }
  }
}
