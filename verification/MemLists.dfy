/**
 Lists of object identities: `std::list<mem_req_s*>` with `remove`, counted membership, and the
 pigeonhole bound on a list without repetitions.
 */
module MemLists {
  type Id = nat

  function Count(xs: seq<Id>, v: Id): nat {
    if xs == [] then 0 else Count(xs[..|xs|-1], v) + (if xs[|xs|-1] == v then 1 else 0)
  }

  ghost predicate Distinct(xs: seq<Id>) {
    forall v: Id :: Count(xs, v) <= 1
  }

  /** `list::remove`. */
  function Without(xs: seq<Id>, v: Id): (ys: seq<Id>) {
    if xs == [] then []
    else Without(xs[..|xs|-1], v) + (if xs[|xs|-1] == v then [] else [xs[|xs|-1]])
  }

  lemma CountAppend(xs: seq<Id>, x: Id, v: Id)
    ensures Count(xs + [x], v) == Count(xs, v) + (if x == v then 1 else 0)
  {
    assert (xs + [x])[..|xs|] == xs;
  }

  lemma {:induction false} CountCat(xs: seq<Id>, ys: seq<Id>, v: Id)
    ensures Count(xs + ys, v) == Count(xs, v) + Count(ys, v)
  {
    if ys == [] {
      assert xs + ys == xs;
    } else {
      var n := |ys| - 1;
      CountCat(xs, ys[..n], v);
      CountAppend(xs + ys[..n], ys[n], v);
      assert xs + ys == xs + ys[..n] + [ys[n]];
    }
  }

  lemma {:induction false} CountIn(xs: seq<Id>, v: Id)
    ensures v in xs <==> Count(xs, v) > 0
  {
    if xs != [] {
      var n := |xs| - 1;
      CountIn(xs[..n], v);
      assert xs == xs[..n] + [xs[n]];
    }
  }

  lemma {:induction false} CountWithout(xs: seq<Id>, v: Id, w: Id)
    ensures Count(Without(xs, v), w) == if w == v then 0 else Count(xs, w)
  {
    if xs != [] {
      var n := |xs| - 1;
      CountWithout(xs[..n], v, w);
      if xs[n] != v {
        CountAppend(Without(xs[..n], v), xs[n], w);
      } else {
        assert Without(xs, v) == Without(xs[..n], v);
      }
    }
  }

  lemma WithoutIn(xs: seq<Id>, v: Id)
    ensures forall w :: w in Without(xs, v) <==> w in xs && w != v
    ensures Distinct(xs) ==> Distinct(Without(xs, v))
  {
    forall w: Id
      ensures w in Without(xs, v) <==> w in xs && w != v
      ensures Count(xs, w) <= 1 ==> Count(Without(xs, v), w) <= 1
    {
      CountIn(xs, w);
      CountIn(Without(xs, v), w);
      CountWithout(xs, v, w);
    }
  }

  lemma {:induction false} WithoutSize(xs: seq<Id>, v: Id)
    ensures |Without(xs, v)| == |xs| - Count(xs, v)
  {
    if xs != [] { WithoutSize(xs[..|xs|-1], v); }
  }

  lemma WithoutOne(xs: seq<Id>, v: Id)
    requires Distinct(xs) && v in xs
    ensures |Without(xs, v)| == |xs| - 1
  {
    CountIn(xs, v);
    assert Count(xs, v) <= 1;
    WithoutSize(xs, v);
  }

  lemma {:induction false} WithoutAbsent(xs: seq<Id>, v: Id)
    requires v !in xs
    ensures Without(xs, v) == xs
  {
    if xs != [] {
      assert xs[|xs| - 1] in xs;
      WithoutAbsent(xs[..|xs|-1], v);
    }
  }

  lemma AppendDistinct(xs: seq<Id>, x: Id)
    requires Distinct(xs) && x !in xs
    ensures Distinct(xs + [x])
  {
    forall v: Id
      ensures Count(xs + [x], v) <= 1
    {
      CountAppend(xs, x, v);
      CountIn(xs, x);
      assert Count(xs, v) <= 1;
    }
  }

  lemma InitDistinct(xs: seq<Id>, x: Id)
    requires Distinct(xs + [x])
    ensures Distinct(xs) && x !in xs
  {
    forall v: Id
      ensures Count(xs, v) <= 1
    {
      CountAppend(xs, x, v);
      assert Count(xs + [x], v) <= 1;
    }
    CountAppend(xs, x, x);
    assert Count(xs + [x], x) <= 1;
    CountIn(xs, x);
  }

  /** A list without repetitions is no longer than a list that has all its members. */
  lemma {:induction false} Pigeonhole(xs: seq<Id>, ys: seq<Id>)
    requires Distinct(xs) && Distinct(ys) && forall v :: v in xs ==> v in ys
    ensures |xs| <= |ys|
  {
    if xs != [] {
      var n := |xs| - 1;
      var x := xs[n];
      assert xs == xs[..n] + [x];
      InitDistinct(xs[..n], x);
      WithoutIn(ys, x);
      WithoutSize(ys, x);
      CountIn(ys, x);
      assert Count(ys, x) <= 1;
      Pigeonhole(xs[..n], Without(ys, x));
    }
  }

  lemma SomeMember(xs: seq<Id>)
    ensures xs != [] ==> exists v: Id :: v in xs
  {
    if xs != [] { assert xs[0] in xs; }
  }
}
