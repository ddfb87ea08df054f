/**
 Removal from a `std::list` of pointers: entries collected in one loop are removed in a second one,
 object by object. An object's identity is given by `key`.
 */
module Removal {
  /** `list::remove` of the object with identity `k`. */
  function Without<T>(xs: seq<T>, key: T -> nat, k: nat): seq<T> {
    if xs == [] then []
    else Without(xs[..|xs|-1], key, k) + (if key(xs[|xs|-1]) == k then [] else [xs[|xs|-1]])
  }

  function Minus<T>(xs: seq<T>, key: T -> nat, gone: set<nat>): seq<T> {
    if xs == [] then []
    else Minus(xs[..|xs|-1], key, gone) + (if key(xs[|xs|-1]) in gone then [] else [xs[|xs|-1]])
  }

  function Keys<T>(xs: seq<T>, key: T -> nat): set<nat> {
    set i | 0 <= i < |xs| :: key(xs[i])
  }

  lemma {:induction false} MinusWithout<T>(xs: seq<T>, key: T -> nat, gone: set<nat>, k: nat)
    ensures Without(Minus(xs, key, gone), key, k) == Minus(xs, key, gone + {k})
  {
    if xs != [] {
      var n := |xs| - 1;
      MinusWithout(xs[..n], key, gone, k);
      var m := Minus(xs[..n], key, gone);
      if key(xs[n]) !in gone {
        assert Minus(xs, key, gone) == m + [xs[n]];
        assert (m + [xs[n]])[..|m|] == m;
      } else {
        assert Minus(xs, key, gone) == m;
      }
    }
  }

  lemma {:induction false} MinusNone<T>(xs: seq<T>, key: T -> nat)
    ensures Minus(xs, key, {}) == xs
  {
    if xs != [] { MinusNone(xs[..|xs|-1], key); }
  }

  lemma KeysNext<T>(xs: seq<T>, key: T -> nat, i: nat)
    requires i < |xs|
    ensures Keys(xs[..i + 1], key) == Keys(xs[..i], key) + {key(xs[i])}
  {
    var ys := xs[..i + 1];
    assert ys[i] == xs[i];
    forall v | v in Keys(xs[..i], key) + {key(xs[i])}
      ensures v in Keys(ys, key)
    {
      if v in Keys(xs[..i], key) {
        var j :| 0 <= j < i && key(xs[..i][j]) == v;
        assert key(ys[j]) == v;
      } else {
        assert key(ys[i]) == v;
      }
    }
  }

  predicate Distinct<T>(xs: seq<T>, key: T -> nat) {
    forall i, j :: 0 <= i < j < |xs| ==> key(xs[i]) != key(xs[j])
  }

  /** The removal loop: every object of `gone` is removed from the list in turn. */
  method RemoveEach<T>(xs: seq<T>, key: T -> nat, gone: seq<T>) returns (ys: seq<T>)
    ensures ys == Minus(xs, key, Keys(gone, key))
  {
    ys := xs;
    MinusNone(xs, key);
    assert Keys(gone[..0], key) == {};
    var i := 0;
    while i < |gone|
      invariant i <= |gone| && ys == Minus(xs, key, Keys(gone[..i], key))
    {
      KeysNext(gone, key, i);
      MinusWithout(xs, key, Keys(gone[..i], key), key(gone[i]));
      ys := Without(ys, key, key(gone[i]));
      i := i + 1;
    }
    assert gone[..i] == gone;
  }
}
