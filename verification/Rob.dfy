/**
 The reorder buffer of src/rob.cc and src/rob.h: a circular array of twice its capacity with first
 and last indices and a count of free entries. It is a bounded FIFO whose entries keep their index
 until they are popped.
 */
module Robs {
  import opened PQueues

  datatype Ring = Ring(cells: seq<nat>, first: nat, last: nat, free: int)

  /** Half of the array is usable. */
  predicate Valid(r: Ring) {
    && |r.cells| > 0 && |r.cells| % 2 == 0 && r.first < |r.cells| && 0 <= r.free <= |r.cells| / 2
    && r.last == Wrap(r.first + Entries(r), |r.cells|)
  }

  function Entries(r: Ring): int { |r.cells| / 2 - r.free }

  /** The index of the `k`-th oldest entry. */
  function Slot(r: Ring, k: nat): nat { Wrap(r.first + k, |r.cells|) }

  function At(r: Ring, k: nat): nat
    requires Valid(r) && k < Entries(r)
  {
    r.cells[Slot(r, k)]
  }

  /** `front`. */
  function Front(r: Ring): (x: nat)
    requires Valid(r) && Entries(r) > 0
    ensures x == At(r, 0)
  {
    r.cells[r.first]
  }

  function Items(r: Ring): (xs: seq<nat>)
    requires Valid(r)
    ensures |xs| == Entries(r) && forall k :: 0 <= k < |xs| ==> xs[k] == At(r, k)
  {
    seq(Entries(r), k requires 0 <= k < Entries(r) => At(r, k))
  }

  function Push(r: Ring, x: nat): Ring
    requires Valid(r)
  {
    Ring(r.cells[r.last := x], r.first, (r.last + 1) % |r.cells|, r.free - 1)
  }

  function Pop(r: Ring): Ring
    requires Valid(r)
  {
    r.(first := (r.first + 1) % |r.cells|, free := r.free + 1)
  }

  function Fresh(size: nat): (r: Ring)
    requires size > 0
    ensures Valid(r) && Items(r) == [] && r.free == size && |r.cells| == 2 * size
  {
    Ring(seq(2 * size, _ => 0), 0, 0, size)
  }

  /** Different positions have different indices. */
  lemma SlotsDiffer(r: Ring, j: nat, k: nat)
    requires Valid(r) && j < |r.cells| && k < |r.cells| && j != k
    ensures Slot(r, j) != Slot(r, k)
  {
  }

  /** A push appends, at the index `last_rob` showed, and moves nothing. */
  lemma PushAppends(r: Ring, x: nat)
    requires Valid(r) && r.free > 0
    ensures var s := Push(r, x);
            && Valid(s) && Items(s) == Items(r) + [x] && s.free == r.free - 1
            && Slot(s, Entries(r)) == r.last && (forall k: nat :: Slot(s, k) == Slot(r, k))
  {
    WrapIsMod(r.last + 1, |r.cells|);
    var s := Push(r, x);
    forall k | 0 <= k < Entries(s)
      ensures At(s, k) == (Items(r) + [x])[k]
    {
      if k < Entries(r) { SlotsDiffer(r, k, Entries(r)); }
    }
  }

  /** A pop removes the oldest entry and renumbers the rest without moving them. */
  lemma PopDrops(r: Ring)
    requires Valid(r) && Entries(r) > 0
    ensures var s := Pop(r);
            && Valid(s) && Items(s) == Items(r)[1..] && s.free == r.free + 1
            && forall k :: 0 <= k < Entries(s) ==> Slot(s, k) == Slot(r, k + 1)
  {
    WrapIsMod(r.first + 1, |r.cells|);
    var s := Pop(r);
    forall k | 0 <= k < Entries(s)
      ensures Slot(s, k) == Slot(r, k + 1) && At(s, k) == Items(r)[k + 1]
    {
    }
  }

  // ---------- the array ----------

  class Rob {
    var cells: array<nat>
    var first: nat
    var last: nat
    var free: int

    ghost function View(): Ring
      reads this, cells
    {
      Ring(cells[..], first, last, free)
    }

    ghost predicate IsValid()
      reads this, cells
    {
      Valid(View())
    }

    constructor (size: nat)
      requires size > 0
      ensures IsValid() && fresh(cells) && Items(View()) == [] && View().free == size && cells.Length == 2 * size
    {
      cells := new nat[2 * size];
      first, last, free := 0, 0, size;
    }

    method PushBack(x: nat)
      requires IsValid() && free > 0
      modifies this`last, this`free, cells
      ensures IsValid() && View() == Push(old(View()), x)
      ensures Items(View()) == old(Items(View())) + [x]
    {
      PushAppends(View(), x);
      cells[last] := x;
      last := (last + 1) % cells.Length;
      free := free - 1;
    }

    method PopFront()
      requires IsValid() && Entries(View()) > 0
      modifies this`first, this`free
      ensures IsValid() && View() == Pop(old(View()))
      ensures Items(View()) == old(Items(View()))[1..]
    {
      PopDrops(View());
      first := (first + 1) % cells.Length;
      free := free + 1;
    }

    method Reinit()
      requires IsValid()
      modifies this`first, this`last, this`free, cells
      ensures IsValid() && Items(View()) == [] && free == cells.Length / 2
      ensures forall i :: 0 <= i < cells.Length ==> cells[i] == 0
    {
      var i := 0;
      while i < cells.Length
        invariant i <= cells.Length && forall j :: 0 <= j < i ==> cells[j] == 0
      {
        cells[i] := 0;
        i := i + 1;
      }
      first, last, free := 0, 0, cells.Length / 2;
    }

    method Front() returns (x: nat)
      requires IsValid() && Entries(View()) > 0
      ensures x == Items(View())[0]
    {
      x := cells[first];
    }

    method Back() returns (x: nat)
      requires IsValid() && Entries(View()) > 0
      ensures x == Items(View())[Entries(View()) - 1]
    {
      WrapIsMod(last + cells.Length - 1, cells.Length);
      x := cells[(last + cells.Length - 1) % cells.Length];
    }

    method Count() returns (n: int)
      requires IsValid()
      ensures n == |Items(View())|
    {
      n := cells.Length / 2 - free;
    }
  }
}
