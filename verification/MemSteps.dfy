/** How the elementary updates of the request side change the invariant's four parts. */
module MemSteps {
  import opened MemLists
  import opened MemModel
  import opened MemInvariant
  import opened Options

  // ---------- sorting ----------

  lemma {:induction false} RankedCount(o: Order, s: Mem, xs: seq<Id>, x: Id, v: Id)
    ensures Count(Ranked(o, s, xs, x), v) == Count(xs + [x], v)
  {
    CountAppend(xs, x, v);
    if xs != [] && Ahead(o, At(s, x), At(s, xs[|xs|-1])) {
      var n := |xs| - 1;
      RankedCount(o, s, xs[..n], x, v);
      CountAppend(xs[..n], x, v);
      CountAppend(Ranked(o, s, xs[..n], x), xs[n], v);
    }
  }

  lemma {:induction false} SortCount(o: Order, s: Mem, xs: seq<Id>, v: Id)
    ensures Count(Sort(o, s, xs), v) == Count(xs, v)
  {
    if xs != [] {
      var n := |xs| - 1;
      SortCount(o, s, xs[..n], v);
      RankedCount(o, s, Sort(o, s, xs[..n]), xs[n], v);
      CountAppend(Sort(o, s, xs[..n]), xs[n], v);
    }
  }

  lemma SortIn(o: Order, s: Mem, xs: seq<Id>)
    ensures forall v :: v in Sort(o, s, xs) <==> v in xs
    ensures Distinct(xs) ==> Distinct(Sort(o, s, xs))
  {
    forall v: Id
      ensures v in Sort(o, s, xs) <==> v in xs
      ensures Count(Sort(o, s, xs), v) == Count(xs, v)
    {
      SortCount(o, s, xs, v);
      CountIn(xs, v);
      CountIn(Sort(o, s, xs), v);
    }
  }

  // ---------- joining a queue ----------

  /** `t` is `s` with request `id` added to place `p`, and no other place changed. */
  ghost predicate Joined(s: Mem, t: Mem, p: Place, id: Id) {
    && (forall x :: x != id ==> (x in t.reqs <==> x in s.reqs) && At(t, x) == At(s, x))
    && id in t.reqs
    && (forall q :: q != p ==> Q(t, q) == Q(s, q))
    && (forall x :: x in Q(t, p) <==> x in Q(s, p) || x == id)
    && (Distinct(Q(s, p)) && id !in Q(s, p) ==> Distinct(Q(t, p)))
  }

  lemma PushJoins(cfg: Config, s: Mem, p: Place, id: Id)
    requires !Full(s, p)
    ensures Joined(s, Push(cfg, s, p, id).0, p, id) && Push(cfg, s, p, id).1
    ensures At(Push(cfg, s, p, id).0, id) == At(s, id).(queue := Some(p))
  {
    var t := Push(cfg, s, p, id).0;
    assert Q(t, p) == Sort(cfg.order, s, Q(s, p) + [id]);
    SortIn(cfg.order, s, Q(s, p) + [id]);
    if Distinct(Q(s, p)) && id !in Q(s, p) { AppendDistinct(Q(s, p), id); }
    forall x | x != id
      ensures (x in t.reqs <==> x in s.reqs) && At(t, x) == At(s, x)
    {
    }
  }

  lemma DepartJoins(s: Mem, id: Id, d: Dst)
    ensures Joined(s, Depart(s, id, d), Noc, id)
    ensures At(Depart(s, id, d), id) == At(s, id).(stage := InNoc, queue := None, dst := d)
  {
    if Distinct(Q(s, Noc)) && id !in Q(s, Noc) { AppendDistinct(Q(s, Noc), id); }
  }

  lemma JoinStaged(s: Mem, t: Mem, p: Place, id: Id, g: Stage)
    requires Joined(s, t, p, id)
    ensures Joined(s, Staged(t, id, g), p, id)
  {
  }

  lemma JoinMoves(s: Mem, t: Mem, p: Place, id: Id)
    requires Joined(s, t, p, id) && id in s.reqs && SameFace(At(s, id), At(t, id))
    requires t.live == s.live && t.free == s.free && t.next == s.next && t.heap == s.heap
    requires t.effects == s.effects && t.calls == s.calls && t.freed == s.freed
    ensures Moved(s, t)
  {
    forall x
      ensures x in t.reqs <==> x in s.reqs
    {
    }
    assert t.reqs.Keys == s.reqs.Keys;
  }

  /** A request of the queue being processed joins another place. */
  lemma JoinPlaced(s: Mem, t: Mem, hole: Place, gone: seq<Id>, p: Place, id: Id)
    requires Placed(s, hole, gone) && id in Q(s, hole) && id !in gone && p != hole
    requires Joined(s, t, p, id) && SameFace(At(s, id), At(t, id))
    requires Loc(At(t, id)) == Some(p) && Fits(p, At(t, id))
    ensures Placed(t, hole, gone + [id])
  {
    assert Sits(s, hole, id);
    forall q | q != hole
      ensures id !in Q(s, q)
    {
      assert id in Q(s, q) ==> Sits(s, q, id);
    }
    forall q, x | x in Q(t, q)
      ensures (q == hole && x in gone + [id]) || Sits(t, q, x)
    {
      if x != id {
        assert x in Q(s, q);
        if !(q == hole && x in gone) { assert Sits(s, q, x); }
      }
    }
    forall q
      ensures Distinct(Q(t, q))
    {
      if q != p { assert Q(t, q) == Q(s, q); }
    }
    forall x | Travels(t, x)
      ensures Loc(At(t, x)).Some? && x in Q(t, Loc(At(t, x)).value)
    {
      if x != id { assert Travels(s, x); }
    }
    forall x | x in gone + [id]
      ensures Handled(t, hole, x)
    {
      if x != id { assert Handled(s, hole, x); }
    }
    AppendDistinct(gone, id);
    forall x | Alive(t, x) && At(t, x).done
      ensures x in gone + [id]
    {
      if x != id { assert Alive(s, x) && At(s, x).done; }
    }
  }

  /** A request that was nowhere joins a place: a new request, or a new write-back. */
  lemma EnterPlaced(s: Mem, t: Mem, hole: Place, gone: seq<Id>, p: Place, id: Id)
    requires Placed(s, hole, gone) && !Alive(s, id) && id !in gone
    requires Joined(s, t, p, id) && Travels(t, id)
    requires Loc(At(t, id)) == Some(p) && Fits(p, At(t, id))
    ensures Placed(t, hole, gone)
  {
    forall q
      ensures id !in Q(s, q)
    {
      assert id in Q(s, q) ==> Sits(s, q, id);
    }
    forall q, x | x in Q(t, q)
      ensures (q == hole && x in gone) || Sits(t, q, x)
    {
      if x != id {
        assert x in Q(s, q);
        if !(q == hole && x in gone) { assert Sits(s, q, x); }
      }
    }
    forall q
      ensures Distinct(Q(t, q))
    {
      if q != p { assert Q(t, q) == Q(s, q); }
    }
    forall x | Travels(t, x)
      ensures Loc(At(t, x)).Some? && x in Q(t, Loc(At(t, x)).value)
    {
      if x != id { assert Travels(s, x); }
    }
    forall x | x in gone
      ensures Handled(t, hole, x)
    {
      assert Handled(s, hole, x);
    }
  }

  // ---------- staying in the queue ----------

  /** Only the stage or the merge bookkeeping of requests changed; every place is as it was. */
  lemma StayPlaced(s: Mem, t: Mem, hole: Place, gone: seq<Id>)
    requires Placed(s, hole, gone) && t.queues == s.queues && t.reqs.Keys == s.reqs.Keys
    requires forall x :: x in s.reqs ==>
               && (At(t, x).uid >= 0 <==> At(s, x).uid >= 0) && At(t, x).leader.None? == At(s, x).leader.None?
               && At(t, x).done == At(s, x).done
    requires forall x :: Alive(s, x) && At(s, x).leader.None? ==> Loc(At(t, x)) == Loc(At(s, x))
    requires forall p, x :: Sits(s, p, x) ==> Fits(p, At(t, x))
    ensures Placed(t, hole, gone)
  {
    forall q, x | x in Q(t, q)
      ensures (q == hole && x in gone) || Sits(t, q, x)
    {
      assert x in Q(s, q);
      if !(q == hole && x in gone) { assert Sits(s, q, x); }
    }
    forall x | Travels(t, x)
      ensures Loc(At(t, x)).Some? && x in Q(t, Loc(At(t, x)).value)
    {
      assert Travels(s, x);
    }
    forall x | x in gone
      ensures Handled(t, hole, x)
    {
      assert Handled(s, hole, x);
    }
    forall q
      ensures Distinct(Q(t, q))
    {
      assert Q(t, q) == Q(s, q);
    }
  }

  /** A request of the queue being processed is complete. */
  lemma DonePlaced(s: Mem, hole: Place, gone: seq<Id>, id: Id)
    requires Placed(s, hole, gone) && id in Q(s, hole) && id !in gone
    ensures Placed(MarkDone(s, id), hole, gone + [id])
  {
    var t := MarkDone(s, id);
    assert Sits(s, hole, id);
    forall q, x | x in Q(t, q)
      ensures (q == hole && x in gone + [id]) || Sits(t, q, x)
    {
      assert x in Q(s, q);
      if !(q == hole && x in gone) { assert Sits(s, q, x); }
    }
    forall x | Travels(t, x)
      ensures Loc(At(t, x)).Some? && x in Q(t, Loc(At(t, x)).value)
    {
      assert Travels(s, x);
    }
    forall x | x in gone + [id]
      ensures Handled(t, hole, x)
    {
      if x != id { assert Handled(s, hole, x); }
    }
    forall q
      ensures Distinct(Q(t, q))
    {
      assert Q(t, q) == Q(s, q);
    }
    AppendDistinct(gone, id);
  }

  // ---------- leaving the queue ----------

  lemma HeadGone(gone: seq<Id>)
    requires gone != [] && Distinct(gone)
    ensures Distinct(gone[1..]) && forall x :: x in gone[1..] <==> x in gone && x != gone[0]
  {
    forall v: Id
      ensures Count(gone, v) == (if gone[0] == v then 1 else 0) + Count(gone[1..], v)
    {
      assert gone == [gone[0]] + gone[1..];
      CountCat([gone[0]], gone[1..], v);
      assert Count([gone[0]], v) == Count([], v) + (if gone[0] == v then 1 else 0) by { CountAppend([], gone[0], v); }
    }
    forall v: Id
      ensures Count(gone[1..], v) <= 1
      ensures v in gone[1..] <==> v in gone && v != gone[0]
    {
      assert Count(gone, v) <= 1 && Count(gone, gone[0]) <= 1;
      CountIn(gone, v);
      CountIn(gone[1..], v);
    }
  }

  /** A handled request that moved on leaves the list of the queue. */
  lemma PopPlaced(s: Mem, hole: Place, gone: seq<Id>)
    requires Placed(s, hole, gone) && gone != [] && !At(s, gone[0]).done
    ensures Placed(Pop(s, hole, gone[0]), hole, gone[1..])
  {
    var id, t := gone[0], Pop(s, hole, gone[0]);
    HeadGone(gone);
    WithoutIn(Q(s, hole), id);
    assert Handled(s, hole, id);
    assert Travels(s, id);
    forall q
      ensures Distinct(Q(t, q))
      ensures q != hole ==> Q(t, q) == Q(s, q)
    {
      assert Distinct(Q(s, q));
    }
    forall q, x | x in Q(t, q)
      ensures (q == hole && x in gone[1..]) || Sits(t, q, x)
    {
      assert x in Q(s, q);
      if !(q == hole && x in gone) { assert Sits(s, q, x); }
    }
    forall x | Travels(t, x)
      ensures Loc(At(t, x)).Some? && x in Q(t, Loc(At(t, x)).value)
    {
      assert Travels(s, x);
      var p := Loc(At(s, x)).value;
      assert x in Q(s, p);
      if x == id { assert p != hole; }
    }
    forall x | x in gone[1..]
      ensures Handled(t, hole, x)
    {
      assert Handled(s, hole, x);
    }
  }

  // ---------- a new write-back ----------

  lemma FreshIsNew(cfg: Config, s: Mem, hole: Place, gone: seq<Id>)
    requires Pools(cfg, s) && Placed(s, hole, gone)
    ensures s.heap !in s.reqs && s.heap !in gone && forall c: nat :: s.heap !in Live(s, c)
  {
    assert s.heap in s.reqs ==> EntryOk(cfg, s, s.heap);
    forall c: nat
      ensures s.heap !in Live(s, c)
    {
      assert CoreOk(cfg, s, c);
    }
    assert s.heap in gone ==> Handled(s, hole, s.heap);
  }

  /** Nothing already there changed, apart from write-back queues getting longer. */
  ghost predicate Grown(s: Mem, t: Mem) {
    && (forall x :: x in s.reqs ==> x in t.reqs && At(t, x) == At(s, x))
    && (forall x :: x in t.reqs && x !in s.reqs ==> At(t, x).kind == WriteBack && At(t, x).leader.None? && !At(t, x).done)
    && t.live == s.live && t.free == s.free && t.freed == s.freed
    && (forall p: Place :: !p.WbQ? ==> Q(t, p) == Q(s, p))
    && (forall p, x :: x in Q(s, p) ==> x in Q(t, p))
  }

  /** The update of the request table in `Evict`. */
  ghost predicate Created(s: Mem, t: Mem) {
    && t.reqs.Keys == s.reqs.Keys + {s.heap} && (forall x :: x in s.reqs ==> At(t, x) == At(s, x))
    && (var r := At(t, s.heap);
        && r.uid == s.next && r.kind == WriteBack && r.fill == NoFill && r.leader.None? && r.merge == [] && !r.done)
    && t.next == s.next + 1 && t.heap == s.heap + 1
    && t.live == s.live && t.free == s.free && t.effects == s.effects && t.calls == s.calls && t.freed == s.freed
  }

  lemma EvictCreates(cfg: Config, s: Mem, u: Unit, v: Victim)
    requires !Full(s, WbQ(u)) && s.heap !in s.reqs
    ensures var t := Evict(cfg, s, u, Some(v));
            && Created(s, t) && Joined(s, t, WbQ(u), s.heap) && Loc(At(t, s.heap)) == Some(WbQ(u))
  {
    var w := NewWb(cfg, s, v);
    PushJoins(cfg, w, WbQ(u), s.heap);
    var t := Push(cfg, w, WbQ(u), s.heap).0;
    assert forall p :: Q(w, p) == Q(s, p);
    assert t == Evict(cfg, s, u, Some(v));
    assert t.reqs.Keys == s.reqs.Keys + {s.heap};
  }

  lemma CreatedPools(cfg: Config, s: Mem, t: Mem)
    requires Pools(cfg, s) && Created(s, t) && s.heap !in s.reqs
    ensures Pools(cfg, t)
  {
    hide Distinct;
    forall id | id in t.reqs
      ensures EntryOk(cfg, t, id)
    {
      if id in s.reqs { assert EntryOk(cfg, s, id); }
    }
    forall c: nat
      ensures CoreOk(cfg, t, c)
    {
      assert CoreOk(cfg, s, c);
    }
    forall a, b | Alive(t, a) && Alive(t, b) && a != b
      ensures At(t, a).uid != At(t, b).uid
    {
      if a in s.reqs { assert EntryOk(cfg, s, a); }
      if b in s.reqs { assert EntryOk(cfg, s, b); }
    }
  }

  lemma CreatedForest(s: Mem, t: Mem)
    requires Forest(s) && Created(s, t) && s.heap !in s.reqs
    ensures Forest(t)
  {
    forall id | Alive(t, id)
      ensures TreeOk(t, id)
    {
      if id in s.reqs { assert TreeOk(s, id); }
    }
  }

  lemma {:induction false} EffectsBelow(xs: seq<int>, n: int, u: int)
    requires (forall i :: 0 <= i < |xs| ==> xs[i] < n) && u >= n
    ensures Effects(xs, u) == 0
  {
    if xs != [] { EffectsBelow(xs[..|xs|-1], n, u); }
  }

  lemma {:induction false} ReleasesBelow(xs: seq<Freed>, n: int, u: int)
    requires (forall i :: 0 <= i < |xs| ==> xs[i].uid < n) && u >= n
    ensures Releases(xs, u) == 0
  {
    if xs != [] { ReleasesBelow(xs[..|xs|-1], n, u); }
  }

  lemma {:induction false} OksBelow(xs: seq<Call>, n: int, u: int)
    requires (forall i :: 0 <= i < |xs| ==> xs[i].uid < n) && u >= n
    ensures Oks(xs, u) == 0
  {
    if xs != [] { OksBelow(xs[..|xs|-1], n, u); }
  }

  /** A new id has no history. */
  lemma NextIsNew(s: Mem, served: seq<Id>)
    requires Logged(s, served)
    ensures Effects(s.effects, s.next) == 0 && Releases(s.freed, s.next) == 0 && Oks(s.calls, s.next) == 0
  {
    EffectsBelow(s.effects, s.next, s.next);
    ReleasesBelow(s.freed, s.next, s.next);
    OksBelow(s.calls, s.next, s.next);
  }

  lemma CreatedLogged(s: Mem, t: Mem, served: seq<Id>)
    requires Logged(s, served) && Created(s, t) && s.heap !in s.reqs
    ensures Logged(t, served)
  {
    NextIsNew(s, served);
    forall id | Alive(t, id)
      ensures LiveLog(t, served, id)
    {
      if id in s.reqs { assert LiveLog(s, served, id); }
    }
    forall u | 0 <= u < t.next
      ensures Issued(t, u)
    {
      if u < s.next {
        assert Issued(s, u);
        if Releases(s.freed, u) != 1 {
          var id :| Alive(s, id) && At(s, id).uid == u;
          assert Alive(t, id) && At(t, id).uid == u;
        }
      } else {
        assert Alive(t, s.heap) && At(t, s.heap).uid == u;
      }
    }
    forall i | 0 <= i < |t.freed|
      ensures FreedLog(t, t.freed[i])
    {
      assert FreedLog(s, s.freed[i]);
    }
  }

  lemma EvictKeeps(cfg: Config, s: Mem, u: Unit, v: Option<Victim>, hole: Place, gone: seq<Id>, served: seq<Id>)
    requires Inv(cfg, s, hole, gone, served) && !Full(s, WbQ(u))
    ensures Inv(cfg, Evict(cfg, s, u, v), hole, gone, served)
    ensures Grown(s, Evict(cfg, s, u, v)) && Evict(cfg, s, u, v).effects == s.effects
  {
    hide Pools;
    hide Forest;
    hide Placed;
    hide Logged;
    if v.Some? {
      var t := Evict(cfg, s, u, v);
      FreshIsNew(cfg, s, hole, gone);
      EvictCreates(cfg, s, u, v.value);
      hide Evict;
      CreatedPools(cfg, s, t);
      CreatedForest(s, t);
      CreatedLogged(s, t, served);
      EnterPlaced(s, t, hole, gone, WbQ(u), s.heap);
    }
  }
}
