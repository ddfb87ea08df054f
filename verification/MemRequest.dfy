/**
 New requests: the search never finds a merged request, a leader survives the flush, the insertion
 into the L2 queue is never refused, and the invariant is kept.
 */
module MemRequest {
  import opened MemLists
  import opened MemModel
  import opened MemInvariant
  import opened MemSteps
  import opened MemRelease
  import opened MemFill
  import opened MemVisit
  import opened Options

  // ---------- the search ----------

  /** The search finds the first request of the list that covers the range, if any does. */
  lemma {:induction false} SearchFirst(s: Mem, xs: seq<Id>, addr: nat, size: nat)
    ensures var f := Search(s, xs, addr, size);
            if f.None? then forall x :: x in xs ==> !Covers(At(s, x), addr, size)
            else exists i :: 0 <= i < |xs| && xs[i] == f.value && Covers(At(s, xs[i]), addr, size)
                             && forall j :: 0 <= j < i ==> !Covers(At(s, xs[j]), addr, size)
  {
    if xs != [] {
      var n := |xs| - 1;
      SearchFirst(s, xs[..n], addr, size);
      assert xs == xs[..n] + [xs[n]];
      var f := Search(s, xs[..n], addr, size);
      if f.Some? {
        var i :| 0 <= i < n && xs[..n][i] == f.value && Covers(At(s, xs[..n][i]), addr, size)
                 && forall j :: 0 <= j < i ==> !Covers(At(s, xs[..n][j]), addr, size);
        assert xs[i] == xs[..n][i];
        assert forall j :: 0 <= j < i ==> xs[j] == xs[..n][j];
      } else if Covers(At(s, xs[n]), addr, size) {
        assert forall j :: 0 <= j < n ==> xs[..n][j] == xs[j] && xs[j] in xs[..n];
      }
    }
  }

  lemma OlderFirst(s: Mem, xs: seq<Id>, j: nat, i: nat)
    requires Increasing(s, xs) && j < |xs| && i < |xs|
    ensures At(s, xs[j]).uid < At(s, xs[i]).uid ==> j < i
  {
    if i < j { assert At(s, xs[i]).uid < At(s, xs[j]).uid; }
  }

  /** A leader comes before its followers in the list of its core. */
  lemma LeaderPrecedes(cfg: Config, s: Mem, id: Id)
    requires Pools(cfg, s) && Forest(s) && Alive(s, id) && At(s, id).leader.Some?
    ensures var xs := Live(s, At(s, id).core);
            exists j, i :: 0 <= j < i < |xs| && xs[j] == At(s, id).leader.value && xs[i] == id
  {
    var l := At(s, id).leader.value;
    var xs := Live(s, At(s, id).core);
    assert TreeOk(s, id) && Follows(s, id, l);
    assert EntryOk(cfg, s, id) && EntryOk(cfg, s, l);
    assert CoreOk(cfg, s, At(s, id).core);
    var i :| 0 <= i < |xs| && xs[i] == id;
    var j :| 0 <= j < |xs| && xs[j] == l;
    OlderFirst(s, xs, j, i);
  }

  /** `search_req` never returns a merged request: its leader covers the range and comes first. */
  lemma SearchFindsUnmerged(cfg: Config, s: Mem, c: nat, addr: nat, size: nat)
    requires Pools(cfg, s) && Forest(s)
    ensures var f := Search(s, Live(s, c), addr, size);
            f.Some? ==> && Alive(s, f.value) && At(s, f.value).core == c && At(s, f.value).leader.None?
                        && At(s, f.value).kind != WriteBack && Covers(At(s, f.value), addr, size)
  {
    var xs := Live(s, c);
    SearchFirst(s, xs, addr, size);
    var f := Search(s, xs, addr, size);
    if f.Some? {
      var i :| 0 <= i < |xs| && xs[i] == f.value && Covers(At(s, xs[i]), addr, size)
               && forall j :: 0 <= j < i ==> !Covers(At(s, xs[j]), addr, size);
      assert CoreOk(cfg, s, c);
      if At(s, f.value).leader.Some? { LeaderFoundFirst(cfg, s, c, f.value, i, addr, size); }
    }
  }

  lemma LeaderFoundFirst(cfg: Config, s: Mem, c: nat, id: Id, i: nat, addr: nat, size: nat)
    requires Pools(cfg, s) && Forest(s) && Alive(s, id) && At(s, id).core == c && At(s, id).leader.Some?
    requires i < |Live(s, c)| && Live(s, c)[i] == id && Covers(At(s, id), addr, size)
    ensures exists j :: 0 <= j < i && Covers(At(s, Live(s, c)[j]), addr, size)
  {
    LeaderPrecedes(cfg, s, id);
    var xs := Live(s, c);
    var j, k :| 0 <= j < k < |xs| && xs[j] == At(s, id).leader.value && xs[k] == id;
    assert TreeOk(s, id);
    assert CoreOk(cfg, s, c);
    assert k == i;
    assert Covers(At(s, xs[j]), addr, size);
  }

  // ---------- flushing ----------

  lemma TakeFreePlaced(s: Mem, t: Mem, p: Place, id: Id)
    requires Forest(s) && Placed(s, Noc, []) && Sits(s, p, id) && Removed(Pop(s, p, id), t, id)
    ensures Placed(t, Noc, [])
  {
    var w := Pop(s, p, id);
    WithoutIn(Q(s, p), id);
    forall q
      ensures Distinct(Q(t, q)) && id !in Q(t, q)
      ensures q != p ==> Q(t, q) == Q(s, q)
    {
      assert Distinct(Q(s, q));
      assert id in Q(s, q) ==> Sits(s, q, id);
    }
    forall q, x | x in Q(t, q)
      ensures Sits(t, q, x)
    {
      assert x in Q(s, q) && Unmerged(w, t, id, x);
      assert Sits(s, q, x);
    }
    forall x | Travels(t, x)
      ensures Loc(At(t, x)).Some? && x in Q(t, Loc(At(t, x)).value)
    {
      assert x != id && Unmerged(w, t, id, x);
      assert Travels(s, x);
    }
    forall x
      ensures !(Alive(t, x) && At(t, x).done)
    {
      assert x != id ==> Unmerged(w, t, id, x);
      assert !(Alive(s, x) && At(s, x).done);
    }
  }

  /** A prefetch or write-back is taken out of its place and freed. */
  lemma TakeFreeKeeps(cfg: Config, env: Env, s: Mem, p: Place, id: Id)
    requires Inv(cfg, s, Noc, [], []) && Sits(s, p, id) && !CanLead(At(s, id).kind)
    ensures var t := FreeReq(cfg, env, Pop(s, p, id), id);
            && Inv(cfg, t, Noc, [], []) && Removed(Pop(s, p, id), t, id) && t == Release(Pop(s, p, id), id)
  {
    var w := Pop(s, p, id);
    PopTables(cfg, s, p, id, []);
    FreeIsRelease(cfg, env, w, id);
    forall x | x in w.reqs
      ensures id !in At(w, x).merge
    {
      assert EntryOk(cfg, w, x);
      assert Alive(w, x) ==> TreeOk(w, x);
    }
    ReleaseRemoves(w, id);
    var t := Release(w, id);
    TakeFreePlaced(s, t, p, id);
    hide Placed;
    RemovedTables(cfg, w, t, id);
  }

  /** A flush only touches prefetches. */
  ghost predicate Flushed(s: Mem, t: Mem) {
    && t.next == s.next && t.reqs.Keys == s.reqs.Keys
    && (forall x :: x in s.reqs && At(s, x).kind != DPrefetch ==> At(t, x) == At(s, x))
    && (forall x :: x in s.reqs && At(s, x).kind == DPrefetch && Alive(t, x) ==> At(t, x) == At(s, x))
    && (forall x :: x in s.reqs ==> At(t, x).kind == At(s, x).kind)
  }

  lemma FlushOneKeeps(cfg: Config, env: Env, s: Mem, id: Id)
    requires Inv(cfg, s, Noc, [], []) && Alive(s, id) && At(s, id).kind == DPrefetch
    ensures var t := FlushOne(cfg, env, s, id);
            && Inv(cfg, t, Noc, [], []) && t.next == s.next && t.reqs.Keys == s.reqs.Keys
            && (forall x :: x != id ==> At(t, x) == At(s, x))
            && At(t, id).kind == DPrefetch && (Alive(t, id) ==> At(t, id) == At(s, id))
  {
    if At(s, id).queue.Some? {
      var p := At(s, id).queue.value;
      assert TreeOk(s, id) && Travels(s, id);
      assert id in Q(s, p) && Sits(s, p, id);
      TakeFreeKeeps(cfg, env, s, p, id);
      hide Inv;
      var t := Release(Pop(s, p, id), id);
      assert t.reqs == s.reqs[id := At(s, id).(addr := 0, uid := -1)];
    }
  }

  lemma {:induction false} FlushEachKeeps(cfg: Config, env: Env, s: Mem, ds: seq<Id>)
    requires Inv(cfg, s, Noc, [], []) && Distinct(ds)
    requires forall d :: d in ds ==> Alive(s, d) && At(s, d).kind == DPrefetch
    ensures var t := FlushEach(cfg, env, s, ds);
            && Inv(cfg, t, Noc, [], []) && Flushed(s, t)
            && forall x :: x !in ds ==> At(t, x) == At(s, x)
  {
    hide Inv;
    hide FlushOne;
    hide Distinct;
    if ds != [] {
      var n := |ds| - 1;
      assert ds == ds[..n] + [ds[n]];
      InitDistinct(ds[..n], ds[n]);
      FlushEachKeeps(cfg, env, s, ds[..n]);
      FlushOneKeeps(cfg, env, FlushEach(cfg, env, s, ds[..n]), ds[n]);
    }
  }

  lemma {:induction false} FlushListDistinct(s: Mem, xs: seq<Id>)
    requires Distinct(xs)
    ensures Distinct(FlushList(s, xs)) && forall d :: d in FlushList(s, xs) <==> d in xs && Flushable(s, d)
  {
    if xs != [] {
      var n := |xs| - 1;
      assert xs == xs[..n] + [xs[n]];
      InitDistinct(xs[..n], xs[n]);
      FlushListDistinct(s, xs[..n]);
      if Flushable(s, xs[n]) {
        AppendDistinct(FlushList(s, xs[..n]), xs[n]);
      } else {
        assert FlushList(s, xs) == FlushList(s, xs[..n]);
      }
    }
  }

  lemma FlushKeeps(cfg: Config, env: Env, s: Mem, c: nat)
    requires Inv(cfg, s, Noc, [], [])
    ensures Inv(cfg, Flush(cfg, env, s, c), Noc, [], []) && Flushed(s, Flush(cfg, env, s, c))
  {
    assert CoreOk(cfg, s, c);
    IncreasingDistinct(s, Live(s, c));
    FlushListDistinct(s, Live(s, c));
    FlushEachKeeps(cfg, env, s, FlushList(s, Live(s, c)));
  }

  // ---------- promotion ----------

  lemma AdjustForest(cfg: Config, s: Mem, id: Id, d: Demand)
    requires Forest(s) && Alive(s, id) && At(s, id).kind == DPrefetch && !At(s, id).done
    requires d.kind != DPrefetch && d.kind != WriteBack && d.fill != NoFill && (d.fill == IFill ==> d.kind == IFetch)
    ensures Forest(Adjust(cfg, s, id, d)) && At(s, id).leader.None? && At(s, id).fill != IFill
  {
    var t := Adjust(cfg, s, id, d);
    NoMerges(s, id);
    assert TreeOk(s, id);
    forall x: Id | Alive(t, x)
      ensures TreeOk(t, x)
    {
      assert TreeOk(s, x);
    }
  }

  lemma AdjustPools(cfg: Config, s: Mem, id: Id, d: Demand)
    requires Pools(cfg, s) && Alive(s, id) && At(s, id).kind == DPrefetch && d.kind != WriteBack
    requires At(s, id).core == d.core
    ensures Pools(cfg, Adjust(cfg, s, id, d))
  {
    hide Distinct;
    hide Increasing;
    var t := Adjust(cfg, s, id, d);
    forall x | x in t.reqs
      ensures EntryOk(cfg, t, x)
    {
      assert EntryOk(cfg, s, x);
    }
    forall c: nat
      ensures CoreOk(cfg, t, c)
    {
      assert CoreOk(cfg, s, c);
      SameOrder(s, t, Live(s, c));
    }
  }

  lemma SameOrder(s: Mem, t: Mem, xs: seq<Id>)
    requires Increasing(s, xs) && forall x :: x in xs ==> At(t, x).uid == At(s, x).uid
    ensures Increasing(t, xs)
  {
    forall i, j | 0 <= i < j < |xs|
      ensures At(t, xs[i]).uid < At(t, xs[j]).uid
    {
      assert xs[i] in xs && xs[j] in xs;
    }
  }

  lemma AdjustPlaced(cfg: Config, s: Mem, id: Id, d: Demand)
    requires Placed(s, Noc, []) && Alive(s, id) && At(s, id).leader.None? && At(s, id).kind == DPrefetch
    requires At(s, id).core == d.core && d.kind != WriteBack
    ensures Placed(Adjust(cfg, s, id, d), Noc, [])
  {
    var t := Adjust(cfg, s, id, d);
    assert !At(s, id).done;
    assert t.reqs.Keys == s.reqs.Keys;
    StayPlaced(s, t, Noc, []);
  }

  lemma AdjustLogged(cfg: Config, s: Mem, id: Id, d: Demand)
    requires Logged(s, []) && Alive(s, id) && !At(s, id).done && At(s, id).fill != IFill && d.fill != NoFill
    ensures Logged(Adjust(cfg, s, id, d), [])
  {
    var t := Adjust(cfg, s, id, d);
    forall x | Alive(t, x)
      ensures LiveLog(t, [], x)
    {
      assert LiveLog(s, [], x);
    }
    forall i | 0 <= i < |t.freed|
      ensures FreedLog(t, t.freed[i])
    {
      assert FreedLog(s, s.freed[i]);
    }
    forall v | 0 <= v < t.next
      ensures Issued(t, v)
    {
      assert Issued(s, v);
      SameIssued(s, t, v);
    }
  }

  /** A prefetch found by a demand is promoted in place. */
  lemma AdjustKeeps(cfg: Config, s: Mem, id: Id, d: Demand)
    requires Inv(cfg, s, Noc, [], []) && Alive(s, id) && At(s, id).kind == DPrefetch && At(s, id).core == d.core
    requires OpOk(cfg, s, Request(d, false)) && d.kind != DPrefetch
    ensures Inv(cfg, Adjust(cfg, s, id, d), Noc, [], [])
  {
    assert !At(s, id).done;
    AdjustForest(cfg, s, id, d);
    AdjustPools(cfg, s, id, d);
    AdjustPlaced(cfg, s, id, d);
    AdjustLogged(cfg, s, id, d);
  }

  // ---------- a new entry ----------

  /** The tables after an entry `id` of core `c` was allocated; a leader may have gained it. */
  ghost predicate Entered(s: Mem, t: Mem, c: nat, id: Id) {
    && t.reqs.Keys == s.reqs.Keys && t.heap == s.heap && t.next == s.next + 1
    && Free(s, c) != [] && id == Free(s, c)[|Free(s, c)| - 1]
    && (forall x :: x in s.reqs && x != id ==> SameButMerge(At(s, x), At(t, x)))
    && (forall x :: x in s.reqs && x != id && !Alive(s, x) ==> At(t, x) == At(s, x))
    && (var r := At(t, id);
        r.uid == s.next && r.kind != WriteBack && r.core == c && r.merge == [] && !r.done)
    && (forall k: nat :: Live(t, k) == if k == c then Live(s, k) + [id] else Live(s, k))
    && (forall k: nat :: Free(t, k) == if k == c then Free(s, k)[..|Free(s, k)| - 1] else Free(s, k))
    && t.effects == s.effects && t.calls == s.calls && t.freed == s.freed
  }

  predicate SameButMerge(r: Req, q: Req) {
    q == r.(merge := q.merge, priority := q.priority)
  }

  lemma EnteredSame(s: Mem, t: Mem, c: nat, id: Id, x: Id)
    requires Entered(s, t, c, id) && x in s.reqs && x != id
    ensures x in t.reqs && At(t, x).uid == At(s, x).uid && At(t, x).core == At(s, x).core
    ensures At(t, x).kind == At(s, x).kind
  {
    assert SameButMerge(At(s, x), At(t, x));
  }

  lemma EnteredElsewhere(cfg: Config, s: Mem, t: Mem, c: nat, id: Id, k: nat)
    requires CoreOk(cfg, s, k) && Entered(s, t, c, id) && k != c && At(s, id).core == c
    ensures CoreOk(cfg, t, k)
  {
    hide Distinct;
    forall x | x in Live(s, k) || x in Free(s, k)
      ensures x in t.reqs && At(t, x).uid == At(s, x).uid && At(t, x).core == k && At(t, x).kind == At(s, x).kind
    {
      EnteredSame(s, t, c, id, x);
    }
    hide Entered;
    assert Live(t, k) == Live(s, k) && Free(t, k) == Free(s, k);
  }

  lemma AppendIncreasing(s: Mem, t: Mem, xs: seq<Id>, id: Id)
    requires Increasing(s, xs)
    requires forall x :: x in xs ==> At(t, x).uid == At(s, x).uid < At(t, id).uid
    ensures Increasing(t, xs + [id])
  {
    forall i, j | 0 <= i < j < |xs + [id]|
      ensures At(t, (xs + [id])[i]).uid < At(t, (xs + [id])[j]).uid
    {
      assert xs[i] in xs;
      if j < |xs| { assert xs[j] in xs; }
    }
  }

  lemma EnteredHome(cfg: Config, s: Mem, t: Mem, c: nat, id: Id)
    requires CoreOk(cfg, s, c) && Entered(s, t, c, id) && forall x :: x in Live(s, c) ==> At(s, x).uid < s.next
    ensures CoreOk(cfg, t, c)
  {
    hide Distinct;
    hide Increasing;
    var live, free := Live(s, c), Free(s, c);
    var rest := free[..|free|-1];
    assert free == rest + [id];
    InitDistinct(rest, id);
    EnteredMembers(cfg, s, t, c, id, rest);
    hide Entered;
    AppendIncreasing(s, t, live, id);
  }

  lemma EnteredMembers(cfg: Config, s: Mem, t: Mem, c: nat, id: Id, rest: seq<Id>)
    requires CoreOk(cfg, s, c) && Entered(s, t, c, id) && Free(s, c) == rest + [id] && id !in rest
    ensures Live(t, c) == Live(s, c) + [id] && Free(t, c) == rest
    ensures Alive(t, id) && At(t, id).uid == s.next && At(t, id).core == c && At(t, id).kind != WriteBack
    ensures forall x :: x in Live(s, c) ==>
              Alive(t, x) && At(t, x).uid == At(s, x).uid && At(t, x).core == c && At(t, x).kind != WriteBack
    ensures forall x :: x in rest ==> x in t.reqs && !Alive(t, x) && At(t, x).core == c
  {
    hide Distinct;
    hide Increasing;
    forall x | x in Live(s, c) || x in rest
      ensures x != id && x in t.reqs && At(t, x).uid == At(s, x).uid && At(t, x).core == c
      ensures At(t, x).kind == At(s, x).kind
    {
      assert x in rest ==> x in Free(s, c);
      EnteredSame(s, t, c, id, x);
    }
  }

  lemma EnteredPools(cfg: Config, s: Mem, t: Mem, c: nat, id: Id)
    requires Pools(cfg, s) && Entered(s, t, c, id) && c < cfg.cores
    ensures Pools(cfg, t) && !Alive(s, id) && id in s.reqs && At(s, id).merge == []
  {
    assert CoreOk(cfg, s, c);
    assert id in Free(s, c);
    assert EntryOk(cfg, s, id);
    forall x | x in t.reqs
      ensures EntryOk(cfg, t, x)
    {
      assert EntryOk(cfg, s, x);
      if x != id { assert SameButMerge(At(s, x), At(t, x)); }
    }
    forall k: nat
      ensures CoreOk(cfg, t, k)
    {
      assert CoreOk(cfg, s, k);
      if k == c {
        forall x | x in Live(s, c)
          ensures At(s, x).uid < s.next
        {
          assert EntryOk(cfg, s, x);
        }
        EnteredHome(cfg, s, t, c, id);
      } else { EnteredElsewhere(cfg, s, t, c, id, k); }
    }
    forall a, b | Alive(t, a) && Alive(t, b) && a != b
      ensures At(t, a).uid != At(t, b).uid
    {
      assert EntryOk(cfg, s, a) && EntryOk(cfg, s, b);
      if a != id { assert SameButMerge(At(s, a), At(t, a)); }
      if b != id { assert SameButMerge(At(s, b), At(t, b)); }
    }
  }

  lemma EnteredLogged(s: Mem, t: Mem, c: nat, id: Id)
    requires Logged(s, []) && Entered(s, t, c, id) && !Alive(s, id) && id in s.reqs
    ensures Logged(t, [])
  {
    NextIsNew(s, []);
    forall x | Alive(t, x)
      ensures LiveLog(t, [], x)
    {
      if x != id {
        assert SameButMerge(At(s, x), At(t, x));
        assert LiveLog(s, [], x);
      }
    }
    forall v | 0 <= v < t.next
      ensures Issued(t, v)
    {
      if v < s.next {
        assert Issued(s, v);
        if Releases(s.freed, v) != 1 {
          var x :| Alive(s, x) && At(s, x).uid == v;
          assert SameButMerge(At(s, x), At(t, x));
          assert Alive(t, x) && At(t, x).uid == v;
        }
      } else {
        assert Alive(t, id) && At(t, id).uid == v;
      }
    }
    forall i | 0 <= i < |t.freed|
      ensures FreedLog(t, t.freed[i])
    {
      assert FreedLog(s, s.freed[i]);
    }
  }

  // ---------- a new entry that travels ----------

  lemma AllocateEnters(cfg: Config, s: Mem, d: Demand)
    requires Pools(cfg, s) && Free(s, d.core) != [] && d.kind != WriteBack
    ensures var f := Free(s, d.core); var id := f[|f| - 1];
            && Entered(s, Allocate(cfg, s, d), d.core, id) && id in s.reqs && !Alive(s, id)
            && (forall x :: x != id ==> At(Allocate(cfg, s, d), x) == At(s, x))
            && At(Allocate(cfg, s, d), id).leader.None? && Allocate(cfg, s, d).queues == s.queues
            && (var r := At(Allocate(cfg, s, d), id); r.kind == d.kind && r.fill == d.fill && r.addr == d.addr && r.size == d.size)
  {
    var f := Free(s, d.core);
    var id := f[|f| - 1];
    assert CoreOk(cfg, s, d.core) && id in f;
    assert EntryOk(cfg, s, id);
    AllocateFrame(cfg, s, d);
  }

  lemma AllocateFrame(cfg: Config, s: Mem, d: Demand)
    requires Free(s, d.core) != [] && d.kind != WriteBack
    requires var f := Free(s, d.core); var id := f[|f| - 1]; id in s.reqs && At(s, id).merge == []
    ensures var f := Free(s, d.core); Entered(s, Allocate(cfg, s, d), d.core, f[|f| - 1])
  {
    var t := Allocate(cfg, s, d);
    assert t.reqs.Keys == s.reqs.Keys;
  }

  /** With at most 1024 entries a core's L2 input queue has room for every request it issues. */
  lemma RoomInL2(cfg: Config, s: Mem, c: nat)
    requires Inv(cfg, s, Noc, [], []) && c < cfg.cores && cfg.mshr <= 1024 && Free(s, c) != []
    ensures |Q(s, InQ(L2(c)))| < 1024
  {
    var q := Q(s, InQ(L2(c)));
    assert CoreOk(cfg, s, c);
    forall x | x in q
      ensures x in Live(s, c)
    {
      assert Sits(s, InQ(L2(c)), x);
      assert EntryOk(cfg, s, x);
    }
    assert Distinct(q);
    IncreasingDistinct(s, Live(s, c));
    Pigeonhole(q, Live(s, c));
  }

  lemma TravelForest(s: Mem, t: Mem, c: nat, id: Id)
    requires Forest(s) && Entered(s, t, c, id) && !Alive(s, id) && forall x :: x in s.reqs && x != id ==> SameFace(At(s, x), At(t, x))
    requires var r := At(t, id); r.leader.None? && (r.fill == NoFill ==> r.kind == DPrefetch) && (r.fill == IFill ==> r.kind == IFetch)
    ensures Forest(t)
  {
    forall x: Id | Alive(t, x)
      ensures TreeOk(t, x)
    {
      if x != id {
        assert TreeOk(s, x);
      }
    }
  }

  lemma EnterQueueKeeps(cfg: Config, s: Mem, d: Demand)
    requires Inv(cfg, s, Noc, [], []) && OpOk(cfg, s, Request(d, false)) && Free(s, d.core) != [] && cfg.mshr <= 1024
    ensures var f := Free(s, d.core);
            var v := InsertIn(cfg, Allocate(cfg, s, d), L2(d.core), f[|f| - 1]);
            v.1 && Inv(cfg, v.0, Noc, [], [])
  {
    var f := Free(s, d.core);
    var id, u, p := f[|f| - 1], Allocate(cfg, s, d), InQ(L2(d.core));
    AllocateEnters(cfg, s, d);
    RoomInL2(cfg, s, d.core);
    assert Q(u, p) == Q(s, p);
    PushJoins(cfg, u, p, id);
    var t := Push(cfg, u, p, id).0;
    PushEntered(cfg, s, d);
    hide Push;
    hide Allocate;
    EnteredPools(cfg, s, t, d.core, id);
    EnteredLogged(s, t, d.core, id);
    TravelForest(s, t, d.core, id);
    JoinedFrom(s, u, t, p, id);
    hide Entered;
    EnterPlaced(s, t, Noc, [], p, id);
  }

  lemma PushEntered(cfg: Config, s: Mem, d: Demand)
    requires Free(s, d.core) != [] && d.kind != WriteBack && Pools(cfg, s) && !Full(s, InQ(L2(d.core)))
    ensures var f := Free(s, d.core); var id := f[|f| - 1];
            var t := Push(cfg, Allocate(cfg, s, d), InQ(L2(d.core)), id).0;
            && Entered(s, t, d.core, id)
            && (forall x :: x in s.reqs && x != id ==> SameFace(At(s, x), At(t, x)))
            && At(t, id).leader.None? && At(t, id).fill == d.fill && At(t, id).kind == d.kind
  {
    hide Sort;
    AllocateEnters(cfg, s, d);
  }

  lemma JoinedFrom(s: Mem, u: Mem, t: Mem, p: Place, id: Id)
    requires Joined(u, t, p, id) && u.queues == s.queues && u.reqs.Keys == s.reqs.Keys
    requires forall x :: x != id ==> At(u, x) == At(s, x)
    ensures Joined(s, t, p, id)
  {
    assert forall q :: Q(u, q) == Q(s, q);
  }

  // ---------- a new entry that waits ----------

  lemma MergeEnters(cfg: Config, s: Mem, d: Demand, l: Id)
    requires Pools(cfg, s) && Free(s, d.core) != [] && d.kind != WriteBack && Alive(s, l)
    ensures var f := Free(s, d.core); var id := f[|f| - 1];
            var t := Merge(cfg, Allocate(cfg, s, d), l, id);
            && Entered(s, t, d.core, id) && !Alive(s, id) && id in s.reqs && id != l && t.queues == s.queues
            && (forall x :: x != id && x != l ==> At(t, x) == At(s, x))
            && At(t, l) == At(s, l).(merge := At(s, l).merge + [id], priority := At(t, l).priority)
            && At(t, id).leader == Some(l) && At(t, id).kind == d.kind && At(t, id).fill == d.fill
            && At(t, id).addr == d.addr && At(t, id).size == d.size
  {
    hide Allocate;
    hide Merge;
    hide Pools;
    AllocateEnters(cfg, s, d);
    var f := Free(s, d.core);
    var id, u := f[|f| - 1], Allocate(cfg, s, d);
    MergeFrame(cfg, u, l, id);
    var t := Merge(cfg, u, l, id);
    forall x | x in s.reqs && x != id
      ensures SameButMerge(At(s, x), At(t, x)) && (!Alive(s, x) ==> At(t, x) == At(s, x))
    {
    }
    assert forall k: nat :: Live(t, k) == Live(u, k) && Free(t, k) == Free(u, k);
  }

  lemma MergeFrame(cfg: Config, u: Mem, l: Id, id: Id)
    requires id != l && id in u.reqs && l in u.reqs
    ensures var t := Merge(cfg, u, l, id);
            && t == u.(reqs := t.reqs) && t.reqs.Keys == u.reqs.Keys
            && (forall x :: x != id && x != l ==> At(t, x) == At(u, x))
            && At(t, l) == At(u, l).(merge := At(u, l).merge + [id], priority := At(t, l).priority)
            && At(t, id) == At(u, id).(leader := Some(l), stage := Merged)
  {
  }

  lemma WaitForest(cfg: Config, s: Mem, t: Mem, c: nat, id: Id, l: Id)
    requires EntryOk(cfg, s, l) && Forest(s) && !Alive(s, id) && id in s.reqs && id != l && Alive(s, l)
    requires t.reqs.Keys == s.reqs.Keys && forall x :: x != id && x != l ==> At(t, x) == At(s, x)
    requires At(t, l) == At(s, l).(merge := At(s, l).merge + [id], priority := At(t, l).priority)
    requires At(t, id).uid == s.next && At(t, id).core == c && At(t, id).merge == [] && !At(t, id).done
    requires var r, q := At(t, id), At(s, l);
             && r.leader == Some(l) && CanLead(r.kind) && r.fill != NoFill && (r.fill == IFill ==> r.kind == IFetch)
             && CanLead(q.kind) && q.leader.None? && q.core == c && !q.done && Covers(q, r.addr, r.size)
    ensures Forest(t)
  {
    assert TreeOk(s, l);
    assert id !in At(s, l).merge;
    AppendDistinct(At(s, l).merge, id);
    hide Distinct;
    assert [] + [id] == [id];
    forall x: Id | Alive(t, x)
      ensures TreeOk(t, x)
    {
      if x != id {
        assert TreeOk(s, x);
      }
    }
  }

  lemma WaitPlaced(s: Mem, t: Mem, id: Id, l: Id)
    requires Placed(s, Noc, []) && !Alive(s, id) && id in s.reqs && id != l && Alive(s, l) && t.queues == s.queues
    requires t.reqs.Keys == s.reqs.Keys && At(t, id).leader.Some? && !At(t, id).done
    requires forall x :: x != id && x != l ==> At(t, x) == At(s, x)
    requires At(t, l) == At(s, l).(merge := At(s, l).merge + [id], priority := At(t, l).priority)
    ensures Placed(t, Noc, [])
  {
    forall q, x | x in Q(t, q)
      ensures Sits(t, q, x)
    {
      assert x in Q(s, q) && Sits(s, q, x);
    }
    forall x | Travels(t, x)
      ensures Loc(At(t, x)).Some? && x in Q(t, Loc(At(t, x)).value)
    {
      assert x != id && Travels(s, x);
    }
    forall q
      ensures Distinct(Q(t, q))
    {
      assert Q(t, q) == Q(s, q);
    }
  }

  lemma EnterMergeKeeps(cfg: Config, s: Mem, d: Demand, l: Id)
    requires Inv(cfg, s, Noc, [], []) && OpOk(cfg, s, Request(d, false)) && Free(s, d.core) != []
    requires d.kind != DPrefetch && Alive(s, l) && At(s, l).core == d.core && At(s, l).leader.None?
    requires CanLead(At(s, l).kind) && Covers(At(s, l), d.addr, d.size)
    ensures var f := Free(s, d.core);
            Inv(cfg, Merge(cfg, Allocate(cfg, s, d), l, f[|f| - 1]), Noc, [], [])
  {
    var f := Free(s, d.core);
    var id := f[|f| - 1];
    MergeEnters(cfg, s, d, l);
    var t := Merge(cfg, Allocate(cfg, s, d), l, id);
    assert !At(s, l).done;
    hide Merge;
    hide Allocate;
    EnteredPools(cfg, s, t, d.core, id);
    EnteredLogged(s, t, d.core, id);
    assert EntryOk(cfg, s, l);
    WaitForest(cfg, s, t, d.core, id, l);
    WaitPlaced(s, t, id, l);
  }

  // ---------- new_mem_req ----------

  /** What the search found, if it can lead: alive, of this core, unmerged and covering. */
  predicate CanHost(s: Mem, d: Demand, l: Id) {
    Alive(s, l) && At(s, l).core == d.core && At(s, l).leader.None? && CanLead(At(s, l).kind)
    && Covers(At(s, l), d.addr, d.size)
  }

  /** A leader chosen before a flush is still there, unchanged, and is not the entry allocated. */
  lemma HostSurvives(cfg: Config, env: Env, s: Mem, d: Demand, l: Id)
    requires Inv(cfg, s, Noc, [], []) && CanHost(s, d, l)
    ensures var t := Flush(cfg, env, s, d.core);
            CanHost(t, d, l) && At(t, l) == At(s, l)
            && forall x :: x in Free(t, d.core) ==> x != l
  {
    FlushKeeps(cfg, env, s, d.core);
    assert CoreOk(cfg, Flush(cfg, env, s, d.core), d.core);
  }

  lemma FlushIfKeeps(cfg: Config, env: Env, s: Mem, d: Demand, found: Option<Id>, b: bool)
    requires Inv(cfg, s, Noc, [], []) && (found.Some? ==> CanHost(s, d, found.value))
    ensures var t := FlushIf(cfg, env, s, d.core, b);
            Inv(cfg, t, Noc, [], []) && t.next == s.next && (found.Some? ==> CanHost(t, d, found.value))
  {
    if b {
      FlushKeeps(cfg, env, s, d.core);
      if found.Some? { HostSurvives(cfg, env, s, d, found.value); }
    }
  }

  lemma EnterKeeps(cfg: Config, env: Env, s: Mem, d: Demand, found: Option<Id>)
    requires Inv(cfg, s, Noc, [], []) && OpOk(cfg, s, Request(d, false)) && cfg.mshr <= 1024
    requires found.Some? ==> d.kind != DPrefetch && CanHost(s, d, found.value)
    ensures Inv(cfg, Enter(cfg, env, s, d, found).0, Noc, [], [])
  {
    hide FlushIf;
    hide Inv;
    hide Allocate;
    hide InsertIn;
    hide Merge;
    FlushIfKeeps(cfg, env, s, d, found, Free(s, d.core) == []);
    var f := FlushIf(cfg, env, s, d.core, Free(s, d.core) == []);
    if Free(f, d.core) != [] {
      if found.Some? {
        EnterMergeKeeps(cfg, f, d, found.value);
      } else {
        EnterQueueKeeps(cfg, f, d);
      }
    }
  }

  lemma NewReqKeeps(cfg: Config, env: Env, s: Mem, d: Demand, stopped: bool)
    requires Inv(cfg, s, Noc, [], []) && OpOk(cfg, s, Request(d, stopped)) && cfg.mshr <= 1024
    ensures Inv(cfg, NewReq(cfg, env, s, d, stopped).0, Noc, [], [])
  {
    SearchFindsUnmerged(cfg, s, d.core, d.addr, d.size);
    var found := Search(s, Live(s, d.core), d.addr, d.size);
    if !(stopped && d.kind == DPrefetch) && !(found.Some? && d.kind == DPrefetch) {
      if found.Some? && At(s, found.value).kind == DPrefetch {
        AdjustKeeps(cfg, s, found.value, d);
      } else {
        FlushIfKeeps(cfg, env, s, d, found, Full(s, InQ(L2(d.core))));
        var f := FlushIf(cfg, env, s, d.core, Full(s, InQ(L2(d.core))));
        hide Inv;
        hide Search;
        hide FlushIf;
        hide Enter;
        EnterKeeps(cfg, env, f, d, found);
      }
    }
  }
}
