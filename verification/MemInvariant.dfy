/**
 What every step of the request side keeps: the pools of miss-buffer entries, the merge forest,
 the place of every request, and the account of completions. While a queue is being processed
 its handled requests are still listed in it; `hole` names that queue and `gone` those requests.
 While a merge list is being drained, `served` names the requests whose effect was applied but
 that are not freed yet.
 */
module MemInvariant {
  import opened MemLists
  import opened MemModel
  import opened Options

  // ---------- pools ----------

  predicate Alive(s: Mem, id: Id) { id in s.reqs && s.reqs[id].uid >= 0 }

  predicate Increasing(s: Mem, xs: seq<Id>) {
    forall i, j :: 0 <= i < j < |xs| ==> At(s, xs[i]).uid < At(s, xs[j]).uid
  }

  ghost predicate EntryOk(cfg: Config, s: Mem, id: Id) {
    var r := At(s, id);
    && id < s.heap && r.uid < s.next
    && (r.uid < 0 ==> r.kind != WriteBack && r.merge == [])
    && (r.kind != WriteBack ==> r.core < cfg.cores)
    && (r.uid >= 0 && r.kind != WriteBack ==> id in Live(s, r.core))
  }

  ghost predicate CoreOk(cfg: Config, s: Mem, c: nat) {
    && Increasing(s, Live(s, c))
    && (forall id :: id in Live(s, c) ==> Alive(s, id) && At(s, id).core == c && At(s, id).kind != WriteBack)
    && (forall id :: id in Free(s, c) ==> id in s.reqs && !Alive(s, id) && At(s, id).core == c)
    && Distinct(Free(s, c))
    && (c < cfg.cores ==> |Live(s, c)| + |Free(s, c)| == cfg.mshr)
  }

  ghost predicate Pools(cfg: Config, s: Mem) {
    && (forall id :: id in s.reqs ==> EntryOk(cfg, s, id))
    && (forall c: nat :: CoreOk(cfg, s, c))
    && (forall a, b :: Alive(s, a) && Alive(s, b) && a != b ==> At(s, a).uid != At(s, b).uid)
  }

  // ---------- the merge forest ----------

  predicate CanLead(k: Kind) { k != DPrefetch && k != WriteBack }

  /** A merged request and its leader. */
  predicate Follows(s: Mem, id: Id, leader: Id) {
    var r, l := At(s, id), At(s, leader);
    && Alive(s, leader) && l.uid < r.uid && l.core == r.core
    && l.leader.None? && CanLead(l.kind) && Covers(l, r.addr, r.size)
    && r.merge == [] && CanLead(r.kind) && !r.done && id in l.merge
  }

  ghost predicate TreeOk(s: Mem, id: Id) {
    var r := At(s, id);
    && (r.leader.Some? ==> Follows(s, id, r.leader.value))
    && (forall m :: m in r.merge ==> Alive(s, m) && At(s, m).leader == Some(id))
    && Distinct(r.merge)
    && (r.done ==> r.merge == [])
    && (r.fill == NoFill <== r.kind == WriteBack)
    && (r.fill == NoFill ==> !CanLead(r.kind))
    && (r.fill == IFill ==> r.kind == IFetch)
  }

  ghost predicate Forest(s: Mem) {
    forall id :: Alive(s, id) ==> TreeOk(s, id)
  }

  // ---------- places ----------

  /** Where a request says it is. */
  function Loc(r: Req): Option<Place> {
    if r.queue.Some? then r.queue
    else if r.stage == InNoc then Some(Noc)
    else if r.stage == InDram then Some(Dram)
    else None
  }

  /** A request somewhere between the caches and memory, rather than waiting for its leader. */
  predicate Travels(s: Mem, id: Id) {
    Alive(s, id) && At(s, id).leader.None? && !At(s, id).done
  }

  /** The stages and requests each place holds. */
  predicate Fits(p: Place, r: Req) {
    match p
    case InQ(u) => !u.L1? && (u.L2? ==> r.core == u.c && r.kind != WriteBack)
    case OutQ(u) => r.stage in {OutNew, OutFill, OutWb} && Target(u, r).Some? && (r.stage == OutFill ==> u.L3?)
    case FillQ(u) => !u.L1? && r.stage in {FillNew, WaitDone, WaitFill} && (r.stage == WaitDone ==> u.L2?)
                     && (r.stage == WaitFill ==> u.L3?)
    case WbQ(_) => r.kind == WriteBack
    case Noc => (r.dst.ToIn? ==> r.dst.u.L3?) && (r.dst.ToFill? ==> !r.dst.u.L1?)
    case Dram => true
  }

  predicate Sits(s: Mem, p: Place, id: Id) {
    Travels(s, id) && Loc(At(s, id)) == Some(p) && Fits(p, At(s, id))
  }

  /** Handled, but still listed in the queue being processed. */
  predicate Handled(s: Mem, hole: Place, id: Id) {
    && Alive(s, id) && At(s, id).leader.None? && id in Q(s, hole)
    && (At(s, id).done || Loc(At(s, id)) != Some(hole))
  }

  ghost predicate Placed(s: Mem, hole: Place, gone: seq<Id>) {
    && (forall p, id :: id in Q(s, p) ==> (p == hole && id in gone) || Sits(s, p, id))
    && (forall p :: Distinct(Q(s, p)))
    && (forall id :: Travels(s, id) ==> Loc(At(s, id)).Some? && id in Q(s, Loc(At(s, id)).value))
    && (forall id :: id in gone ==> Handled(s, hole, id))
    && (forall id :: Alive(s, id) && At(s, id).done ==> id in gone)
    && Distinct(gone)
  }

  // ---------- the account of completions ----------

  function Effects(xs: seq<int>, u: int): nat {
    if xs == [] then 0 else Effects(xs[..|xs|-1], u) + (if xs[|xs|-1] == u then 1 else 0)
  }

  function Releases(xs: seq<Freed>, u: int): nat {
    if xs == [] then 0 else Releases(xs[..|xs|-1], u) + (if xs[|xs|-1].uid == u then 1 else 0)
  }

  /** The callbacks of a request that succeeded. */
  function Oks(xs: seq<Call>, u: int): nat {
    if xs == [] then 0 else Oks(xs[..|xs|-1], u) + (if xs[|xs|-1].uid == u && xs[|xs|-1].ok then 1 else 0)
  }

  /** A data-cache callback takes effect when it succeeds, an instruction-cache callback always. */
  predicate Takes(c: Call) { c.ok || c.fill == IFill }

  function Taken(xs: seq<Call>, u: int): nat {
    if xs == [] then 0 else Taken(xs[..|xs|-1], u) + (if xs[|xs|-1].uid == u && Takes(xs[|xs|-1]) then 1 else 0)
  }

  /** A callback that succeeded is not called again. */
  predicate LastOk(xs: seq<Call>) {
    forall i, j :: 0 <= i < j < |xs| && xs[i].uid == xs[j].uid ==> !xs[i].ok
  }

  /** Live requests have had their effect exactly when their callback succeeded. */
  predicate LiveLog(s: Mem, served: seq<Id>, id: Id) {
    var r := At(s, id);
    && Releases(s.freed, r.uid) == 0
    && Oks(s.calls, r.uid) == (if r.fill != NoFill && (r.done || id in served) then 1 else 0)
    && (r.fill == NoFill ==> Effects(s.effects, r.uid) == 0)
    && (r.fill == DFill ==> Effects(s.effects, r.uid) == if r.done || id in served then 1 else 0)
    && (r.fill == IFill && (r.done || id in served) ==> Effects(s.effects, r.uid) >= 1)
  }

  /** A freed request with a callback has had its effect once, unless it was a prefetch. */
  predicate FreedLog(s: Mem, f: Freed) {
    && (f.fill == NoFill ==> Effects(s.effects, f.uid) == 0)
    && (f.fill == DFill ==> Effects(s.effects, f.uid) <= 1)
    && (f.fill != NoFill && f.kind != DPrefetch ==> Effects(s.effects, f.uid) >= 1 && Oks(s.calls, f.uid) == 1)
  }

  /** Every request ever issued is alive or has been freed once. */
  ghost predicate Issued(s: Mem, u: int) {
    && Releases(s.freed, u) <= 1
    && (Releases(s.freed, u) == 1 || exists id :: Alive(s, id) && At(s, id).uid == u)
  }

  ghost predicate Logged(s: Mem, served: seq<Id>) {
    && (forall id :: Alive(s, id) ==> LiveLog(s, served, id))
    && (forall i :: 0 <= i < |s.freed| ==> FreedLog(s, s.freed[i]) && 0 <= s.freed[i].uid < s.next)
    && (forall i :: 0 <= i < |s.effects| ==> s.effects[i] < s.next)
    && (forall i :: 0 <= i < |s.calls| ==> s.calls[i].uid < s.next) && LastOk(s.calls)
    && (forall u :: Effects(s.effects, u) == Taken(s.calls, u))
    && (forall u :: 0 <= u < s.next ==> Issued(s, u))
  }

  ghost predicate Inv(cfg: Config, s: Mem, hole: Place, gone: seq<Id>, served: seq<Id>) {
    Pools(cfg, s) && Forest(s) && Placed(s, hole, gone) && Logged(s, served)
  }

  // ---------- steps that only move or mark a request ----------

  /** Same request, up to where it is. */
  predicate SameFace(r: Req, q: Req) {
    q == r.(stage := q.stage, queue := q.queue, dst := q.dst, priority := q.priority)
  }

  ghost predicate Moved(s: Mem, t: Mem) {
    && t.reqs.Keys == s.reqs.Keys
    && (forall id :: id in s.reqs ==> SameFace(At(s, id), At(t, id)))
    && t.live == s.live && t.free == s.free && t.next == s.next && t.heap == s.heap
    && t.effects == s.effects && t.calls == s.calls && t.freed == s.freed
  }

  /** Same identity and owner. */
  predicate SameEntry(r: Req, q: Req) {
    q.uid == r.uid && q.kind == r.kind && q.core == r.core && q.merge == r.merge
  }

  lemma SamePools(cfg: Config, s: Mem, t: Mem)
    requires Pools(cfg, s) && t.reqs.Keys == s.reqs.Keys
    requires forall id :: id in s.reqs ==> SameEntry(At(s, id), At(t, id))
    requires t.live == s.live && t.free == s.free && t.next == s.next && t.heap == s.heap
    ensures Pools(cfg, t)
  {
    forall id | id in t.reqs
      ensures EntryOk(cfg, t, id)
    {
      assert EntryOk(cfg, s, id);
    }
    forall c: nat
      ensures CoreOk(cfg, t, c)
    {
      assert CoreOk(cfg, s, c);
    }
  }

  lemma MovedForest(s: Mem, t: Mem)
    requires Moved(s, t) && Forest(s)
    ensures Forest(t)
  {
    forall id | Alive(t, id)
      ensures TreeOk(t, id)
    {
      assert TreeOk(s, id);
    }
  }

  lemma MovedLogged(s: Mem, t: Mem, served: seq<Id>)
    requires Moved(s, t) && Logged(s, served)
    ensures Logged(t, served)
  {
    forall id | Alive(t, id)
      ensures LiveLog(t, served, id)
    {
      assert LiveLog(s, served, id);
    }
    forall u | 0 <= u < t.next
      ensures Issued(t, u)
    {
      assert Issued(s, u);
      if Releases(t.freed, u) != 1 {
        var id :| Alive(s, id) && At(s, id).uid == u;
        assert Alive(t, id) && At(t, id).uid == u;
      }
    }
    forall i | 0 <= i < |t.freed|
      ensures FreedLog(t, t.freed[i])
    {
      assert FreedLog(s, s.freed[i]);
    }
  }
}
