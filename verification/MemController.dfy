/**
 The request side as the source runs it: lists and request fields updated in place, with its
 collect-then-remove loops. Every method is proved equal to its function in `MemModel`.
 */
module MemController {
  import opened MemLists
  import opened Options
  import M = MemModel

  class MemorySystem {
    const cfg: M.Config
    var reqs: map<Id, M.Req>
    var live: map<nat, seq<Id>>
    var free: map<nat, seq<Id>>
    var queues: map<M.Place, seq<Id>>
    var next: nat
    var heap: Id
    var effects: seq<int>
    ghost var calls: seq<M.Call>
    var freed: seq<M.Freed>

    ghost function State(): M.Mem
      reads this
    {
      M.Mem(reqs, live, free, queues, next, heap, effects, calls, freed)
    }

    function At(id: Id): M.Req
      reads this
      ensures At(id) == M.At(State(), id)
    {
      if id in reqs then reqs[id] else M.DEAD
    }

    function Listed(p: M.Place): seq<Id>
      reads this
      ensures Listed(p) == M.Q(State(), p)
    {
      if p in queues then queues[p] else []
    }

    function Pool(c: nat): seq<Id>
      reads this
      ensures Pool(c) == M.Free(State(), c)
    {
      if c in free then free[c] else []
    }

    function Mshr(c: nat): seq<Id>
      reads this
      ensures Mshr(c) == M.Live(State(), c)
    {
      if c in live then live[c] else []
    }

    /** The constructor fills the free list of every core. */
    constructor (config: M.Config)
      ensures cfg == config && State() == M.Start(cfg)
    {
      cfg := config;
      reqs, live, free, queues := map[], map[], map[], map[];
      next, heap, effects, calls, freed := 0, 0, [], [], [];
      new;
      var c := 0;
      while c < cfg.cores
        invariant c <= cfg.cores && State() == M.Pooled(cfg, c)
      {
        var n := 0;
        while n < cfg.mshr
          invariant n <= cfg.mshr && State() == M.AddEntries(M.Pooled(cfg, c), c, n)
        {
          reqs := reqs[heap := M.DEAD.(core := c)];
          free := free[c := Pool(c) + [heap]];
          heap := heap + 1;
          n := n + 1;
        }
        c := c + 1;
      }
    }

    method Put(id: Id, r: M.Req)
      modifies this`reqs
      ensures State() == M.Put(old(State()), id, r)
    {
      reqs := reqs[id := r];
    }

    // ---------- queue_c ----------

    method Push(p: M.Place, id: Id) returns (ok: bool)
      modifies this`reqs, this`queues
      ensures (State(), ok) == M.Push(cfg, old(State()), p, id)
    {
      if |Listed(p)| == M.Size(p) { return false; }
      var q := Sorted(Listed(p) + [id]);
      Put(id, At(id).(queue := Some(p)));
      queues := queues[p := q];
      return true;
    }

    /** The stable sort of a queue, as the insertion of each element into the sorted part. */
    method Sorted(xs: seq<Id>) returns (ys: seq<Id>)
      ensures ys == M.Sort(cfg.order, State(), xs)
    {
      ys := [];
      var i := 0;
      while i < |xs|
        invariant i <= |xs| && ys == M.Sort(cfg.order, State(), xs[..i])
      {
        assert xs[..i + 1][..i] == xs[..i];
        ys := Ranked(ys, xs[i]);
        i := i + 1;
      }
      assert xs[..i] == xs;
    }

    method Ranked(xs: seq<Id>, x: Id) returns (ys: seq<Id>)
      ensures ys == M.Ranked(cfg.order, State(), xs, x)
    {
      var k := |xs|;
      assert xs[..k] == xs && xs[k..] == [];
      ghost var whole := M.Ranked(cfg.order, State(), xs, x);
      while k > 0 && M.Ahead(cfg.order, At(x), At(xs[k - 1]))
        invariant 0 <= k <= |xs| && whole == M.Ranked(cfg.order, State(), xs[..k], x) + xs[k..]
        decreases k
      {
        assert xs[..k][..k - 1] == xs[..k - 1];
        assert xs[k - 1..] == [xs[k - 1]] + xs[k..];
        k := k - 1;
      }
      ys := xs[..k] + [x] + xs[k..];
    }

    method Pop(p: M.Place, id: Id)
      modifies this`queues
      ensures State() == M.Pop(old(State()), p, id)
    {
      queues := queues[p := Without(Listed(p), id)];
    }

    method InsertFill(u: M.Unit, id: Id) returns (ok: bool)
      modifies this`reqs, this`queues
      ensures (State(), ok) == M.InsertFill(cfg, old(State()), u, id)
    {
      ok := Push(M.FillQ(u), id);
      if ok { Put(id, At(id).(stage := M.FillNew)); }
    }

    method InsertOut(u: M.Unit, id: Id, g: M.Stage) returns (ok: bool)
      modifies this`reqs, this`queues
      ensures (State(), ok) == M.InsertOut(cfg, old(State()), u, id, g)
    {
      ok := Push(M.OutQ(u), id);
      if ok { Put(id, At(id).(stage := g)); }
    }

    // ---------- completion ----------

    method Evict(u: M.Unit, v: Option<M.Victim>)
      modifies this
      ensures State() == M.Evict(cfg, old(State()), u, v)
    {
      if v.None? { return; }
      var id := heap;
      var w := v.value;
      reqs := reqs[id := M.Req(next, M.WriteBack, w.core, w.addr, w.size, cfg.prio(M.WriteBack), w.gpu, w.l3,
                               M.NoFill, M.New, None, M.ToMc, [], None, false)];
      next := next + 1;
      heap := heap + 1;
      assert State() == M.NewWb(cfg, old(State()), w);
      var _ := Push(M.WbQ(u), id);
    }

    /** For the record only. */
    ghost method Note(id: Id, ok: bool)
      modifies this`calls
      ensures calls == old(calls) + [M.Call(At(id).uid, At(id).fill, ok)]
    {
      calls := calls + [M.Call(At(id).uid, At(id).fill, ok)];
    }

    method DcuDone(env: M.Env, id: Id) returns (ok: bool)
      modifies this
      ensures (State(), ok) == M.DcuDone(cfg, env, old(State()), id)
    {
      var u := M.L1(At(id).core);
      if |Listed(M.WbQ(u))| == M.Size(M.WbQ(u)) { Note(id, false); return false; }
      if !cfg.cache(u).disable {
        if !env(id).port { Note(id, false); return false; }
        Evict(u, env(id).victim);
      }
      effects := effects + [At(id).uid];
      Note(id, true);
      return true;
    }

    method Serve(env: M.Env, id: Id) returns (ok: bool)
      modifies this
      ensures (State(), ok) == M.Serve(cfg, env, old(State()), id)
    {
      match At(id).fill {
        case NoFill => ok := true;
        case DFill => ok := DcuDone(env, id);
        case IFill =>
          effects := effects + [At(id).uid];
          Note(id, true);
          ok := true;
      }
    }

    method Release(id: Id)
      modifies this
      ensures State() == M.Release(old(State()), id)
    {
      var r := At(id);
      freed := freed + [M.Freed(r.uid, r.kind, r.fill)];
      if r.kind == M.WriteBack {
        reqs := reqs - {id};
      } else {
        reqs := reqs[id := r.(addr := 0, uid := -1)];
        live := live[r.core := Without(Mshr(r.core), id)];
        free := free[r.core := Pool(r.core) + [id]];
      }
    }

    /** The first loop of the wrappers tries every merged request. */
    method ServeEach(env: M.Env, ms: seq<Id>) returns (done: seq<Id>)
      modifies this
      ensures (State(), done) == M.ServeEach(cfg, env, old(State()), ms)
    {
      hide M.Serve;
      done := [];
      var i := 0;
      while i < |ms|
        invariant i <= |ms| && (State(), done) == M.ServeEach(cfg, env, old(State()), ms[..i])
      {
        assert ms[..i + 1][..i] == ms[..i];
        var ok := Serve(env, ms[i]);
        if ok { done := done + [ms[i]]; }
        i := i + 1;
      }
      assert ms[..i] == ms;
    }

    /** The second removes and frees those served. */
    method DropEach(id: Id, done: seq<Id>)
      modifies this
      ensures State() == M.DropEach(old(State()), id, done)
    {
      hide M.Release;
      var j := 0;
      while j < |done|
        invariant j <= |done| && State() == M.DropEach(old(State()), id, done[..j])
      {
        assert done[..j + 1][..j] == done[..j];
        Put(id, At(id).(merge := Without(At(id).merge, done[j])));
        Release(done[j]);
        j := j + 1;
      }
      assert done[..j] == done;
    }

    method Drain(env: M.Env, id: Id) returns (all: bool)
      modifies this
      ensures (State(), all) == M.Drain(cfg, env, old(State()), id)
    {
      var ms := At(id).merge;
      var done := ServeEach(env, ms);
      all := |done| == |ms|;
      DropEach(id, done);
    }

    method DcacheFill(env: M.Env, id: Id) returns (ok: bool)
      modifies this
      ensures (State(), ok) == M.DcacheFill(cfg, env, old(State()), id)
    {
      var hasCallback := At(id).fill != M.NoFill;
      ok := Drain(env, id);
      if !ok { Note(id, false); } else if hasCallback { ok := DcuDone(env, id); }
    }

    method IcacheFill(env: M.Env, id: Id) returns (ok: bool)
      modifies this
      ensures (State(), ok) == M.IcacheFill(cfg, env, old(State()), id)
    {
      ok := Drain(env, id);
      effects := effects + [At(id).uid];
      Note(id, ok);
    }

    method Callback(env: M.Env, id: Id) returns (ok: bool)
      modifies this
      ensures (State(), ok) == M.Callback(cfg, env, old(State()), id)
    {
      match At(id).fill {
        case NoFill => ok := true;
        case DFill => ok := DcacheFill(env, id);
        case IFill => ok := IcacheFill(env, id);
      }
    }

    method Finish(env: M.Env, id: Id) returns (ok: bool)
      modifies this
      ensures (State(), ok) == M.Finish(cfg, env, old(State()), id)
    {
      ok := Callback(env, id);
      if ok { Put(id, At(id).(done := true)); }
    }

    method FreeReq(env: M.Env, id: Id)
      modifies this
      ensures State() == M.FreeReq(cfg, env, old(State()), id)
    {
      if At(id).merge != [] { var _ := DcacheFill(env, id); }
      Release(id);
    }

    // ---------- the miss buffers ----------

    method SearchReq(c: nat, addr: nat, size: nat) returns (found: Option<Id>)
      ensures found == M.Search(State(), M.Live(State(), c), addr, size)
    {
      var xs := Mshr(c);
      found := None;
      var i := 0;
      while i < |xs| && found.None?
        invariant i <= |xs| && found == M.Search(State(), xs[..i], addr, size)
      {
        assert xs[..i + 1][..i] == xs[..i];
        if M.Covers(At(xs[i]), addr, size) { found := Some(xs[i]); }
        i := i + 1;
      }
      FoundEarly(xs, i, addr, size);
      assert xs[..|xs|] == xs;
    }

    /** The search may stop at the first match. */
    lemma {:induction false} FoundEarly(xs: seq<Id>, i: nat, addr: nat, size: nat)
      requires i <= |xs| && (i == |xs| || M.Search(State(), xs[..i], addr, size).Some?)
      ensures M.Search(State(), xs, addr, size) == M.Search(State(), xs[..i], addr, size)
    {
      if i < |xs| {
        assert xs[..|xs|-1][..i] == xs[..i];
        FoundEarly(xs[..|xs|-1], i, addr, size);
      } else {
        assert xs[..i] == xs;
      }
    }

    method FlushPrefetch(env: M.Env, c: nat)
      modifies this
      ensures State() == M.Flush(cfg, env, old(State()), c)
    {
      hide M.FlushEach;
      hide M.FlushList;
      var done := Prefetches(Mshr(c));
      FlushEach(env, done);
    }

    /** The first loop collects the prefetches without followers. */
    method Prefetches(xs: seq<Id>) returns (done: seq<Id>)
      ensures done == M.FlushList(State(), xs)
    {
      done := [];
      var i := 0;
      while i < |xs|
        invariant i <= |xs| && done == M.FlushList(State(), xs[..i])
      {
        assert xs[..i + 1][..i] == xs[..i];
        if At(xs[i]).kind == M.DPrefetch && At(xs[i]).merge == [] { done := done + [xs[i]]; }
        i := i + 1;
      }
      assert xs[..i] == xs;
    }

    /** The second frees those that are in a queue. */
    method FlushEach(env: M.Env, done: seq<Id>)
      modifies this
      ensures State() == M.FlushEach(cfg, env, old(State()), done)
    {
      hide M.FreeReq;
      var j := 0;
      while j < |done|
        invariant j <= |done| && State() == M.FlushEach(cfg, env, old(State()), done[..j])
      {
        assert done[..j + 1][..j] == done[..j];
        if At(done[j]).queue.Some? {
          Pop(At(done[j]).queue.value, done[j]);
          FreeReq(env, done[j]);
        }
        j := j + 1;
      }
      assert done[..j] == done;
    }

    /** `allocate_new_entry` and `init_new_req`. */
    method AllocateNewEntry(d: M.Demand) returns (entry: Option<Id>)
      modifies this
      ensures entry.None? <==> M.Free(old(State()), d.core) == []
      ensures entry.None? ==> State() == old(State())
      ensures entry.Some? ==> State() == M.Allocate(cfg, old(State()), d)
      ensures entry.Some? ==> var f := M.Free(old(State()), d.core); entry.value == f[|f| - 1]
    {
      var f := Pool(d.core);
      if f == [] { return None; }
      var id := f[|f| - 1];
      free := free[d.core := f[..|f|-1]];
      live := live[d.core := Mshr(d.core) + [id]];
      var r := At(id);
      Put(id, M.Req(next, d.kind, d.core, d.addr, d.size, cfg.prio(d.kind), d.gpu, d.l3, d.fill, M.New, r.queue,
                    r.dst, r.merge, None, false));
      next := next + 1;
      return Some(id);
    }

    method NewMemReq(env: M.Env, d: M.Demand, stopped: bool) returns (ok: bool)
      modifies this
      ensures (State(), ok) == M.NewReq(cfg, env, old(State()), d, stopped)
    {
      if stopped && d.kind == M.DPrefetch { return true; }
      var found := SearchReq(d.core, d.addr, d.size);
      if found.Some? {
        if d.kind == M.DPrefetch { return true; }
        if At(found.value).kind == M.DPrefetch {
          AdjustReq(found.value, d);
          return true;
        }
      }
      var p := M.InQ(M.L2(d.core));
      if |Listed(p)| == M.Size(p) {
        FlushPrefetch(env, d.core);
        if |Listed(p)| == M.Size(p) && d.kind == M.DPrefetch { return true; }
      }
      ok := Enter(env, d, found);
    }

    method AdjustReq(id: Id, d: M.Demand)
      modifies this`reqs
      ensures State() == M.Adjust(cfg, old(State()), id, d)
    {
      Put(id, At(id).(kind := d.kind, core := d.core, addr := d.addr, size := d.size, priority := cfg.prio(d.kind),
                      gpu := d.gpu, l3 := d.l3, fill := d.fill, leader := None, done := false));
    }

    method Enter(env: M.Env, d: M.Demand, found: Option<Id>) returns (ok: bool)
      modifies this
      ensures (State(), ok) == M.Enter(cfg, env, old(State()), d, found)
    {
      var entry := AllocateNewEntry(d);
      if entry.None? {
        FlushPrefetch(env, d.core);
        if d.kind == M.DPrefetch { return true; }
        entry := AllocateNewEntry(d);
        if entry.None? { return false; }
      }
      if found.Some? {
        MergeInto(found.value, entry.value);
      } else {
        var _ := Push(M.InQ(M.L2(d.core)), entry.value);
      }
      return true;
    }

    method MergeInto(leader: Id, id: Id)
      modifies this`reqs
      ensures State() == M.Merge(cfg, old(State()), leader, id)
    {
      Put(id, At(id).(leader := Some(leader), stage := M.Merged));
      var l := At(leader);
      Put(leader, l.(merge := l.merge + [id],
                     priority := if l.priority < At(id).priority then At(id).priority else l.priority));
    }

    // ---------- the queue loops ----------

    method SendUp(u: M.Unit, id: Id) returns (ok: bool)
      modifies this`reqs, this`queues
      ensures (State(), ok) == M.SendUp(cfg, old(State()), u, id)
    {
      var r := At(id);
      if M.DirectUp(cfg, u, r) {
        match M.Above(u, r) {
          case None => ok := false;
          case Some(w) => ok := InsertFill(w, id);
        }
      } else {
        ok := InsertOut(u, id, M.OutFill);
      }
    }

    method SendDown(u: M.Unit, id: Id) returns (ok: bool)
      modifies this`reqs, this`queues
      ensures (State(), ok) == M.SendDown(cfg, old(State()), u, id)
    {
      var r := At(id);
      if M.LinkedDown(cfg, u, r) || !cfg.cache(u).hasRouter {
        match M.Below(u, r) {
          case None => ok := false;
          case Some(w) => ok := Push(M.InQ(w), id);
        }
      } else {
        ok := InsertOut(u, id, M.OutNew);
      }
    }

    method VisitIn(env: M.Env, u: M.Unit, id: Id) returns (ok: bool)
      modifies this
      ensures (State(), ok) == M.VisitIn(cfg, env, old(State()), u, id)
    {
      if !env(id).ready { return false; }
      if M.Hits(cfg, env, u, id) {
        if At(id).kind == M.WriteBack {
          Put(id, At(id).(done := true));
          ok := true;
        } else if cfg.cache(u).done {
          ok := Finish(env, id);
        } else if u.L3? {
          ok := SendUp(u, id);
        } else if M.DirectUp(cfg, u, At(id)) {
          ok := false;
        } else {
          ok := InsertOut(u, id, M.OutFill);
        }
      } else {
        ok := SendDown(u, id);
      }
    }

    method Depart(id: Id, d: M.Dst)
      modifies this`reqs, this`queues
      ensures State() == M.Depart(old(State()), id, d)
    {
      Put(id, At(id).(stage := M.InNoc, queue := None, dst := d));
      queues := queues[M.Noc := Listed(M.Noc) + [id]];
    }

    method VisitOut(env: M.Env, u: M.Unit, id: Id) returns (ok: bool)
      modifies this
      ensures (State(), ok) == M.VisitOut(cfg, env, old(State()), u, id)
    {
      if !env(id).ready { return false; }
      match M.Target(u, At(id)) {
        case None => ok := false;
        case Some(d) =>
          ok := env(id).accept;
          if ok { Depart(id, d); }
      }
    }

    method WaitFill(u: M.Unit, id: Id) returns (ok: bool)
      modifies this`reqs, this`queues
      ensures (State(), ok) == M.WaitIf(M.SendUp(cfg, old(State()), u, id), id, M.WaitFill)
    {
      ok := SendUp(u, id);
      if !ok { Put(id, At(id).(stage := M.WaitFill)); }
    }

    method Filled(env: M.Env, u: M.Unit, id: Id) returns (ok: bool)
      modifies this
      ensures (State(), ok) == M.Filled(cfg, env, old(State()), u, id)
    {
      var k := cfg.cache(u);
      if k.done {
        ok := Finish(env, id);
        if !ok { Put(id, At(id).(stage := M.WaitDone)); }
      } else if At(id).kind == M.WriteBack {
        Put(id, At(id).(done := true));
        ok := true;
      } else if k.disable && !(k.coupledUp && M.Above(u, At(id)).Some?
                               && k.prevId == M.CacheId(M.Above(u, At(id)).value, At(id))) {
        ok := false;
      } else {
        ok := WaitFill(u, id);
      }
    }

    method VisitFill(env: M.Env, u: M.Unit, id: Id) returns (ok: bool)
      modifies this
      ensures (State(), ok) == M.VisitFill(cfg, env, old(State()), u, id)
    {
      if !env(id).ready { return false; }
      match At(id).stage {
        case FillNew =>
          if !cfg.cache(u).disable && !env(id).hit {
            if !env(id).port { return false; }
            Evict(u, env(id).victim);
          }
          ok := Filled(env, u, id);
        case WaitDone => ok := Finish(env, id);
        case WaitFill => ok := WaitFill(u, id);
        case _ => ok := false;
      }
    }

    method VisitWb(env: M.Env, u: M.Unit, id: Id) returns (ok: bool)
      modifies this
      ensures (State(), ok) == M.VisitWb(cfg, env, old(State()), u, id)
    {
      if !env(id).ready { return false; }
      if M.LinkedDown(cfg, u, At(id)) {
        ok := InsertFill(M.Below(u, At(id)).value, id);
      } else {
        ok := InsertOut(u, id, M.OutWb);
      }
    }

    method Visit(env: M.Env, l: M.Loop, u: M.Unit, id: Id) returns (ok: bool)
      modifies this
      ensures (State(), ok) == M.Visit(cfg, env, old(State()), l, u, id)
    {
      match l {
        case LoopIn => ok := VisitIn(env, u, id);
        case LoopOut => ok := VisitOut(env, u, id);
        case LoopFill => ok := VisitFill(env, u, id);
        case LoopWb => ok := VisitWb(env, u, id);
      }
    }

    /** The first loop of a queue: it breaks at the fourth request, and the fill loop also when the
        write-back queue is full. */
    method Scan(env: M.Env, l: M.Loop, u: M.Unit) returns (done: seq<Id>)
      modifies this
      ensures (State(), done) == M.Scan(cfg, env, old(State()), l, u, M.Q(old(State()), M.QueueOf(l, u)))
    {
      hide M.Visit;
      var xs := Listed(M.QueueOf(l, u));
      done := [];
      var i := 0;
      while i < |xs| && !(|done| == 4 || (l.LoopFill? && |Listed(M.WbQ(u))| == M.Size(M.WbQ(u))))
        invariant i <= |xs| && (State(), done) == M.Scan(cfg, env, old(State()), l, u, xs[..i])
      {
        assert xs[..i + 1][..i] == xs[..i];
        var ok := Visit(env, l, u, xs[i]);
        if ok { done := done + [xs[i]]; }
        i := i + 1;
      }
      Stopped(env, old(State()), l, u, xs, i);
      assert xs[..|xs|] == xs;
    }

    /** Once the scan has stopped the rest of the list changes nothing. */
    lemma {:induction false} Stopped(env: M.Env, s: M.Mem, l: M.Loop, u: M.Unit, xs: seq<Id>, i: nat)
      requires i <= |xs|
      requires var (t, ds) := M.Scan(cfg, env, s, l, u, xs[..i]); i == |xs| || M.Stops(t, l, u, ds)
      ensures M.Scan(cfg, env, s, l, u, xs) == M.Scan(cfg, env, s, l, u, xs[..i])
    {
      if i < |xs| {
        assert xs[..|xs|-1][..i] == xs[..i];
        Stopped(env, s, l, u, xs[..|xs|-1], i);
      } else {
        assert xs[..i] == xs;
      }
    }

    /** `process_in_queue`, `process_out_queue`, `process_fill_queue` and `process_wb_queue`. */
    method ProcessQueue(env: M.Env, l: M.Loop, u: M.Unit)
      modifies this
      ensures State() == M.Process(cfg, env, old(State()), l, u)
    {
      hide M.Leave;
      hide M.Scan;
      var done := Scan(env, l, u);
      ghost var t := State();
      var i := 0;
      while i < |done|
        invariant i <= |done| && State() == M.LeaveEach(cfg, env, t, l, u, done[..i])
      {
        assert done[..i + 1][..i] == done[..i];
        Leave(env, l, u, done[i]);
        i := i + 1;
      }
      assert done[..i] == done;
    }

    /** A request whose work is over leaves the queue, and is freed if it is done. */
    method Leave(env: M.Env, l: M.Loop, u: M.Unit, id: Id)
      modifies this
      ensures State() == M.Leave(cfg, env, old(State()), l, u, id)
    {
      hide M.FreeReq;
      Pop(M.QueueOf(l, u), id);
      if (l.LoopIn? || l.LoopFill?) && At(id).done { FreeReq(env, id); }
    }

    // ---------- the network and the controllers ----------

    method Receive(env: M.Env, id: Id) returns (ok: bool)
      modifies this
      ensures (State(), ok) == M.Receive(cfg, env, old(State()), id)
    {
      match At(id).dst {
        case ToFill(u) => ok := InsertFill(u, id);
        case ToIn(u) => ok := Push(M.InQ(u), id);
        case ToMc =>
          if env(id).accept {
            Put(id, At(id).(stage := M.InDram, queue := None));
            queues := queues[M.Dram := Listed(M.Dram) + [id]];
            ok := true;
          } else if At(id).kind == M.DPrefetch {
            FreeReq(env, id);
            ok := true;
          } else {
            ok := false;
          }
      }
    }

    method Deliver(env: M.Env, id: Id)
      modifies this
      ensures State() == M.Deliver(cfg, env, old(State()), id)
    {
      var ok := Receive(env, id);
      if ok { Pop(M.Noc, id); }
    }
  }
}
