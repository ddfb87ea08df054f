/**
 The request side of the memory system (src/memory.cc, src/noc.cc): per-core miss buffers with
 merging, promotion and prefetch flushing, the four queues of every cache, the network and the
 memory controllers, with one function per step. What a cache lookup, a port, a router or a
 controller answers is a `Choice`. `MemController.dfy` proves the imperative loops equal to
 these functions.
 */
module MemModel {
  import opened MemLists
  import opened Options

  // ---------- values ----------

  datatype Kind = IFetch | DFetch | DStore | DPrefetch | WriteBack

  /** `m_done_func`: none, `dcache_fill_line_wrapper` or `icache_fill_line_wrapper`. */
  datatype Fill = NoFill | DFill | IFill

  datatype Stage = New | Merged | OutNew | InNoc | OutFill | OutWb | FillNew | WaitDone | WaitFill | InDram

  /** A cache, by level and index. */
  datatype Unit = L1(c: nat) | L2(c: nat) | L3(c: nat)

  datatype Place = InQ(u: Unit) | OutQ(u: Unit) | FillQ(u: Unit) | WbQ(u: Unit) | Noc | Dram

  datatype Dst = ToFill(u: Unit) | ToIn(u: Unit) | ToMc

  /** `mem_req_s`. `uid` is `m_id`, `queue` is `m_queue`, `leader` is `m_merged_req`, and `dst`
      the message kind and destination of a request in the network. */
  datatype Req = Req(uid: int, kind: Kind, core: nat, addr: nat, size: nat, priority: int, gpu: bool, l3: nat,
                     fill: Fill, stage: Stage, queue: Option<Place>, dst: Dst,
                     merge: seq<Id>, leader: Option<Id>, done: bool)

  const DEAD := Req(-1, DFetch, 0, 0, 0, 0, false, 0, NoFill, New, None, ToMc, [], None, false)

  /** `dcu_c::init`. */
  datatype Cache = Cache(done: bool, coupledUp: bool, coupledDown: bool, nextId: int, prevId: int,
                         disable: bool, hasRouter: bool)

  datatype Order = ByPriority | CpuFirst | GpuFirst

  datatype Config = Config(cores: nat, mshr: nat, order: Order, prio: Kind -> int, cache: Unit -> Cache)

  /** A request leaving the miss buffers, as it was then. */
  datatype Freed = Freed(uid: int, kind: Kind, fill: Fill)

  /** A call of a request's own callback, and its answer. */
  datatype Call = Call(uid: int, fill: Fill, ok: bool)

  /** `reqs` is the heap of request objects; `live` and `free` are `m_mshr` and
      `m_mshr_free_list`; `next` is `m_unique_id`; `heap` the next identity there; `effects` the
      ids whose completion took effect, `calls` the callbacks called and `freed` the requests released, in
      order. */
  datatype Mem = Mem(reqs: map<Id, Req>, live: map<nat, seq<Id>>, free: map<nat, seq<Id>>,
                     queues: map<Place, seq<Id>>, next: nat, heap: Id,
                     effects: seq<int>, calls: seq<Call>, freed: seq<Freed>)

  datatype Victim = Victim(addr: nat, size: nat, core: nat, gpu: bool, l3: nat)

  /** What the surroundings answer about one request during one step: whether its ready cycle is
      reached, whether the lookup hits, the L3 is bypassed, a write port is free, which dirty line
      an insertion evicts, and whether the router or memory controller accepts it. */
  datatype Choice = Choice(ready: bool, hit: bool, bypass: bool, port: bool, victim: Option<Victim>, accept: bool)

  type Env = Id -> Choice

  // ---------- access ----------

  function At(s: Mem, id: Id): Req { if id in s.reqs then s.reqs[id] else DEAD }

  function Put(s: Mem, id: Id, r: Req): Mem { s.(reqs := s.reqs[id := r]) }

  function Q(s: Mem, p: Place): seq<Id> { if p in s.queues then s.queues[p] else [] }

  function PutQ(s: Mem, p: Place, xs: seq<Id>): Mem { s.(queues := s.queues[p := xs]) }

  function Live(s: Mem, c: nat): seq<Id> { if c in s.live then s.live[c] else [] }

  function Free(s: Mem, c: nat): seq<Id> { if c in s.free then s.free[c] else [] }

  // ---------- queue_c ----------

  function Size(p: Place): nat {
    match p
    case InQ(_) => 1024
    case FillQ(_) => 1024
    case _ => 2048
  }

  predicate Full(s: Mem, p: Place) { |Q(s, p)| == Size(p) }

  /** `sort_func`. */
  predicate Ahead(o: Order, a: Req, b: Req) {
    if o == CpuFirst && a.gpu != b.gpu then b.gpu
    else if o == GpuFirst && a.gpu != b.gpu then a.gpu
    else a.priority > b.priority
  }

  /** Where the stable sort puts `x` after the sorted list `xs`. */
  function Ranked(o: Order, s: Mem, xs: seq<Id>, x: Id): (ys: seq<Id>) {
    if xs != [] && Ahead(o, At(s, x), At(s, xs[|xs|-1]))
    then Ranked(o, s, xs[..|xs|-1], x) + [xs[|xs|-1]]
    else xs + [x]
  }

  function Sort(o: Order, s: Mem, xs: seq<Id>): (ys: seq<Id>) {
    if xs == [] then [] else Ranked(o, s, Sort(o, s, xs[..|xs|-1]), xs[|xs|-1])
  }

  function Push(cfg: Config, s: Mem, p: Place, id: Id): (Mem, bool) {
    if Full(s, p) then (s, false)
    else (PutQ(Put(s, id, At(s, id).(queue := Some(p))), p, Sort(cfg.order, s, Q(s, p) + [id])), true)
  }

  function Pop(s: Mem, p: Place, id: Id): Mem { PutQ(s, p, Without(Q(s, p), id)) }

  function Staged(s: Mem, id: Id, g: Stage): Mem { Put(s, id, At(s, id).(stage := g)) }

  function MarkDone(s: Mem, id: Id): Mem { Put(s, id, At(s, id).(done := true)) }

  /** `dcu_c::insert`. */
  function InsertIn(cfg: Config, s: Mem, u: Unit, id: Id): (Mem, bool) { Push(cfg, s, InQ(u), id) }

  /** `dcu_c::fill`. */
  function InsertFill(cfg: Config, s: Mem, u: Unit, id: Id): (Mem, bool) {
    var (t, ok) := Push(cfg, s, FillQ(u), id);
    if ok then (Staged(t, id, FillNew), true) else (t, false)
  }

  /** A push to the output queue followed by the state of the request there. */
  function InsertOut(cfg: Config, s: Mem, u: Unit, id: Id, g: Stage): (Mem, bool) {
    var (t, ok) := Push(cfg, s, OutQ(u), id);
    if ok then (Staged(t, id, g), true) else (t, false)
  }

  // ---------- write-backs and completion ----------

  function NewWb(cfg: Config, s: Mem, v: Victim): Mem {
    Put(s, s.heap, Req(s.next, WriteBack, v.core, v.addr, v.size, cfg.prio(WriteBack), v.gpu, v.l3, NoFill, New,
                        None, ToMc, [], None, false)).(next := s.next + 1, heap := s.heap + 1)
  }

  /** The write-back of an evicted dirty line, if there is one. */
  function Evict(cfg: Config, s: Mem, u: Unit, v: Option<Victim>): Mem {
    if v.None? then s else Push(cfg, NewWb(cfg, s, v.value), WbQ(u), s.heap).0
  }

  function Effect(s: Mem, id: Id): Mem { s.(effects := s.effects + [At(s, id).uid]) }

  /** The callback of `id` answers. */
  function Called(s: Mem, id: Id, ok: bool): Mem { s.(calls := s.calls + [Call(At(s, id).uid, At(s, id).fill, ok)]) }

  /** `dcu_c::done` of the requesting core's L1. */
  function DcuDone(cfg: Config, env: Env, s: Mem, id: Id): (Mem, bool) {
    var u := L1(At(s, id).core);
    if Full(s, WbQ(u)) then (Called(s, id, false), false)
    else if cfg.cache(u).disable then (Called(Effect(s, id), id, true), true)
    else if !env(id).port then (Called(s, id, false), false)
    else (Called(Effect(Evict(cfg, s, u, env(id).victim), id), id, true), true)
  }

  /** The callback of a request that leads no others. */
  function Serve(cfg: Config, env: Env, s: Mem, id: Id): (Mem, bool) {
    match At(s, id).fill
    case NoFill => (s, true)
    case DFill => DcuDone(cfg, env, s, id)
    case IFill => (Called(Effect(s, id), id, true), true)
  }

  /** The first loop of the wrappers: every merged request is tried once. */
  function ServeEach(cfg: Config, env: Env, s: Mem, ms: seq<Id>): (Mem, seq<Id>) {
    if ms == [] then (s, [])
    else
      var (t, ds) := ServeEach(cfg, env, s, ms[..|ms|-1]);
      var (u, ok) := Serve(cfg, env, t, ms[|ms|-1]);
      (u, if ok then ds + [ms[|ms|-1]] else ds)
  }

  /** `free_req` of a request that leads no others: write-backs are deleted, the others go back
      to the free list. */
  function Release(s: Mem, id: Id): Mem {
    var r := At(s, id);
    var t := s.(freed := s.freed + [Freed(r.uid, r.kind, r.fill)]);
    if r.kind == WriteBack then t.(reqs := t.reqs - {id})
    else
      Put(t, id, r.(addr := 0, uid := -1))
        .(live := s.live[r.core := Without(Live(s, r.core), id)], free := s.free[r.core := Free(s, r.core) + [id]])
  }

  function Unmerge(s: Mem, leader: Id, id: Id): Mem {
    Put(s, leader, At(s, leader).(merge := Without(At(s, leader).merge, id)))
  }

  /** The second loop of the wrappers: the served requests leave the merge list and are freed. */
  function DropEach(s: Mem, leader: Id, ds: seq<Id>): Mem {
    if ds == [] then s
    else Release(Unmerge(DropEach(s, leader, ds[..|ds|-1]), leader, ds[|ds|-1]), ds[|ds|-1])
  }

  /** Both loops; the flag says that every merged request was served. */
  function Drain(cfg: Config, env: Env, s: Mem, id: Id): (Mem, bool) {
    var (t, ds) := ServeEach(cfg, env, s, At(s, id).merge);
    (DropEach(t, id, ds), |ds| == |At(s, id).merge|)
  }

  /** `dcache_fill_line_wrapper`. */
  function DcacheFill(cfg: Config, env: Env, s: Mem, id: Id): (Mem, bool) {
    var (t, all) := Drain(cfg, env, s, id);
    if !all then (Called(t, id, false), false)
    else if At(s, id).fill != NoFill then DcuDone(cfg, env, t, id)
    else (t, true)
  }

  /** `icache_fill_line_wrapper`: the leader's own fill happens whether or not all were served. */
  function IcacheFill(cfg: Config, env: Env, s: Mem, id: Id): (Mem, bool) {
    var (t, all) := Drain(cfg, env, s, id);
    (Called(Effect(t, id), id, all), all)
  }

  /** `!m_done_func || m_done_func(req)`. */
  function Callback(cfg: Config, env: Env, s: Mem, id: Id): (Mem, bool) {
    match At(s, id).fill
    case NoFill => (s, true)
    case DFill => DcacheFill(cfg, env, s, id)
    case IFill => IcacheFill(cfg, env, s, id)
  }

  function FreeReq(cfg: Config, env: Env, s: Mem, id: Id): Mem {
    Release(if At(s, id).merge != [] then DcacheFill(cfg, env, s, id).0 else s, id)
  }

  // ---------- miss buffers ----------

  /** What `new_mem_req` is asked for. */
  datatype Demand = Demand(kind: Kind, addr: nat, size: nat, fill: Fill, core: nat, gpu: bool, l3: nat)

  predicate Covers(r: Req, addr: nat, size: nat) {
    r.addr <= addr && r.addr + r.size >= addr + size
  }

  /** `search_req`: the first request of the list that covers the range. */
  function Search(s: Mem, xs: seq<Id>, addr: nat, size: nat): Option<Id> {
    if xs == [] then None
    else
      var first := Search(s, xs[..|xs|-1], addr, size);
      if first.Some? then first
      else if Covers(At(s, xs[|xs|-1]), addr, size) then Some(xs[|xs|-1])
      else None
  }

  predicate Flushable(s: Mem, id: Id) { At(s, id).kind == DPrefetch && At(s, id).merge == [] }

  function FlushList(s: Mem, xs: seq<Id>): seq<Id> {
    if xs == [] then []
    else FlushList(s, xs[..|xs|-1]) + (if Flushable(s, xs[|xs|-1]) then [xs[|xs|-1]] else [])
  }

  /** One prefetch leaves its queue and is freed; outside a queue it stays. */
  function FlushOne(cfg: Config, env: Env, s: Mem, id: Id): Mem {
    match At(s, id).queue
    case None => s
    case Some(p) => FreeReq(cfg, env, Pop(s, p, id), id)
  }

  function FlushEach(cfg: Config, env: Env, s: Mem, ds: seq<Id>): Mem {
    if ds == [] then s else FlushOne(cfg, env, FlushEach(cfg, env, s, ds[..|ds|-1]), ds[|ds|-1])
  }

  /** `flush_prefetch`. */
  function Flush(cfg: Config, env: Env, s: Mem, c: nat): Mem {
    FlushEach(cfg, env, s, FlushList(s, Live(s, c)))
  }

  function FlushIf(cfg: Config, env: Env, s: Mem, c: nat, b: bool): Mem {
    if b then Flush(cfg, env, s, c) else s
  }

  /** `allocate_new_entry` of a nonempty free list followed by `init_new_req`; `m_queue` and the
      merge list are left as they were. */
  function Allocate(cfg: Config, s: Mem, d: Demand): Mem
    requires Free(s, d.core) != []
  {
    var f := Free(s, d.core);
    var id := f[|f|-1];
    var r := At(s, id);
    Put(s, id, Req(s.next, d.kind, d.core, d.addr, d.size, cfg.prio(d.kind), d.gpu, d.l3, d.fill, New, r.queue,
                   r.dst, r.merge, None, false))
      .(free := s.free[d.core := f[..|f|-1]], live := s.live[d.core := Live(s, d.core) + [id]], next := s.next + 1)
  }

  /** `adjust_req`: a prefetch becomes the demand that found it. */
  function Adjust(cfg: Config, s: Mem, id: Id, d: Demand): Mem {
    var r := At(s, id);
    Put(s, id, r.(kind := d.kind, core := d.core, addr := d.addr, size := d.size, priority := cfg.prio(d.kind),
                  gpu := d.gpu, l3 := d.l3, fill := d.fill, leader := None, done := false))
  }

  /** The new request `id` joins the requests that wait for `leader`. */
  function Merge(cfg: Config, s: Mem, leader: Id, id: Id): Mem {
    var t := Put(s, id, At(s, id).(leader := Some(leader), stage := Merged));
    var l := At(t, leader);
    Put(t, leader, l.(merge := l.merge + [id], priority := if l.priority < At(t, id).priority then At(t, id).priority
                                                           else l.priority))
  }

  /** `new_mem_req` once the buffers have been searched (`found`) and the input queue looked at. */
  function Enter(cfg: Config, env: Env, s: Mem, d: Demand, found: Option<Id>): (Mem, bool) {
    var f := FlushIf(cfg, env, s, d.core, Free(s, d.core) == []);
    if Free(s, d.core) == [] && d.kind == DPrefetch then (f, true)
    else if Free(f, d.core) == [] then (f, false)
    else
      var id := Free(f, d.core)[|Free(f, d.core)|-1];
      var t := Allocate(cfg, f, d);
      if found.Some? then (Merge(cfg, t, found.value, id), true)
      else (InsertIn(cfg, t, L2(d.core), id).0, true)
  }

  /** `new_mem_req`; `stopped` says that prefetching is suspended. */
  function NewReq(cfg: Config, env: Env, s: Mem, d: Demand, stopped: bool): (Mem, bool) {
    if stopped && d.kind == DPrefetch then (s, true)
    else
      var found := Search(s, Live(s, d.core), d.addr, d.size);
      if found.Some? && d.kind == DPrefetch then (s, true)
      else if found.Some? && At(s, found.value).kind == DPrefetch then (Adjust(cfg, s, found.value, d), true)
      else
        var full := Full(s, InQ(L2(d.core)));
        var f := FlushIf(cfg, env, s, d.core, full);
        if full && Full(f, InQ(L2(d.core))) && d.kind == DPrefetch then (f, true)
        else Enter(cfg, env, f, d, found)
  }

  // ---------- the queues of a cache ----------

  function CacheId(u: Unit, r: Req): int {
    match u
    case L1(_) => r.core
    case L2(_) => r.core
    case L3(_) => r.l3
  }

  /** The cache one level up or down that a request uses; none above the L1 and below the L3. */
  function Above(u: Unit, r: Req): Option<Unit> {
    match u
    case L1(_) => None
    case L2(_) => Some(L1(r.core))
    case L3(_) => Some(L2(r.core))
  }

  function Below(u: Unit, r: Req): Option<Unit> {
    match u
    case L1(_) => Some(L2(r.core))
    case L2(_) => Some(L3(r.l3))
    case L3(_) => None
  }

  predicate DirectUp(cfg: Config, u: Unit, r: Req) {
    var k := cfg.cache(u);
    (k.coupledUp && Above(u, r).Some? && k.prevId == CacheId(Above(u, r).value, r)) || !k.hasRouter
  }

  predicate LinkedDown(cfg: Config, u: Unit, r: Req) {
    var k := cfg.cache(u);
    k.coupledDown && Below(u, r).Some? && k.nextId == CacheId(Below(u, r).value, r)
  }

  /** A fill goes to the cache above, directly or through the output queue. */
  function SendUp(cfg: Config, s: Mem, u: Unit, id: Id): (Mem, bool) {
    var r := At(s, id);
    if DirectUp(cfg, u, r) then
      match Above(u, r)
      case None => (s, false)
      case Some(w) => InsertFill(cfg, s, w, id)
    else InsertOut(cfg, s, u, id, OutFill)
  }

  /** A miss goes to the cache below, directly or through the output queue. */
  function SendDown(cfg: Config, s: Mem, u: Unit, id: Id): (Mem, bool) {
    var r := At(s, id);
    if LinkedDown(cfg, u, r) || !cfg.cache(u).hasRouter then
      match Below(u, r)
      case None => (s, false)
      case Some(w) => InsertIn(cfg, s, w, id)
    else InsertOut(cfg, s, u, id, OutNew)
  }

  /** The callback, and the mark that the request is complete. */
  function Finish(cfg: Config, env: Env, s: Mem, id: Id): (Mem, bool) {
    var (t, ok) := Callback(cfg, env, s, id);
    if ok then (MarkDone(t, id), true) else (t, false)
  }

  predicate Hits(cfg: Config, env: Env, u: Unit, id: Id) {
    !(u.L3? && env(id).bypass) && !cfg.cache(u).disable && env(id).hit
  }

  /** One request of `process_in_queue`; the flag puts it on the done list. */
  function VisitIn(cfg: Config, env: Env, s: Mem, u: Unit, id: Id): (Mem, bool) {
    if !env(id).ready then (s, false)
    else if !Hits(cfg, env, u, id) then SendDown(cfg, s, u, id)
    else if At(s, id).kind == WriteBack then (MarkDone(s, id), true)
    else if cfg.cache(u).done then Finish(cfg, env, s, id)
    else if u.L3? then SendUp(cfg, s, u, id)
    else if DirectUp(cfg, u, At(s, id)) then (s, false)
    else InsertOut(cfg, s, u, id, OutFill)
  }

  function Depart(s: Mem, id: Id, d: Dst): Mem {
    PutQ(Put(s, id, At(s, id).(stage := InNoc, queue := None, dst := d)), Noc, Q(s, Noc) + [id])
  }

  /** Where a request in an output queue is sent. */
  function Target(u: Unit, r: Req): Option<Dst> {
    match r.stage
    case OutNew =>
      if Below(u, r).None? then Some(ToMc) else if u.L1? then None else Some(ToIn(Below(u, r).value))
    case OutFill =>
      if Above(u, r).None? then None else Some(ToFill(Above(u, r).value))
    case OutWb =>
      if Below(u, r).None? then Some(ToMc) else Some(ToFill(Below(u, r).value))
    case _ => None
  }

  function VisitOut(cfg: Config, env: Env, s: Mem, u: Unit, id: Id): (Mem, bool) {
    if !env(id).ready then (s, false)
    else
      match Target(u, At(s, id))
      case None => (s, false)
      case Some(d) => if env(id).accept then (Depart(s, id, d), true) else (s, false)
  }

  /** A refused fill waits. */
  function WaitIf(t: (Mem, bool), id: Id, g: Stage): (Mem, bool) {
    if t.1 then t else (Staged(t.0, id, g), false)
  }

  function FillUp(cfg: Config, s: Mem, u: Unit, id: Id): (Mem, bool) {
    var r := At(s, id);
    if cfg.cache(u).disable && !(cfg.cache(u).coupledUp && Above(u, r).Some?
                                 && cfg.cache(u).prevId == CacheId(Above(u, r).value, r))
    then (s, false)
    else WaitIf(SendUp(cfg, s, u, id), id, WaitFill)
  }

  /** The line is in the cache: complete the request, or pass the fill on. */
  function Filled(cfg: Config, env: Env, s: Mem, u: Unit, id: Id): (Mem, bool) {
    if cfg.cache(u).done then WaitIf(Finish(cfg, env, s, id), id, WaitDone)
    else if At(s, id).kind == WriteBack then (MarkDone(s, id), true)
    else FillUp(cfg, s, u, id)
  }

  function VisitFill(cfg: Config, env: Env, s: Mem, u: Unit, id: Id): (Mem, bool) {
    if !env(id).ready then (s, false)
    else
      match At(s, id).stage
      case FillNew =>
        var insert := !cfg.cache(u).disable && !env(id).hit;
        if insert && !env(id).port then (s, false)
        else
          var t := if insert then Evict(cfg, s, u, env(id).victim) else s;
          Filled(cfg, env, t, u, id)
      case WaitDone => Finish(cfg, env, s, id)
      case WaitFill => WaitIf(SendUp(cfg, s, u, id), id, WaitFill)
      case _ => (s, false)
  }

  function VisitWb(cfg: Config, env: Env, s: Mem, u: Unit, id: Id): (Mem, bool) {
    var r := At(s, id);
    if !env(id).ready then (s, false)
    else if LinkedDown(cfg, u, r) then InsertFill(cfg, s, Below(u, r).value, id)
    else InsertOut(cfg, s, u, id, OutWb)
  }

  datatype Loop = LoopIn | LoopOut | LoopFill | LoopWb

  function QueueOf(l: Loop, u: Unit): Place {
    match l
    case LoopIn => InQ(u)
    case LoopOut => OutQ(u)
    case LoopFill => FillQ(u)
    case LoopWb => WbQ(u)
  }

  function Visit(cfg: Config, env: Env, s: Mem, l: Loop, u: Unit, id: Id): (Mem, bool) {
    match l
    case LoopIn => VisitIn(cfg, env, s, u, id)
    case LoopOut => VisitOut(cfg, env, s, u, id)
    case LoopFill => VisitFill(cfg, env, s, u, id)
    case LoopWb => VisitWb(cfg, env, s, u, id)
  }

  /** The scan of a queue stops after four requests; the fill loop also stops when the
      write-back queue is full. */
  predicate Stops(s: Mem, l: Loop, u: Unit, ds: seq<Id>) {
    |ds| == 4 || (l.LoopFill? && Full(s, WbQ(u)))
  }

  function Scan(cfg: Config, env: Env, s: Mem, l: Loop, u: Unit, xs: seq<Id>): (Mem, seq<Id>) {
    if xs == [] then (s, [])
    else
      var (t, ds) := Scan(cfg, env, s, l, u, xs[..|xs|-1]);
      if Stops(t, l, u, ds) then (t, ds)
      else
        var (v, ok) := Visit(cfg, env, t, l, u, xs[|xs|-1]);
        (v, if ok then ds + [xs[|xs|-1]] else ds)
  }

  /** A processed request leaves the queue; a complete one is freed. */
  function Leave(cfg: Config, env: Env, s: Mem, l: Loop, u: Unit, id: Id): Mem {
    var t := Pop(s, QueueOf(l, u), id);
    if (l.LoopIn? || l.LoopFill?) && At(t, id).done then FreeReq(cfg, env, t, id) else t
  }

  function LeaveEach(cfg: Config, env: Env, s: Mem, l: Loop, u: Unit, ds: seq<Id>): Mem {
    if ds == [] then s else Leave(cfg, env, LeaveEach(cfg, env, s, l, u, ds[..|ds|-1]), l, u, ds[|ds|-1])
  }

  /** `process_in_queue`, `process_out_queue`, `process_fill_queue` or `process_wb_queue`. */
  function Process(cfg: Config, env: Env, s: Mem, l: Loop, u: Unit): Mem {
    var (t, ds) := Scan(cfg, env, s, l, u, Q(s, QueueOf(l, u)));
    LeaveEach(cfg, env, t, l, u, ds)
  }

  // ---------- the network and the controllers ----------

  /** `memory_c::receive`: the result says that the packet leaves the network. */
  function Receive(cfg: Config, env: Env, s: Mem, id: Id): (Mem, bool) {
    match At(s, id).dst
    case ToFill(u) => InsertFill(cfg, s, u, id)
    case ToIn(u) => InsertIn(cfg, s, u, id)
    case ToMc =>
      if env(id).accept then
        (PutQ(Put(s, id, At(s, id).(stage := InDram, queue := None)), Dram, Q(s, Dram) + [id]), true)
      else if At(s, id).kind == DPrefetch then (FreeReq(cfg, env, s, id), true)
      else (s, false)
  }

  /** One packet of `noc_c::run_a_cycle`. */
  function Deliver(cfg: Config, env: Env, s: Mem, id: Id): Mem {
    var (t, ok) := Receive(cfg, env, s, id);
    if ok then Pop(t, Noc, id) else t
  }

  /** The memory controller sends a completed request back to its L3. */
  function Reply(s: Mem, id: Id): Mem {
    Pop(Depart(s, id, ToFill(L3(At(s, id).l3))), Dram, id)
  }

  /** The memory controller retires a write-back or flushes a prefetch. */
  function Drop(cfg: Config, env: Env, s: Mem, id: Id): Mem {
    FreeReq(cfg, env, Pop(s, Dram, id), id)
  }

  // ---------- runs ----------

  datatype Op =
    | Request(d: Demand, stopped: bool)
    | Run(l: Loop, u: Unit)
    | Packet(id: Id)
    | McReply(id: Id)
    | McDrop(id: Id)

  datatype Step = Step(op: Op, env: Env)

  predicate OpOk(cfg: Config, s: Mem, op: Op) {
    match op
    case Request(d, _) =>
      d.core < cfg.cores && d.kind != WriteBack && (d.fill == NoFill ==> d.kind == DPrefetch)
      && (d.fill == IFill <==> d.kind == IFetch)
    case Run(_, _) => true
    case Packet(id) => id in Q(s, Noc)
    case McReply(id) => id in Q(s, Dram) && At(s, id).kind != WriteBack
    case McDrop(id) => id in Q(s, Dram) && (At(s, id).kind == WriteBack || At(s, id).kind == DPrefetch)
  }

  function Exec(cfg: Config, s: Mem, step: Step): Mem {
    match step.op
    case Request(d, stopped) => NewReq(cfg, step.env, s, d, stopped).0
    case Run(l, u) => Process(cfg, step.env, s, l, u)
    case Packet(id) => Deliver(cfg, step.env, s, id)
    case McReply(id) => Reply(s, id)
    case McDrop(id) => Drop(cfg, step.env, s, id)
  }

  /** The constructor's loops: `n` entries more for core `c`, and the pools of the first `k` cores. */
  function AddEntries(s: Mem, c: nat, n: nat): Mem {
    if n == 0 then s
    else
      var t := AddEntries(s, c, n - 1);
      t.(reqs := t.reqs[t.heap := DEAD.(core := c)], free := t.free[c := Free(t, c) + [t.heap]], heap := t.heap + 1)
  }

  function Pooled(cfg: Config, k: nat): Mem {
    if k == 0 then Mem(map[], map[], map[], map[], 0, 0, [], [], []) else AddEntries(Pooled(cfg, k - 1), k - 1, cfg.mshr)
  }

  function Start(cfg: Config): Mem { Pooled(cfg, cfg.cores) }

  predicate IsRun(cfg: Config, states: seq<Mem>, steps: seq<Step>) {
    && |states| == |steps| + 1 && states[0] == Start(cfg)
    && forall i :: 0 <= i < |steps| ==>
         OpOk(cfg, states[i], steps[i].op) && states[i + 1] == Exec(cfg, states[i], steps[i])
  }
}
