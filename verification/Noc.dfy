/**
 The built-in network (src/noc.cc): four lists of packets, by direction and by kind of request, that
 are tried each cycle once they have travelled for ten. A packet is the list entry, numbered in order
 of insertion; which packets the receiver takes in a cycle is a parameter.
 */
module Noc {
  import opened Removal

  const DELAY := 10

  datatype Trip = Trip(src: nat, dst: nat, ptx: bool, at: nat)

  datatype Packet = Packet(id: nat, ready: nat)

  datatype Arrival = Arrival(id: nat, at: nat)

  /** `m_cpu_entry_up`, `m_gpu_entry_up`, `m_cpu_entry_down` and `m_gpu_entry_down`; and, to state what
      happens to a packet, the trips asked for and the packets received. */
  datatype Net = Net(lanes: seq<seq<Packet>>, cycle: nat, sent: seq<Trip>, arrived: seq<Arrival>)

  function IdOf(p: Packet): nat { p.id }

  /** The CPU lists are those of GPU requests, and with one queue for both those of all. */
  function Lane(same: bool, t: Trip): (k: nat)
    ensures k < 4
  {
    (if t.src > t.dst then 0 else 2) + (if t.ptx || same then 0 else 1)
  }

  function Empty(): Net { Net([[], [], [], []], 0, [], []) }

  function Insert(same: bool, n: Net, src: nat, dst: nat, ptx: bool): Net
    requires |n.lanes| == 4
  {
    var t := Trip(src, dst, ptx, n.cycle);
    var k := Lane(same, t);
    n.(lanes := n.lanes[k := n.lanes[k] + [Packet(|n.sent|, n.cycle + DELAY)]], sent := n.sent + [t])
  }

  /** The first loop stops at the first packet that is not ready. */
  function Ready(xs: seq<Packet>, now: nat): (k: nat)
    ensures k <= |xs|
  {
    if xs == [] || xs[0].ready > now then 0 else 1 + Ready(xs[1..], now)
  }

  /** The packets the receiver takes, or refuses, in order. */
  function Answered(xs: seq<Packet>, takes: set<nat>, want: bool): (ys: seq<Packet>) {
    if xs == [] then []
    else Answered(xs[..|xs|-1], takes, want) + (if (xs[|xs|-1].id in takes) == want then [xs[|xs|-1]] else [])
  }

  function Stamp(xs: seq<Packet>, now: nat): (ys: seq<Arrival>)
    ensures |ys| == |xs| && forall i :: 0 <= i < |xs| ==> ys[i] == Arrival(xs[i].id, now)
  {
    seq(|xs|, i requires 0 <= i < |xs| => Arrival(xs[i].id, now))
  }

  function Drain(n: Net, k: nat, takes: set<nat>): (m: Net)
    requires k < |n.lanes|
    ensures |m.lanes| == |n.lanes|
  {
    var xs := n.lanes[k];
    var r := Ready(xs, n.cycle);
    n.(lanes := n.lanes[k := Answered(xs[..r], takes, false) + xs[r..]],
       arrived := n.arrived + Stamp(Answered(xs[..r], takes, true), n.cycle))
  }

  /** `run_a_cycle`. */
  function Cycle(same: bool, n: Net, takes: set<nat>): Net
    requires |n.lanes| == 4
  {
    var a := Drain(n, 0, takes);
    var b := if same then a else Drain(a, 1, takes);
    var c := Drain(b, 2, takes);
    if same then c else Drain(c, 3, takes)
  }

  // ---------- runs ----------

  datatype Op = Send(src: nat, dst: nat, ptx: bool) | Run(takes: set<nat>) | Tick

  function Exec(same: bool, n: Net, op: Op): Net
    requires |n.lanes| == 4
  {
    match op
    case Send(src, dst, ptx) => Insert(same, n, src, dst, ptx)
    case Run(takes) => Cycle(same, n, takes)
    case Tick => n.(cycle := n.cycle + 1)
  }

  ghost predicate IsRun(same: bool, states: seq<Net>, ops: seq<Op>) {
    && |states| == |ops| + 1 && states[0] == Empty()
    && forall i :: 0 <= i < |ops| ==> |states[i].lanes| == 4 && states[i + 1] == Exec(same, states[i], ops[i])
  }

  /** Lists 0 and 1 lead to lower-numbered nodes, 2 and 3 to the others; 1 and 3 take, unless both kinds share a
      queue, what is not marked `m_ptx`. A packet joins the end of that list, due ten cycles later. */
  lemma InsertSaid(same: bool, n: Net, src: nat, dst: nat, ptx: bool, k: nat)
    requires |n.lanes| == 4 && k < 4
    ensures var m := Insert(same, n, src, dst, ptx);
            m.lanes[k] == if (k <= 1 <==> src > dst) && ((k == 1 || k == 3) <==> (!same && !ptx))
                          then n.lanes[k] + [Packet(|n.sent|, n.cycle + 10)] else n.lanes[k]
  {
  }

  // ---------- what every step keeps ----------

  /** Packets stand in their lane in order of insertion, each with the cycle its trip gives it. */
  predicate LaneOk(same: bool, n: Net, k: nat)
    requires k < |n.lanes|
  {
    var xs := n.lanes[k];
    && Increasing(xs)
    && forall i :: 0 <= i < |xs| ==>
         xs[i].id < |n.sent| && Lane(same, n.sent[xs[i].id]) == k && xs[i].ready == n.sent[xs[i].id].at + DELAY
  }

  predicate Waits(n: Net, k: nat, id: nat)
    requires k < |n.lanes|
  {
    exists i :: 0 <= i < |n.lanes[k]| && n.lanes[k][i].id == id
  }

  predicate Came(n: Net, id: nat) { exists i :: 0 <= i < |n.arrived| && n.arrived[i].id == id }

  predicate ArrivedOk(n: Net) {
    && (forall i :: 0 <= i < |n.arrived| ==>
          n.arrived[i].id < |n.sent| && n.sent[n.arrived[i].id].at + DELAY <= n.arrived[i].at <= n.cycle)
    && (forall i, j :: 0 <= i < j < |n.arrived| ==> n.arrived[i].id != n.arrived[j].id)
  }

  /** In the lane of its trip or arrived, and not both. */
  predicate OneOf(same: bool, n: Net, id: nat)
    requires |n.lanes| == 4 && id < |n.sent|
  {
    Waits(n, Lane(same, n.sent[id]), id) <==> !Came(n, id)
  }

  ghost predicate Ok(same: bool, n: Net) {
    && |n.lanes| == 4 && (forall k :: 0 <= k < 4 ==> LaneOk(same, n, k)) && ArrivedOk(n)
    && (forall i, j :: 0 <= i <= j < |n.sent| ==> n.sent[i].at <= n.sent[j].at <= n.cycle)
    && (forall id :: 0 <= id < |n.sent| ==> OneOf(same, n, id))
  }

  lemma {:induction false} ReadySplits(xs: seq<Packet>, now: nat)
    requires forall i, j :: 0 <= i < j < |xs| ==> xs[i].ready <= xs[j].ready
    ensures forall i :: 0 <= i < |xs| ==> (i < Ready(xs, now) <==> xs[i].ready <= now)
  {
    if xs != [] && xs[0].ready <= now {
      ReadySplits(xs[1..], now);
      forall i | 0 <= i < |xs|
        ensures i < Ready(xs, now) <==> xs[i].ready <= now
      {
        if i > 0 { assert xs[i] == xs[1..][i - 1]; }
      }
    }
  }

  /** Stopping early misses nothing: the packets tried are exactly the ready ones of the lane. */
  lemma TriesAllReady(same: bool, n: Net, k: nat)
    requires Ok(same, n) && k < 4
    ensures var xs := n.lanes[k]; forall i :: 0 <= i < |xs| ==> (i < Ready(xs, n.cycle) <==> xs[i].ready <= n.cycle)
  {
    assert LaneOk(same, n, k);
    ReadySplits(n.lanes[k], n.cycle);
  }

  /** Answers split a list by `takes` and keep its order. */
  lemma {:induction false} AnsweredIn(xs: seq<Packet>, takes: set<nat>, want: bool)
    requires Increasing(xs)
    ensures var ys := Answered(xs, takes, want);
            (forall p :: p in ys <==> p in xs && (p.id in takes) == want) && Increasing(ys)
  {
    if xs != [] {
      var n := |xs| - 1;
      AnsweredIn(xs[..n], takes, want);
      assert forall p :: p in xs <==> p in xs[..n] || p == xs[n];
      assert forall p :: p in xs[..n] ==> p.id < xs[n].id;
    }
  }

  predicate Increasing(xs: seq<Packet>) { forall i, j :: 0 <= i < j < |xs| ==> xs[i].id < xs[j].id }

  lemma SplitIn(xs: seq<Packet>, r: nat, now: nat)
    requires r <= |xs| && forall i :: 0 <= i < |xs| ==> (i < r <==> xs[i].ready <= now)
    ensures forall p :: p in xs[..r] <==> p in xs && p.ready <= now
    ensures forall p :: p in xs[r..] <==> p in xs && p.ready > now
  {
    forall p | p in xs
      ensures p in xs[..r] <==> p.ready <= now
      ensures p in xs[r..] <==> p.ready > now
    {
      var i :| 0 <= i < |xs| && xs[i] == p;
      assert i < r ==> xs[..r][i] == p;
      assert i >= r ==> xs[r..][i - r] == p;
    }
  }

  lemma JoinIncreasing(xs: seq<Packet>, r: nat, a: seq<Packet>)
    requires Increasing(xs) && r <= |xs| && Increasing(a) && forall p :: p in a ==> p in xs[..r]
    ensures Increasing(a + xs[r..])
  {
    var ys := a + xs[r..];
    forall i, j | 0 <= i < j < |ys|
      ensures ys[i].id < ys[j].id
    {
      if i < |a| <= j {
        assert ys[i] in xs[..r];
        var h :| 0 <= h < r && xs[h] == ys[i];
        assert ys[j] == xs[r + (j - |a|)];
      }
    }
  }

  predicate Stays(p: Packet, now: nat, takes: set<nat>) { p.ready > now || p.id !in takes }

  /** Draining leaves in a lane, in order, the packets that are not ready or not taken, and hands over
      the others: a packet refused does not hold up those behind it. */
  lemma DrainLane(same: bool, n: Net, k: nat, takes: set<nat>)
    requires Ok(same, n) && k < 4
    ensures var ys := Drain(n, k, takes).lanes[k];
            Increasing(ys) && forall p :: p in ys <==> p in n.lanes[k] && Stays(p, n.cycle, takes)
    ensures var zs := Answered(n.lanes[k][..Ready(n.lanes[k], n.cycle)], takes, true);
            Increasing(zs) && forall p :: p in zs <==> p in n.lanes[k] && !Stays(p, n.cycle, takes)
  {
    TriesAllReady(same, n, k);
    assert LaneOk(same, n, k);
    var xs, r := n.lanes[k], Ready(n.lanes[k], n.cycle);
    AnsweredIn(xs[..r], takes, true);
    AnsweredIn(xs[..r], takes, false);
    SplitIn(xs, r, n.cycle);
    JoinIncreasing(xs, r, Answered(xs[..r], takes, false));
    hide Ok;
    hide Answered;
    hide Ready;
  }

  lemma WaitsIn(n: Net, k: nat, id: nat)
    requires k < |n.lanes|
    ensures Waits(n, k, id) <==> exists p :: p in n.lanes[k] && p.id == id
  {
    if p :| p in n.lanes[k] && p.id == id {
      var i :| 0 <= i < |n.lanes[k]| && n.lanes[k][i] == p;
    }
  }

  lemma CameIn(n: Net, zs: seq<Packet>, id: nat)
    ensures Came(n.(arrived := n.arrived + Stamp(zs, n.cycle)), id) <==> Came(n, id) || exists p :: p in zs && p.id == id
  {
    var m := n.(arrived := n.arrived + Stamp(zs, n.cycle));
    if i :| 0 <= i < |m.arrived| && m.arrived[i].id == id {
      if i < |n.arrived| { assert n.arrived[i].id == id; } else { assert zs[i - |n.arrived|].id == id; }
    }
    if i :| 0 <= i < |n.arrived| && n.arrived[i].id == id { assert m.arrived[i].id == id; }
    if p :| p in zs && p.id == id {
      var i :| 0 <= i < |zs| && zs[i] == p;
      assert m.arrived[|n.arrived| + i].id == id;
    }
  }

  /** Packets of a lane have not arrived before. */
  lemma NotBefore(same: bool, n: Net, k: nat, p: Packet)
    requires Ok(same, n) && k < 4 && p in n.lanes[k]
    ensures p.id < |n.sent| && Lane(same, n.sent[p.id]) == k && p.ready == n.sent[p.id].at + DELAY && !Came(n, p.id)
  {
    assert LaneOk(same, n, k);
    var i :| 0 <= i < |n.lanes[k]| && n.lanes[k][i] == p;
    assert Waits(n, k, p.id);
    assert OneOf(same, n, p.id);
  }

  lemma ArrivedMore(same: bool, n: Net, k: nat, zs: seq<Packet>)
    requires Ok(same, n) && k < 4 && Increasing(zs) && forall p :: p in zs ==> p in n.lanes[k] && p.ready <= n.cycle
    ensures ArrivedOk(n.(arrived := n.arrived + Stamp(zs, n.cycle)))
  {
    var old_ := |n.arrived|;
    var xs := n.arrived + Stamp(zs, n.cycle);
    forall i | old_ <= i < |xs|
      ensures xs[i].id == zs[i - old_].id < |n.sent| && !Came(n, xs[i].id)
      ensures n.sent[xs[i].id].at + DELAY <= xs[i].at == n.cycle
    {
      NotBefore(same, n, k, zs[i - old_]);
    }
    forall i, j | 0 <= i < j < |xs|
      ensures xs[i].id != xs[j].id
    {
      if j >= old_ && i < old_ { assert n.arrived[i].id == xs[i].id; }
    }
  }

  lemma DrainKeeps(same: bool, n: Net, k: nat, takes: set<nat>)
    requires Ok(same, n) && k < 4
    ensures Ok(same, Drain(n, k, takes))
  {
    DrainLane(same, n, k, takes);
    var m := Drain(n, k, takes);
    var zs := Answered(n.lanes[k][..Ready(n.lanes[k], n.cycle)], takes, true);
    ArrivedMore(same, n, k, zs);
    DrainLanes(same, n, k, takes);
    forall id | 0 <= id < |n.sent|
      ensures OneOf(same, m, id)
    {
      DrainOne(same, n, k, takes, id);
    }
  }

  lemma DrainLanes(same: bool, n: Net, k: nat, takes: set<nat>)
    requires Ok(same, n) && k < 4
    ensures forall j :: 0 <= j < 4 ==> LaneOk(same, Drain(n, k, takes), j)
  {
    DrainLane(same, n, k, takes);
    var m := Drain(n, k, takes);
    forall i | 0 <= i < |m.lanes[k]|
      ensures var p := m.lanes[k][i];
              p.id < |n.sent| && Lane(same, n.sent[p.id]) == k && p.ready == n.sent[p.id].at + DELAY
    {
      NotBefore(same, n, k, m.lanes[k][i]);
    }
    assert LaneOk(same, m, k);
    hide Answered;
    hide Ready;
    forall j | 0 <= j < 4 && j != k
      ensures LaneOk(same, m, j)
    {
      assert LaneOk(same, n, j) && m.lanes[j] == n.lanes[j];
    }
  }

  lemma DrainOne(same: bool, n: Net, k: nat, takes: set<nat>, id: nat)
    requires Ok(same, n) && k < 4 && id < |n.sent|
    ensures OneOf(same, Drain(n, k, takes), id)
  {
    DrainLane(same, n, k, takes);
    var m, j := Drain(n, k, takes), Lane(same, n.sent[id]);
    var zs := Answered(n.lanes[k][..Ready(n.lanes[k], n.cycle)], takes, true);
    assert OneOf(same, n, id);
    CameIn(n, zs, id);
    WaitsIn(n, j, id);
    WaitsIn(m, j, id);
    hide Answered;
    hide Ready;
    if p :| p in zs && p.id == id {
      NotBefore(same, n, k, p);
      assert j == k && !Stays(p, n.cycle, takes);
      forall q | q in m.lanes[k]
        ensures q.id != id
      {
        NotBefore(same, n, k, q);
        assert q.id == id ==> q == p;
      }
    } else if j == k {
      forall q | q in n.lanes[k] && q.id == id
        ensures q in m.lanes[k]
      {
        assert q !in zs;
      }
    }
  }

  lemma InsertKeeps(same: bool, n: Net, src: nat, dst: nat, ptx: bool)
    requires Ok(same, n)
    ensures Ok(same, Insert(same, n, src, dst, ptx))
  {
    var m := Insert(same, n, src, dst, ptx);
    var k := Lane(same, Trip(src, dst, ptx, n.cycle));
    assert m.lanes[k][|n.lanes[k]|].id == |n.sent|;
    forall j | 0 <= j < 4
      ensures LaneOk(same, m, j)
    {
      assert LaneOk(same, n, j);
    }
    forall id | 0 <= id < |m.sent|
      ensures OneOf(same, m, id)
    {
      if id < |n.sent| {
        assert OneOf(same, n, id);
        InsertWaits(same, n, src, dst, ptx, id);
      }
    }
  }

  lemma InsertWaits(same: bool, n: Net, src: nat, dst: nat, ptx: bool, id: nat)
    requires |n.lanes| == 4 && id < |n.sent|
    ensures forall j :: 0 <= j < 4 ==> (Waits(Insert(same, n, src, dst, ptx), j, id) <==> Waits(n, j, id))
  {
    var m := Insert(same, n, src, dst, ptx);
    forall j | 0 <= j < 4
      ensures Waits(m, j, id) <==> Waits(n, j, id)
    {
      if i :| 0 <= i < |n.lanes[j]| && n.lanes[j][i].id == id { assert m.lanes[j][i].id == id; }
      if i :| 0 <= i < |m.lanes[j]| && m.lanes[j][i].id == id { assert i < |n.lanes[j]| && n.lanes[j][i].id == id; }
    }
  }

  lemma CycleKeeps(same: bool, n: Net, takes: set<nat>)
    requires Ok(same, n)
    ensures Ok(same, Cycle(same, n, takes))
  {
    hide Ok;
    InsideFour(same, n);
    DrainKeeps(same, n, 0, takes);
    var a := Drain(n, 0, takes);
    if !same { DrainKeeps(same, a, 1, takes); }
    var b := if same then a else Drain(a, 1, takes);
    InsideFour(same, b);
    DrainKeeps(same, b, 2, takes);
    var c := Drain(b, 2, takes);
    if !same { DrainKeeps(same, c, 3, takes); }
  }

  lemma InsideFour(same: bool, n: Net)
    requires Ok(same, n)
    ensures |n.lanes| == 4
  {
  }

  lemma EmptyOk(same: bool)
    ensures Ok(same, Empty())
  {
  }

  lemma {:induction false} RunOk(same: bool, states: seq<Net>, ops: seq<Op>, i: nat)
    requires IsRun(same, states, ops) && i < |states|
    ensures Ok(same, states[i])
  {
    hide Ok;
    if i == 0 {
      EmptyOk(same);
    } else {
      RunOk(same, states, ops, i - 1);
      match ops[i - 1]
      case Send(src, dst, ptx) => InsertKeeps(same, states[i - 1], src, dst, ptx);
      case Run(takes) => CycleKeeps(same, states[i - 1], takes);
      case Tick => TickKeeps(same, states[i - 1]);
    }
  }

  lemma TickKeeps(same: bool, n: Net)
    requires Ok(same, n)
    ensures Ok(same, n.(cycle := n.cycle + 1))
  {
    var m := n.(cycle := n.cycle + 1);
    forall k | 0 <= k < 4
      ensures LaneOk(same, m, k)
    {
      assert LaneOk(same, n, k);
    }
    forall id | 0 <= id < |n.sent|
      ensures OneOf(same, m, id)
    {
      assert OneOf(same, n, id);
      forall k | 0 <= k < 4
        ensures Waits(m, k, id) <==> Waits(n, k, id)
      {
        WaitsIn(n, k, id);
        WaitsIn(m, k, id);
      }
    }
  }

  // ---------- what the network promises ----------

  /** In every state of every run each packet inserted waits in the lane of its trip or has arrived, and
      not both; it arrived at most once, and no earlier than ten cycles after its insertion. */
  lemma DeliveredOnce(same: bool, states: seq<Net>, ops: seq<Op>, i: nat, id: nat)
    requires IsRun(same, states, ops) && i < |states| && id < |states[i].sent|
    ensures |states[i].lanes| == 4
    ensures var n := states[i];
            && (Waits(n, Lane(same, n.sent[id]), id) <==> !Came(n, id))
            && (forall k :: 0 <= k < 4 && k != Lane(same, n.sent[id]) ==> !Waits(n, k, id))
            && (forall j :: 0 <= j < |n.arrived| && n.arrived[j].id == id ==> n.sent[id].at + DELAY <= n.arrived[j].at)
            && (forall j, k :: 0 <= j < k < |n.arrived| ==> !(n.arrived[j].id == n.arrived[k].id == id))
  {
    RunOk(same, states, ops, i);
    var n := states[i];
    assert OneOf(same, n, id);
    forall k | 0 <= k < 4 && k != Lane(same, n.sent[id])
      ensures !Waits(n, k, id)
    {
      assert LaneOk(same, n, k);
    }
  }

  /** One cycle tries every packet that is ready, and after it exactly those wait on that were not ready
      or were refused, in the order they had. */
  lemma CycleTriesAll(same: bool, states: seq<Net>, ops: seq<Op>, i: nat, k: nat)
    requires IsRun(same, states, ops) && i < |ops| && ops[i].Run? && k < 4
    ensures |states[i].lanes| == 4 && |states[i + 1].lanes| == 4
    ensures var n, m, takes := states[i], states[i + 1], ops[i].takes;
            Increasing(m.lanes[k]) && forall p :: p in m.lanes[k] <==> p in n.lanes[k] && Stays(p, n.cycle, takes)
  {
    RunOk(same, states, ops, i);
    RunOk(same, states, ops, i + 1);
    var n, takes := states[i], ops[i].takes;
    assert LaneOk(same, states[i + 1], k);
    var a := Drain(n, 0, takes);
    var b := if same then a else Drain(a, 1, takes);
    var c := Drain(b, 2, takes);
    DrainKeeps(same, n, 0, takes);
    if !same { DrainKeeps(same, a, 1, takes); }
    DrainKeeps(same, b, 2, takes);
    DrainLane(same, n, 0, takes);
    if !same { DrainLane(same, a, 1, takes); }
    DrainLane(same, b, 2, takes);
    if !same { DrainLane(same, c, 3, takes); }
    assert same && (k == 1 || k == 3) ==> LaneOk(same, n, k);
  }

  // ---------- the lists in place ----------

  /** Removing the packets taken from the front part of a lane, one by one. */
  lemma {:induction false} MinusTaken(xs: seq<Packet>, r: nat, takes: set<nat>, gone: set<nat>)
    requires r <= |xs| && forall i :: 0 <= i < |xs| ==> (xs[i].id in gone <==> i < r && xs[i].id in takes)
    ensures Minus(xs, IdOf, gone) == Answered(xs[..r], takes, false) + xs[r..]
  {
    if xs != [] {
      var n := |xs| - 1;
      if r == |xs| {
        MinusTaken(xs[..n], n, takes, gone);
        assert xs[..r] == xs && xs[..n][..n] == xs[..n] && xs[r..] == [];
      } else {
        MinusTaken(xs[..n], r, takes, gone);
        assert xs[..n][..r] == xs[..r] && xs[r..] == xs[..n][r..] + [xs[n]];
      }
    }
  }

  lemma {:induction false} AnsweredKeys(xs: seq<Packet>, takes: set<nat>)
    ensures forall v :: v in Keys(Answered(xs, takes, true), IdOf) <==> v in Keys(xs, IdOf) && v in takes
  {
    if xs != [] {
      var n := |xs| - 1;
      AnsweredKeys(xs[..n], takes);
      KeysSnoc(xs[..n], xs[n]);
      var ys := Answered(xs[..n], takes, true);
      KeysSnoc(ys, xs[n]);
      assert xs[..n] + [xs[n]] == xs && ys + [] == ys;
      assert Answered(xs, takes, true) == if xs[n].id in takes then ys + [xs[n]] else ys;
    }
  }

  lemma KeysSnoc(xs: seq<Packet>, x: Packet)
    ensures Keys(xs + [x], IdOf) == Keys(xs, IdOf) + {x.id}
  {
    KeysNext(xs + [x], IdOf, |xs|);
    assert (xs + [x])[..|xs|] == xs && (xs + [x])[..|xs| + 1] == xs + [x];
  }

  lemma LaneLeft(xs: seq<Packet>, r: nat, takes: set<nat>)
    requires Increasing(xs) && r <= |xs|
    ensures Minus(xs, IdOf, Keys(Answered(xs[..r], takes, true), IdOf)) == Answered(xs[..r], takes, false) + xs[r..]
  {
    var gone := Keys(Answered(xs[..r], takes, true), IdOf);
    AnsweredKeys(xs[..r], takes);
    forall i | 0 <= i < |xs|
      ensures xs[i].id in gone <==> i < r && xs[i].id in takes
    {
      if i < r { assert xs[..r][i] == xs[i]; }
      forall j | 0 <= j < r && IdOf(xs[..r][j]) == xs[i].id
        ensures i == j
      {
      }
    }
    MinusTaken(xs, r, takes, gone);
  }

  class Network {
    const same: bool
    var lanes: seq<seq<Packet>>
    var cycle: nat
    var next: nat
    ghost var sent: seq<Trip>
    ghost var arrived: seq<Arrival>

    ghost function State(): (n: Net)
      reads this
    {
      Net(lanes, cycle, sent, arrived)
    }

    ghost predicate Valid()
      reads this
    {
      Ok(same, State()) && next == |sent|
    }

    constructor (sameQueue: bool)
      ensures Valid() && same == sameQueue && State() == Empty()
    {
      hide Ok;
      same := sameQueue;
      lanes, cycle, next := [[], [], [], []], 0, 0;
      sent, arrived := [], [];
      new;
      EmptyOk(same);
    }

    /** With one queue for both the GPU pointers name the CPU lists. The network is never full. */
    method InsertPacket(src: nat, dst: nat, ptx: bool) returns (ok: bool)
      requires Valid()
      modifies this
      ensures Valid() && ok && State() == Insert(same, old(State()), src, dst, ptx)
    {
      InsertKeeps(same, State(), src, dst, ptx);
      InsideFour(same, State());
      hide Ok;
      var p := Packet(next, cycle + DELAY);
      if src > dst {
        if ptx || same { Append(0, p); } else { Append(1, p); }
      } else {
        if ptx || same { Append(2, p); } else { Append(3, p); }
      }
      next := next + 1;
      sent := sent + [Trip(src, dst, ptx, cycle)];
      ok := true;
    }

    /** The two loops over one list: ready packets are collected, then offered and removed if taken. */
    method DrainList(xs: seq<Packet>, takes: set<nat>) returns (ys: seq<Packet>, came: seq<Packet>)
      requires Increasing(xs)
      ensures var r := Ready(xs, cycle);
              came == Answered(xs[..r], takes, true) && ys == Answered(xs[..r], takes, false) + xs[r..]
    {
      var k := 0;
      while k < |xs| && xs[k].ready <= cycle
        invariant k <= |xs| && Ready(xs, cycle) == k + Ready(xs[k..], cycle)
      {
        assert xs[k..][1..] == xs[k + 1..];
        k := k + 1;
      }
      LaneLeft(xs, k, takes);
      ys, came := Offer(xs, xs[..k], takes);
    }

    method Offer(xs: seq<Packet>, done: seq<Packet>, takes: set<nat>) returns (ys: seq<Packet>, came: seq<Packet>)
      ensures came == Answered(done, takes, true) && ys == Minus(xs, IdOf, Keys(came, IdOf))
    {
      hide Minus;
      hide Without;
      ys, came := xs, [];
      MinusNone(xs, IdOf);
      assert Keys(came, IdOf) == {};
      var i := 0;
      while i < |done|
        invariant i <= |done| && came == Answered(done[..i], takes, true) && ys == Minus(xs, IdOf, Keys(came, IdOf))
      {
        assert done[..i + 1][..i] == done[..i];
        if done[i].id in takes {
          MinusWithout(xs, IdOf, Keys(came, IdOf), done[i].id);
          KeysSnoc(came, done[i]);
          ys := Without(ys, IdOf, done[i].id);
          came := came + [done[i]];
        }
        i := i + 1;
      }
      assert done[..i] == done;
    }

    method Append(k: nat, p: Packet)
      requires k < |lanes|
      modifies this`lanes
      ensures lanes == old(lanes)[k := old(lanes[k]) + [p]]
    {
      lanes := lanes[k := lanes[k] + [p]];
    }

    method DrainAt(k: nat, takes: set<nat>)
      requires Valid() && k < 4
      modifies this`lanes, this`arrived
      ensures Valid() && State() == Drain(old(State()), k, takes)
    {
      DrainKeeps(same, State(), k, takes);
      assert LaneOk(same, State(), k);
      hide Ok;
      var ys, came := DrainList(lanes[k], takes);
      lanes := lanes[k := ys];
      arrived := arrived + Stamp(came, cycle);
    }

    method RunACycle(takes: set<nat>)
      requires Valid()
      modifies this`lanes, this`arrived
      ensures Valid() && State() == Cycle(same, old(State()), takes)
    {
      InsideFour(same, State());
      DrainAt(0, takes);
      if !same { DrainAt(1, takes); }
      InsideFour(same, State());
      DrainAt(2, takes);
      if !same { DrainAt(3, takes); }
    }
  }
}
