/**
 How often a request's callback is called, and how often it takes effect: over every run, and a run in
 which an instruction-cache leader takes effect twice.
 */
module MemCalls {
  import opened MemLists
  import opened MemModel
  import opened MemInvariant
  import opened MemRelease
  import opened MemVisit
  import opened MemRun
  import opened Options

  /** The calls of one request's callback, in order. */
  function CallsOf(xs: seq<Call>, u: int): seq<Call> {
    if xs == [] then [] else CallsOf(xs[..|xs|-1], u) + if xs[|xs|-1].uid == u then [xs[|xs|-1]] else []
  }

  lemma {:induction false} CallsOfIn(xs: seq<Call>, u: int)
    ensures forall c :: c in CallsOf(xs, u) ==> c.uid == u && exists i :: 0 <= i < |xs| && xs[i] == c
  {
    if xs != [] {
      var n := |xs| - 1;
      CallsOfIn(xs[..n], u);
      forall c | c in CallsOf(xs[..n], u)
        ensures exists i :: 0 <= i < |xs| && xs[i] == c
      {
        var i :| 0 <= i < n && xs[..n][i] == c;
        assert xs[i] == c;
      }
    }
  }

  lemma {:induction false} CallsCounted(xs: seq<Call>, u: int)
    requires LastOk(xs)
    ensures var cs := CallsOf(xs, u);
            && (forall j :: 0 <= j < |cs| - 1 ==> !cs[j].ok)
            && Oks(xs, u) == (if cs != [] && cs[|cs| - 1].ok then 1 else 0)
            && ((forall j :: 0 <= j < |cs| ==> cs[j].fill == IFill) ==> Taken(xs, u) == |cs|)
            && ((forall j :: 0 <= j < |cs| ==> cs[j].fill != IFill) ==> Taken(xs, u) == Oks(xs, u))
  {
    if xs != [] {
      var n := |xs| - 1;
      CallsCounted(xs[..n], u);
      if xs[n].uid == u {
        var before := CallsOf(xs[..n], u);
        CallsOfIn(xs[..n], u);
        forall j | 0 <= j < |before|
          ensures !before[j].ok
        {
          assert before[j] in before;
          var i :| 0 <= i < n && xs[..n][i] == before[j];
        }
        var cs := before + [xs[n]];
        assert forall j :: 0 <= j < |before| ==> cs[j] == before[j];
      } else {
        assert CallsOf(xs[..n], u) + [] == CallsOf(xs[..n], u);
        assert CallsOf(xs, u) == CallsOf(xs[..n], u);
      }
    }
  }

  /** In every state of every run: an id's effects are its data-cache calls that succeeded and all of its
      instruction-cache calls, and no call follows one that succeeded. */
  lemma CallbackEffects(cfg: Config, states: seq<Mem>, steps: seq<Step>, i: nat, u: int)
    requires Wired(cfg) && cfg.mshr <= 1024 && IsRun(cfg, states, steps) && i < |states|
    ensures var s := states[i]; var cs := CallsOf(s.calls, u);
            && (forall j :: 0 <= j < |cs| - 1 ==> !cs[j].ok)
            && ((forall j :: 0 <= j < |cs| ==> cs[j].fill == IFill) ==> Effects(s.effects, u) == |cs|)
            && ((forall j :: 0 <= j < |cs| ==> cs[j].fill != IFill) ==>
                  Effects(s.effects, u) == if cs != [] && cs[|cs| - 1].ok then 1 else 0)
  {
    RunInv(cfg, states, steps, i);
    CallsCounted(states[i].calls, u);
  }

  /** A freed instruction fetch was called until it succeeded, and took effect once if and only if the first
      call succeeded. */
  lemma FetchEffects(cfg: Config, states: seq<Mem>, steps: seq<Step>, i: nat, k: nat)
    requires Wired(cfg) && cfg.mshr <= 1024 && IsRun(cfg, states, steps) && i < |states| && k < |states[i].freed|
    requires states[i].freed[k].fill == IFill && states[i].freed[k].kind != DPrefetch
    ensures var s, u := states[i], states[i].freed[k].uid; var cs := CallsOf(s.calls, u);
            && cs != [] && cs[|cs| - 1].ok
            && ((forall j :: 0 <= j < |cs| ==> cs[j].fill == IFill) ==>
                  Effects(s.effects, u) == |cs| && (Effects(s.effects, u) == 1 <==> cs[0].ok))
  {
    CallbackEffects(cfg, states, steps, i, states[i].freed[k].uid);
    RunInv(cfg, states, steps, i);
    CallsCounted(states[i].calls, states[i].freed[k].uid);
    assert FreedLog(states[i], states[i].freed[k]);
  }

  // ---------- a leader that takes effect twice ----------

  const UNIT := Cache(true, false, false, 0, 0, false, false)

  /** One core with two entries; the L2 completes requests. */
  const TINY := Config(1, 2, ByPriority, _ => 0, (u: Unit) => UNIT.(done := !u.L3?))

  const ASK := Demand(IFetch, 0, 64, IFill, 0, false, 0)
  const DATA := Demand(DFetch, 0, 64, DFill, 0, false, 0)

  /** The instruction fetch leads, and the data fetch waits for it. */
  const LEADER := Req(0, IFetch, 0, 0, 64, 0, false, 0, IFill, New, Some(InQ(L2(0))), ToMc, [], None, false)
  const FOLLOWER := Req(1, DFetch, 0, 0, 64, 0, false, 0, DFill, Merged, None, ToMc, [], Some(1), false)

  const S0 := Mem(map[0 := DEAD, 1 := DEAD], map[], map[0 := [0, 1]], map[], 0, 2, [], [], [])
  const S1 := S0.(reqs := map[0 := DEAD, 1 := LEADER], live := map[0 := [1]], free := map[0 := [0]],
                  queues := map[InQ(L2(0)) := [1]], next := 1)
  const S2 := S1.(reqs := map[0 := FOLLOWER, 1 := LEADER.(merge := [0])], live := map[0 := [1, 0]], free := map[0 := []], next := 2)
  const S3 := S2.(effects := [0], calls := [Call(1, DFill, false), Call(0, IFill, false)])

  /** Everything is ready and hits; whether the L1 has a write port free varies. */
  function World(port: bool): Env { _ => Choice(true, true, false, port, None, true) }

  predicate Goes(s: Mem, step: Step, t: Mem) { OpOk(TINY, s, step.op) && Exec(TINY, s, step) == t }

  lemma Starts()
    ensures Start(TINY) == S0
  {
    var s := Pooled(TINY, 0);
    var a := AddEntries(s, 0, 1);
    assert AddEntries(s, 0, 0) == s;
    assert [] + [0] == [0];
    assert a == s.(reqs := map[0 := DEAD], free := map[0 := [0]], heap := 1);
    var b := AddEntries(s, 0, 2);
    assert [0] + [1] == [0, 1];
    assert b.reqs == S0.reqs && b.free == S0.free;
    assert Pooled(TINY, 1) == b;
  }

  lemma Asks()
    ensures Goes(S0, Step(Request(ASK, false), World(false)), S1)
  {
    assert Search(S0, [], 0, 64) == None;
    var t := Allocate(TINY, S0, ASK);
    assert [0, 1][..1] == [0];
    assert [] + [1] == [1];
    var r := LEADER.(queue := None);
    assert t == S0.(reqs := S0.reqs[1 := r], free := S0.free[0 := [0]], live := S0.live[0 := [1]], next := 1);
    OneSorted(t);
    assert InsertIn(TINY, t, L2(0), 1).0.reqs == S1.reqs;
    assert InsertIn(TINY, t, L2(0), 1).0.queues == S1.queues;
    assert t.free == S1.free && t.live == S1.live;
    assert InsertIn(TINY, t, L2(0), 1).0 == S1;
  }

  lemma OneSorted(s: Mem)
    ensures Sort(TINY.order, s, [] + [1]) == [1]
  {
    assert [] + [1] == [1] && [1][..0] == [];
    assert Sort(TINY.order, s, [1][..0]) == [];
  }

  lemma Follows()
    ensures Goes(S1, Step(Request(DATA, false), World(false)), S2)
  {
    assert Search(S1, [1], 0, 64) == Some(1) by { assert [1][..0] == []; }
    var t := Allocate(TINY, S1, DATA);
    assert [0][..0] == [] && [1] + [0] == [1, 0];
    var r := FOLLOWER.(leader := None, stage := New);
    assert t == S1.(reqs := S1.reqs[0 := r], free := S1.free[0 := []], live := S1.live[0 := [1, 0]], next := 2);
    var u := Merge(TINY, t, 1, 0);
    assert [] + [0] == [0];
    assert u.reqs == S2.reqs && t.free == S2.free && t.live == S2.live;
    assert u == S2;
  }

  /** One scan of the L2's input queue, in which the leader is tried. */
  lemma ScanOne(env: Env, s: Mem)
    requires Q(s, InQ(L2(0))) == [1]
    ensures var (t, ok) := Visit(TINY, env, s, LoopIn, L2(0), 1);
            Process(TINY, env, s, LoopIn, L2(0)) == LeaveEach(TINY, env, t, LoopIn, L2(0), if ok then [1] else [])
  {
    assert [1][..0] == [];
    assert Scan(TINY, env, s, LoopIn, L2(0), []) == (s, []);
    assert [] + [1] == [1];
  }

  /** A visit to the leader in the L2's input queue is an attempt of its callback. */
  lemma VisitLeader(port: bool, s: Mem)
    requires At(s, 1).kind == IFetch && At(s, 1).fill == IFill
    ensures var (t, ok) := IcacheFill(TINY, World(port), s, 1);
            Visit(TINY, World(port), s, LoopIn, L2(0), 1) == if ok then (MarkDone(t, 1), true) else (t, false)
  {
    hide IcacheFill;
  }

  lemma ServeFails()
    ensures Drain(TINY, World(false), S2, 1) == (Called(S2, 0, false), false)
  {
    var env := World(false);
    assert [0][..0] == [];
    assert ServeEach(TINY, env, S2, []) == (S2, []);
    assert Serve(TINY, env, S2, 0) == (Called(S2, 0, false), false);
    assert ServeEach(TINY, env, S2, [0]) == (Called(S2, 0, false), []);
    assert DropEach(Called(S2, 0, false), 1, []) == Called(S2, 0, false);
  }

  /** The follower's callback finds no port, so the attempt fails, but the leader fills its line. */
  lemma Fails()
    ensures Goes(S2, Step(Run(LoopIn, L2(0)), World(false)), S3)
  {
    var env := World(false);
    ServeFails();
    hide Drain;
    assert [Call(1, DFill, false)] + [Call(0, IFill, false)] == S3.calls;
    assert [] + [Call(1, DFill, false)] == [Call(1, DFill, false)];
    assert [] + [0] == [0];
    assert IcacheFill(TINY, env, S2, 1) == (S3, false);
    VisitLeader(false, S2);
    ScanOne(env, S2);
    hide Process;
    hide Visit;
    hide IcacheFill;
    assert LeaveEach(TINY, env, S3, LoopIn, L2(0), []) == S3;
  }

  lemma ServeSucceeds()
    ensures var (b, all) := Drain(TINY, World(true), S3, 1); all && b.effects == [0, 1] && At(b, 1) == LEADER
  {
    var env := World(true);
    assert [0][..0] == [];
    var a := Called(Effect(S3, 0), 0, true);
    assert ServeEach(TINY, env, S3, []) == (S3, []);
    assert Serve(TINY, env, S3, 0) == (a, true);
    assert [] + [0] == [0];
    assert ServeEach(TINY, env, S3, [0]) == (a, [0]);
    DropFollower(a);
  }

  lemma DropFollower(a: Mem)
    requires a.effects == [0, 1] && At(a, 0) == FOLLOWER && At(a, 1) == LEADER.(merge := [0])
    ensures var b := DropEach(a, 1, [0]); b.effects == [0, 1] && At(b, 1) == LEADER
  {
    assert [0][..0] == [];
    assert DropEach(a, 1, []) == a;
    assert Without([0], 0) == [];
  }

  /** The next attempt succeeds, and the leader fills its line again. */
  lemma Succeeds()
    ensures OpOk(TINY, S3, Run(LoopIn, L2(0)))
    ensures var t := Exec(TINY, S3, Step(Run(LoopIn, L2(0)), World(true)));
            Effects(t.effects, 0) == 2 && Freed(0, IFetch, IFill) in t.freed
  {
    var env := World(true);
    ServeSucceeds();
    var b := Drain(TINY, env, S3, 1).0;
    hide Drain;
    var c := IcacheFill(TINY, env, S3, 1).0;
    assert IcacheFill(TINY, env, S3, 1) == (c, true);
    assert c.effects == [0, 1, 0] && At(c, 1) == LEADER;
    VisitLeader(true, S3);
    hide IcacheFill;
    ScanOne(env, S3);
    LeavesFreed(env, MarkDone(c, 1));
    hide Process;
    hide Visit;
    hide LeaveEach;
    assert [0, 1, 0][..2] == [0, 1] && [0, 1][..1] == [0] && [0][..0] == [];
  }

  lemma LeavesFreed(env: Env, s: Mem)
    requires At(s, 1) == LEADER.(done := true)
    ensures var t := LeaveEach(TINY, env, s, LoopIn, L2(0), [1]);
            t.effects == s.effects && Freed(0, IFetch, IFill) in t.freed
  {
    assert [1][..0] == [];
    assert LeaveEach(TINY, env, s, LoopIn, L2(0), []) == s;
  }

  /** A run in which the leader of an instruction fetch, freed in the end, took effect twice. */
  lemma LeaderFillsTwice() returns (states: seq<Mem>, steps: seq<Step>)
    ensures Wired(TINY) && TINY.mshr <= 1024 && IsRun(TINY, states, steps)
    ensures var t := states[|states| - 1]; Effects(t.effects, 0) == 2 && Freed(0, IFetch, IFill) in t.freed
  {
    hide Exec;
    hide OpOk;
    hide Effects;
    Starts();
    Asks();
    Follows();
    Fails();
    Succeeds();
    var scan := Run(LoopIn, L2(0));
    var last := Step(scan, World(true));
    states := [S0, S1, S2, S3, Exec(TINY, S3, last)];
    steps := [Step(Request(ASK, false), World(false)), Step(Request(DATA, false), World(false)), Step(scan, World(false)), last];
    forall i | 0 <= i < |steps|
      ensures OpOk(TINY, states[i], steps[i].op) && states[i + 1] == Exec(TINY, states[i], steps[i])
    {
      assert i == 0 || i == 1 || i == 2 || i == 3;
    }
  }
}
