/** The invariant over whole runs, and what it says about them. */
module MemRun {
  import opened MemLists
  import opened MemModel
  import opened MemInvariant
  import opened MemSteps
  import opened MemRelease
  import opened MemFill
  import opened MemVisit
  import opened MemRequest
  import opened Options

  // ---------- power-up ----------

  /** Only free entries. */
  ghost predicate Idle(cfg: Config, s: Mem, k: nat) {
    && s.live == map[] && s.queues == map[] && s.next == 0 && s.effects == [] && s.calls == [] && s.freed == []
    && (forall id :: id in s.reqs ==> id < s.heap && s.reqs[id] == DEAD.(core := s.reqs[id].core) && s.reqs[id].core < k)
    && (forall c: nat, id :: id in Free(s, c) ==> id in s.reqs && s.reqs[id].core == c)
    && (forall c: nat :: Distinct(Free(s, c)))
  }

  lemma {:induction false} AddKeepsIdle(cfg: Config, s: Mem, c: nat, n: nat)
    requires Idle(cfg, s, c) && Free(s, c) == []
    ensures var t := AddEntries(s, c, n);
            && Idle(cfg, t, c + 1) && |Free(t, c)| == n && forall d: nat :: d != c ==> Free(t, d) == Free(s, d)
  {
    if n > 0 {
      AddKeepsIdle(cfg, s, c, n - 1);
      var u, t := AddEntries(s, c, n - 1), AddEntries(s, c, n);
      assert Distinct(Free(u, c)) && u.heap !in u.reqs;
      assert u.heap in Free(u, c) ==> u.heap in u.reqs;
      AppendDistinct(Free(u, c), u.heap);
      hide Distinct;
      assert Free(t, c) == Free(u, c) + [u.heap];
      forall d: nat
        ensures Distinct(Free(t, d)) && (d != c ==> Free(t, d) == Free(u, d))
      {
        assert Distinct(Free(u, d));
      }
      forall d: nat, x | x in Free(t, d)
        ensures x in t.reqs && t.reqs[x].core == d
      {
        if x != u.heap { assert x in Free(u, d); }
      }
    }
  }

  lemma {:induction false} PooledIdle(cfg: Config, k: nat)
    ensures Idle(cfg, Pooled(cfg, k), k)
    ensures forall c: nat :: |Free(Pooled(cfg, k), c)| == if c < k then cfg.mshr else 0
  {
    if k > 0 {
      PooledIdle(cfg, k - 1);
      AddKeepsIdle(cfg, Pooled(cfg, k - 1), k - 1, cfg.mshr);
    }
  }

  lemma StartInv(cfg: Config)
    ensures Inv(cfg, Start(cfg), Noc, [], [])
  {
    PooledIdle(cfg, cfg.cores);
    var s := Start(cfg);
    hide Pooled;
    assert Pools(cfg, s) by {
      forall c: nat
        ensures CoreOk(cfg, s, c)
      {
        assert Distinct(Free(s, c));
      }
    }
  }

  // ---------- the network and the controllers ----------

  lemma PopMoved(cfg: Config, s: Mem, p: Place, id: Id)
    requires Inv(cfg, s, p, [id], []) && !At(s, id).done
    ensures Inv(cfg, Pop(s, p, id), Noc, [], [])
  {
    LeaveMovedKeeps(cfg, s, p, [id]);
    assert [id][1..] == [];
    HoleMoves(cfg, Pop(s, p, id), p, Noc);
  }

  lemma HandledNotDone(cfg: Config, s: Mem, t: Mem, p: Place, id: Id, ok: bool)
    requires Visited(cfg, s, (t, ok), p, [], id) && At(t, id).done == At(s, id).done == false
    ensures ok ==> Inv(cfg, Pop(t, p, id), Noc, [], [])
    ensures !ok ==> Inv(cfg, t, p, [], [])
  {
    if ok {
      assert [] + [id] == [id];
      PopMoved(cfg, t, p, id);
    }
  }

  lemma ArriveKeeps(cfg: Config, s: Mem, id: Id)
    requires Inv(cfg, s, Noc, [], []) && id in Q(s, Noc)
    ensures var t := PutQ(Put(s, id, At(s, id).(stage := InDram, queue := None)), Dram, Q(s, Dram) + [id]);
            Visited(cfg, s, (t, true), Noc, [], id)
  {
    var t := PutQ(Put(s, id, At(s, id).(stage := InDram, queue := None)), Dram, Q(s, Dram) + [id]);
    if Distinct(Q(s, Dram)) && id !in Q(s, Dram) { AppendDistinct(Q(s, Dram), id); }
    assert Joined(s, t, Dram, id);
    JoinKeeps(cfg, s, t, Noc, [], Dram, id);
  }

  lemma DeliverFillKeeps(cfg: Config, s: Mem, u: Unit, id: Id)
    requires Inv(cfg, s, Noc, [], []) && id in Q(s, Noc) && !u.L1?
    ensures var (t, ok) := InsertFill(cfg, s, u, id); Inv(cfg, if ok then Pop(t, Noc, id) else t, Noc, [], [])
  {
    assert Sits(s, Noc, id);
    InsertFillKeeps(cfg, s, u, Noc, [], id);
    var (t, ok) := InsertFill(cfg, s, u, id);
    hide Inv;
    HandledNotDone(cfg, s, t, Noc, id, ok);
  }

  lemma DeliverInKeeps(cfg: Config, s: Mem, u: Unit, id: Id)
    requires Inv(cfg, s, Noc, [], []) && id in Q(s, Noc) && u.L3?
    ensures var (t, ok) := InsertIn(cfg, s, u, id); Inv(cfg, if ok then Pop(t, Noc, id) else t, Noc, [], [])
  {
    assert Sits(s, Noc, id);
    InsertInKeeps(cfg, s, u, Noc, [], id);
    var (t, ok) := InsertIn(cfg, s, u, id);
    hide Inv;
    HandledNotDone(cfg, s, t, Noc, id, ok);
  }

  lemma DeliverMcKeeps(cfg: Config, env: Env, s: Mem, id: Id)
    requires Inv(cfg, s, Noc, [], []) && id in Q(s, Noc) && At(s, id).dst == ToMc
    ensures Inv(cfg, Deliver(cfg, env, s, id), Noc, [], [])
  {
    assert Sits(s, Noc, id);
    if env(id).accept {
      ArriveKeeps(cfg, s, id);
      var t := PutQ(Put(s, id, At(s, id).(stage := InDram, queue := None)), Dram, Q(s, Dram) + [id]);
      hide Inv;
      HandledNotDone(cfg, s, t, Noc, id, true);
    } else if At(s, id).kind == DPrefetch {
      RefusedKeeps(cfg, env, s, id);
    }
  }

  lemma DeliverKeeps(cfg: Config, env: Env, s: Mem, id: Id)
    requires Inv(cfg, s, Noc, [], []) && id in Q(s, Noc)
    ensures Inv(cfg, Deliver(cfg, env, s, id), Noc, [], [])
  {
    assert Sits(s, Noc, id);
    hide Inv;
    hide InsertFill;
    hide InsertIn;
    match At(s, id).dst
    case ToFill(u) => DeliverFillKeeps(cfg, s, u, id);
    case ToIn(u) => DeliverInKeeps(cfg, s, u, id);
    case ToMc => DeliverMcKeeps(cfg, env, s, id);
  }

  /** A prefetch the controller refuses is freed while still in the network. */
  lemma RefusedKeeps(cfg: Config, env: Env, s: Mem, id: Id)
    requires Inv(cfg, s, Noc, [], []) && id in Q(s, Noc) && At(s, id).kind == DPrefetch
    ensures Inv(cfg, Pop(FreeReq(cfg, env, s, id), Noc, id), Noc, [], [])
  {
    assert Sits(s, Noc, id);
    TakeFreeKeeps(cfg, env, s, Noc, id);
    FreeIsRelease(cfg, env, s, id);
    assert Pop(Release(s, id), Noc, id) == Release(Pop(s, Noc, id), id);
  }

  lemma ReplyKeeps(cfg: Config, s: Mem, id: Id)
    requires Inv(cfg, s, Noc, [], []) && id in Q(s, Dram)
    ensures Inv(cfg, Reply(s, id), Noc, [], [])
  {
    assert Sits(s, Dram, id);
    HoleMoves(cfg, s, Noc, Dram);
    var d := ToFill(L3(At(s, id).l3));
    DepartKeeps(cfg, s, Dram, [], id, d);
    hide Inv;
    HandledNotDone(cfg, s, Depart(s, id, d), Dram, id, true);
  }

  lemma McDropKeeps(cfg: Config, env: Env, s: Mem, id: Id)
    requires Inv(cfg, s, Noc, [], []) && OpOk(cfg, s, McDrop(id))
    ensures Inv(cfg, Drop(cfg, env, s, id), Noc, [], [])
  {
    assert Sits(s, Dram, id);
    TakeFreeKeeps(cfg, env, s, Dram, id);
  }

  // ---------- runs ----------

  lemma ExecKeeps(cfg: Config, s: Mem, step: Step)
    requires Wired(cfg) && cfg.mshr <= 1024 && Inv(cfg, s, Noc, [], []) && OpOk(cfg, s, step.op)
    ensures Inv(cfg, Exec(cfg, s, step), Noc, [], [])
  {
    hide Inv;
    match step.op
    case Request(d, stopped) => NewReqKeeps(cfg, step.env, s, d, stopped);
    case Run(l, u) => ProcessKeeps(cfg, step.env, s, l, u);
    case Packet(id) => DeliverKeeps(cfg, step.env, s, id);
    case McReply(id) => ReplyKeeps(cfg, s, id);
    case McDrop(id) => McDropKeeps(cfg, step.env, s, id);
  }

  lemma {:induction false} RunInv(cfg: Config, states: seq<Mem>, steps: seq<Step>, i: nat)
    requires Wired(cfg) && cfg.mshr <= 1024 && IsRun(cfg, states, steps) && i < |states|
    ensures Inv(cfg, states[i], Noc, [], [])
  {
    hide Inv;
    if i == 0 {
      StartInv(cfg);
    } else {
      RunInv(cfg, states, steps, i - 1);
      ExecKeeps(cfg, states[i - 1], steps[i - 1]);
    }
  }

  /** The merge forest has depth one in every state of every run: a merged request's leader covers
      its range, comes before it in the miss buffers of its core, is itself unmerged, and is neither
      a prefetch nor a write-back. */
  lemma MergeForest(cfg: Config, states: seq<Mem>, steps: seq<Step>, i: nat, id: Id)
    requires Wired(cfg) && cfg.mshr <= 1024 && IsRun(cfg, states, steps) && i < |states|
    requires Alive(states[i], id) && At(states[i], id).leader.Some?
    ensures var s := states[i]; var r := At(s, id); var l := At(s, r.leader.value);
            && Alive(s, r.leader.value) && l.core == r.core && l.leader.None? && l.kind != DPrefetch && l.kind != WriteBack
            && l.addr <= r.addr && r.addr + r.size <= l.addr + l.size && id in l.merge && r.merge == []
            && exists j, k :: 0 <= j < k < |Live(s, r.core)| && Live(s, r.core)[j] == r.leader.value && Live(s, r.core)[k] == id
  {
    RunInv(cfg, states, steps, i);
    LeaderPrecedes(cfg, states[i], id);
    assert TreeOk(states[i], id);
  }

  /** So the search never returns a merged request. */
  lemma SearchNeverMerged(cfg: Config, states: seq<Mem>, steps: seq<Step>, i: nat, c: nat, addr: nat, size: nat)
    requires Wired(cfg) && cfg.mshr <= 1024 && IsRun(cfg, states, steps) && i < |states|
    ensures var s := states[i]; var f := Search(s, Live(s, c), addr, size);
            f.Some? ==> Alive(s, f.value) && At(s, f.value).leader.None? && Covers(At(s, f.value), addr, size)
  {
    RunInv(cfg, states, steps, i);
    SearchFindsUnmerged(cfg, states[i], c, addr, size);
  }

  /** With at most 1024 entries a core, every live unmerged request is in exactly one queue, the
      network or a memory controller, once, after every step; merged and free ones are in none. */
  lemma ExactlyOnePlace(cfg: Config, states: seq<Mem>, steps: seq<Step>, i: nat, id: Id)
    requires Wired(cfg) && cfg.mshr <= 1024 && IsRun(cfg, states, steps) && i < |states|
    ensures var s := states[i];
            if Alive(s, id) && At(s, id).leader.None?
            then exists p :: Count(Q(s, p), id) == 1 && forall q :: q != p ==> Count(Q(s, q), id) == 0
            else forall q :: Count(Q(s, q), id) == 0
  {
    var s := states[i];
    RunInv(cfg, states, steps, i);
    forall q
      ensures Count(Q(s, q), id) <= 1 && (id in Q(s, q) <==> Count(Q(s, q), id) > 0)
      ensures id in Q(s, q) ==> Sits(s, q, id)
    {
      assert Distinct(Q(s, q));
      CountIn(Q(s, q), id);
    }
    if Alive(s, id) && At(s, id).leader.None? {
      assert Travels(s, id);
      var p := Loc(At(s, id)).value;
      assert Count(Q(s, p), id) == 1;
    }
  }

  /** No request is lost or duplicated: every id ever issued is alive or was freed exactly once. */
  lemma NoneLost(cfg: Config, states: seq<Mem>, steps: seq<Step>, i: nat, u: nat)
    requires Wired(cfg) && cfg.mshr <= 1024 && IsRun(cfg, states, steps) && i < |states| && u < states[i].next
    ensures var s := states[i];
            Releases(s.freed, u) == if exists id :: Alive(s, id) && At(s, id).uid == u then 0 else 1
  {
    var s := states[i];
    RunInv(cfg, states, steps, i);
    assert Issued(s, u);
    if id :| Alive(s, id) && At(s, id).uid == u {
      assert LiveLog(s, [], id);
    }
  }

  /** Whatever fails and is retried, a demand with a data-cache callback that has been freed took
      effect exactly once; a prefetch at most once; a live request not at all. */
  lemma ExactlyOnce(cfg: Config, states: seq<Mem>, steps: seq<Step>, i: nat)
    requires Wired(cfg) && cfg.mshr <= 1024 && IsRun(cfg, states, steps) && i < |states|
    ensures forall k :: 0 <= k < |states[i].freed| ==>
              var f := states[i].freed[k];
              && Releases(states[i].freed, f.uid) == 1
              && (f.fill == DFill ==> Effects(states[i].effects, f.uid) <= 1)
              && (f.fill == DFill && f.kind != DPrefetch ==> Effects(states[i].effects, f.uid) == 1)
    ensures forall id :: Alive(states[i], id) && At(states[i], id).fill == DFill ==>
              Effects(states[i].effects, At(states[i], id).uid) == 0
  {
    var s := states[i];
    RunInv(cfg, states, steps, i);
    forall k | 0 <= k < |s.freed|
      ensures FreedLog(s, s.freed[k]) && Releases(s.freed, s.freed[k].uid) == 1
    {
      assert FreedLog(s, s.freed[k]);
      assert Issued(s, s.freed[k].uid);
      ReleasedOnce(s.freed, k);
    }
    forall id | Alive(s, id) && At(s, id).fill == DFill
      ensures Effects(s.effects, At(s, id).uid) == 0
    {
      assert LiveLog(s, [], id);
    }
  }
}
