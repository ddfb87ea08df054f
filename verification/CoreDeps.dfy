/**
 Dependences across recycled objects: the links recorded at fetch stay right while objects are
 freed and reused, and a uop that reaches `exec` finds every earlier writer retired or done.
 */
module CoreDeps {
  import opened Options
  import opened PQueues
  import opened CoreModel
  import opened CoreInvariant
  import R = Robs

  // ---------- steps that fetch nothing ----------

  /** One object: still the same uop, done if it was done and has dependents, or freed because it retired. */
  predicate EvolvesObj(c: Core, d: Core, o: Obj) {
    && (LiveObj(d, o) ==>
          && LiveObj(c, o)
          && var u, v := c.objs[o], d.objs[o];
             && v.num == u.num && v.thread == u.thread && v.srcs == u.srcs
             && (0 < u.done <= c.now && Dests(c, o) != [] ==> v.done == u.done) && (v.srcsRdy ==> u.srcsRdy))
    && (LiveObj(c, o) && !LiveObj(d, o) ==> Retired(d, c.objs[o].thread.value, c.objs[o].num))
  }

  ghost predicate Evolves(c: Core, d: Core) {
    && d.program == c.program && d.regMap == c.regMap && c.now <= d.now
    && (forall n :: n in c.retired ==> n in d.retired)
    && forall o :: EvolvesObj(c, d, o)
  }

  lemma LinkedEvolves(c: Core, d: Core, t: nat, w: Option<nat>, s: Src)
    requires Evolves(c, d) && Linked(c, t, w, s)
    ensures Linked(d, t, w, s)
  {
    if s.obj.Some? { assert EvolvesObj(c, d, s.obj.value); }
  }

  lemma DoneEvolves(c: Core, d: Core, t: nat, w: Option<nat>)
    requires Evolves(c, d) && WriterDone(c, t, w)
    requires w.Some? ==> w.value < |Program(c, t)| && Program(c, t)[w.value].dests != []
    ensures WriterDone(d, t, w)
  {
    if w.Some? && !Retired(c, t, w.value) {
      var o :| Holds(c, o, t, w.value) && 0 < c.objs[o].done <= c.now;
      assert EvolvesObj(c, d, o);
      assert LiveObj(d, o) ==> Holds(d, o, t, w.value);
    }
  }

  lemma EvolvesMap(c: Core, d: Core)
    requires Evolves(c, d) && MapOk(c)
    ensures MapOk(d)
  {
    forall t: nat, r: Reg
      ensures Linked(d, t, LastWriter(Program(d, t), |Program(d, t)|, r), Lookup(d.regMap, t, r))
    {
      LinkedEvolves(c, d, t, LastWriter(Program(c, t), |Program(c, t)|, r), Lookup(c.regMap, t, r));
    }
  }

  lemma EvolvesSrcs(c: Core, d: Core, o: Obj)
    requires Evolves(c, d) && LiveObj(c, o) && LiveObj(d, o) && SrcsOk(c, o)
    ensures SrcsOk(d, o)
  {
    assert EvolvesObj(c, d, o);
    var u := c.objs[o];
    var t := u.thread.value;
    var prog := Program(c, t);
    forall i | 0 <= i < |prog[u.num].srcs|
      ensures Linked(d, t, LastWriter(prog, u.num, prog[u.num].srcs[i]), u.srcs[i])
    {
      LinkedEvolves(c, d, t, LastWriter(prog, u.num, prog[u.num].srcs[i]), u.srcs[i]);
    }
  }

  lemma EvolvesReady(c: Core, d: Core, o: Obj)
    requires Evolves(c, d) && LiveObj(c, o) && LiveObj(d, o) && SrcsOk(c, o) && SrcsOk(d, o) && ReadyOk(c, o)
    ensures ReadyOk(d, o)
  {
    assert EvolvesObj(c, d, o);
    var u := c.objs[o];
    var t := u.thread.value;
    var prog := Program(c, t);
    if d.objs[o].srcsRdy {
      forall i | 0 <= i < |prog[u.num].srcs|
        ensures WriterDone(d, t, LastWriter(prog, u.num, prog[u.num].srcs[i]))
      {
        DoneEvolves(c, d, t, LastWriter(prog, u.num, prog[u.num].srcs[i]));
      }
    }
  }

  lemma EvolvesDeps(c: Core, d: Core)
    requires Evolves(c, d) && MapOk(c) && DepsOk(c)
    ensures MapOk(d) && DepsOk(d)
  {
    EvolvesMap(c, d);
    forall o | LiveObj(d, o)
      ensures SrcsOk(d, o) && ReadyOk(d, o)
    {
      assert EvolvesObj(c, d, o);
      EvolvesSrcs(c, d, o);
      EvolvesReady(c, d, o);
    }
  }

  /** An update of one live object that keeps its identity, and its done cycle if that is past and
      the uop has dependents. */
  lemma PutEvolves(c: Core, o: Obj, v: Uop)
    requires LiveObj(c, o)
    requires var u := c.objs[o];
             && v.valid && v.num == u.num && v.thread == u.thread && v.srcs == u.srcs
             && (0 < u.done <= c.now && Dests(c, o) != [] ==> v.done == u.done) && (v.srcsRdy ==> u.srcsRdy)
    ensures Evolves(c, Put(c, o, v))
  {
    var d := Put(c, o, v);
    forall x
      ensures EvolvesObj(c, d, x)
    {
    }
  }

  lemma EvolvesTrans(c: Core, d: Core, e: Core)
    requires Evolves(c, d) && Evolves(d, e)
    ensures Evolves(c, e)
  {
    forall o
      ensures EvolvesObj(c, e, o)
    {
      assert EvolvesObj(c, d, o) && EvolvesObj(d, e, o);
    }
  }

  // ---------- the readiness check ----------

  /** A source that is not blocking has its writer done: staleness is told from the object alone. */
  lemma NotBlockingDone(c: Core, t: nat, w: Option<nat>, s: Src)
    requires Linked(c, t, w, s) && !Blocks(c, Some(t), s)
    ensures WriterDone(c, t, w)
  {
    if w.Some? && !Retired(c, t, w.value) {
      assert Holds(c, s.obj.value, t, w.value);
    }
  }

  /** Conversely a source blocks only while the very uop recorded is in flight and not done. */
  lemma BlockingHolds(c: Core, t: nat, s: Src)
    requires Blocks(c, Some(t), s)
    ensures Holds(c, s.obj.value, t, s.num) && !(0 < c.objs[s.obj.value].done <= c.now)
  {
  }

  /** All writers of a live uop's source registers. */
  ghost predicate AllWritersDone(c: Core, o: Obj)
    requires LiveObj(c, o) && SrcsOk(c, o)
  {
    var u := c.objs[o];
    var prog := Program(c, u.thread.value);
    forall i :: 0 <= i < |prog[u.num].srcs| ==>
      WriterDone(c, u.thread.value, LastWriter(prog, u.num, prog[u.num].srcs[i]))
  }

  lemma CheckPasses(c: Core, o: Obj)
    requires LiveObj(c, o) && SrcsOk(c, o) && ReadyOk(c, o) && CheckSrcs(c, o).1
    ensures AllWritersDone(c, o)
  {
    var u := c.objs[o];
    if !u.srcsRdy {
      var t := u.thread.value;
      var prog := Program(c, t);
      assert FirstBlocking(c, u, |u.srcs|).None?;
      forall i | 0 <= i < |prog[u.num].srcs|
        ensures WriterDone(c, t, LastWriter(prog, u.num, prog[u.num].srcs[i]))
      {
        NotBlockingDone(c, t, LastWriter(prog, u.num, prog[u.num].srcs[i]), u.srcs[i]);
      }
    }
  }

  /** The check only touches its own uop, and marks it ready only when it is. */
  lemma CheckKeepsDeps(c: Core, o: Obj)
    requires MapOk(c) && DepsOk(c) && LiveObj(c, o)
    ensures var d := CheckSrcs(c, o).0;
            && MapOk(d) && DepsOk(d)
            && d == c.(objs := d.objs) && d.objs.Keys == c.objs.Keys && (forall x :: x != o ==> At(d, x) == At(c, x))
            && At(d, o) == At(c, o).(srcsRdy := At(d, o).srcsRdy, lastDep := At(d, o).lastDep)
  {
    var (d, ok) := CheckSrcs(c, o);
    var u := c.objs[o];
    if ok && !u.srcsRdy {
      CheckPasses(c, o);
      MarkReadyDeps(c, o);
    } else if !ok {
      var i := FirstBlocking(c, u, |u.srcs|).value;
      PutEvolves(c, o, u.(lastDep := Some(u.srcs[i].obj.value)));
      if d != c { EvolvesDeps(c, d); }
    }
  }

  lemma MarkReadyDeps(c: Core, o: Obj)
    requires MapOk(c) && DepsOk(c) && LiveObj(c, o) && AllWritersDone(c, o)
    ensures var d := Put(c, o, c.objs[o].(srcsRdy := true)); MapOk(d) && DepsOk(d)
  {
    var d := Put(c, o, c.objs[o].(srcsRdy := true));
    forall t, w, s | Linked(c, t, w, s)
      ensures Linked(d, t, w, s)
    {
    }
    forall t, w | WriterDone(c, t, w)
      ensures WriterDone(d, t, w)
    {
      if w.Some? && !Retired(c, t, w.value) {
        var x :| Holds(c, x, t, w.value) && 0 < c.objs[x].done <= c.now;
        assert Holds(d, x, t, w.value);
      }
    }
    forall x | LiveObj(d, x)
      ensures SrcsOk(d, x) && ReadyOk(d, x)
    {
      assert LiveObj(c, x) && SrcsOk(c, x) && ReadyOk(c, x);
    }
  }

  /** A non-bogus uop reaches `exec` only if, for every source register, the last earlier writer in
      its thread's program has retired or is done no later than now. */
  lemma ExecOnlyWhenReady(c: Core, slot: nat, port: bool, out: Outcome)
    requires DepsOk(c) && LiveObj(c, Cell(c, slot)) && !At(c, Cell(c, slot)).bogus
    requires Schedule(c, slot, port, out).1
    ensures AllWritersDone(c, Cell(c, slot))
  {
    CheckPasses(c, Cell(c, slot));
  }

  // ---------- fetch ----------

  lemma {:induction false} UpdateMapLookup(m: map<(nat, Reg), Src>, t: nat, dests: seq<Reg>, s: Src, x: nat, r: Reg)
    ensures Lookup(UpdateMap(m, t, dests, s), x, r) == if x == t && r in dests then s else Lookup(m, x, r)
  {
    if dests != [] {
      var n := |dests| - 1;
      UpdateMapLookup(m, t, dests[..n], s, x, r);
      assert dests == dests[..n] + [dests[n]];
    }
  }

  /** Links survive a fetch into a pooled object. */
  lemma FetchKeeps(c: Core, d: Core, o: Obj, t: nat, w: Option<nat>, s: Src)
    requires !At(c, o).valid && d.retired == c.retired && forall x :: x != o ==> At(d, x) == At(c, x)
    requires forall x :: x in c.objs ==> x in d.objs
    requires Linked(c, t, w, s)
    ensures Linked(d, t, w, s)
  {
    if w.Some? && !Retired(c, t, w.value) {
      assert s.obj.value != o && At(d, s.obj.value) == At(c, s.obj.value);
    }
  }

  lemma FetchDone(c: Core, d: Core, o: Obj, t: nat, w: Option<nat>)
    requires !At(c, o).valid && d.retired == c.retired && d.now == c.now
    requires forall x :: x != o ==> (x in d.objs <==> x in c.objs) && At(d, x) == At(c, x)
    requires WriterDone(c, t, w)
    ensures WriterDone(d, t, w)
  {
    if w.Some? && !Retired(c, t, w.value) {
      var x :| Holds(c, x, t, w.value) && 0 < c.objs[x].done <= c.now;
      assert At(d, x) == At(c, x);
      assert Holds(d, x, t, w.value);
    }
  }

  lemma FetchMap(c: Core, o: Obj, t: nat, ins: Instr, kind: Kind, bogus: bool, extra: seq<Src>)
    requires MapOk(c) && !At(c, o).valid && c.front != []
    ensures MapOk(Fetch(c, o, t, ins, kind, bogus, extra))
  {
    var d := Fetch(c, o, t, ins, kind, bogus, extra);
    var n := |Program(c, t)|;
    forall x: nat, r: Reg
      ensures Linked(d, x, LastWriter(Program(d, x), |Program(d, x)|, r), Lookup(d.regMap, x, r))
    {
      UpdateMapLookup(c.regMap, t, ins.dests, Src(Some(o), n), x, r);
      assert Linked(c, x, LastWriter(Program(c, x), |Program(c, x)|, r), Lookup(c.regMap, x, r));
      if x == t {
        LastWriterPrefix(Program(c, t), [ins], n, r);
        if r !in ins.dests {
          FetchKeeps(c, d, o, x, LastWriter(Program(c, x), n, r), Lookup(c.regMap, x, r));
        }
      } else {
        FetchKeeps(c, d, o, x, LastWriter(Program(c, x), |Program(c, x)|, r), Lookup(c.regMap, x, r));
      }
    }
  }

  lemma FetchSrcsNew(c: Core, o: Obj, t: nat, ins: Instr, kind: Kind, bogus: bool, extra: seq<Src>)
    requires MapOk(c) && !At(c, o).valid && c.front != []
    ensures var d := Fetch(c, o, t, ins, kind, bogus, extra); LiveObj(d, o) && SrcsOk(d, o) && ReadyOk(d, o)
  {
    var d := Fetch(c, o, t, ins, kind, bogus, extra);
    var n := |Program(c, t)|;
    forall i | 0 <= i < |ins.srcs|
      ensures Linked(d, t, LastWriter(Program(d, t), n, ins.srcs[i]), d.objs[o].srcs[i])
    {
      var r := ins.srcs[i];
      LastWriterPrefix(Program(c, t), [ins], n, r);
      FetchKeeps(c, d, o, t, LastWriter(Program(c, t), n, r), Lookup(c.regMap, t, r));
    }
  }

  lemma FetchSrcsOld(c: Core, o: Obj, t: nat, ins: Instr, kind: Kind, bogus: bool, extra: seq<Src>, x: Obj)
    requires !At(c, o).valid && c.front != [] && x != o && LiveObj(c, x) && SrcsOk(c, x) && ReadyOk(c, x)
    ensures var d := Fetch(c, o, t, ins, kind, bogus, extra); LiveObj(d, x) && SrcsOk(d, x) && ReadyOk(d, x)
  {
    var d := Fetch(c, o, t, ins, kind, bogus, extra);
    var u := c.objs[x];
    var v := u.thread.value;
    var prog := Program(c, v);
    forall i | 0 <= i < |prog[u.num].srcs|
      ensures LastWriter(Program(d, v), u.num, prog[u.num].srcs[i]) == LastWriter(prog, u.num, prog[u.num].srcs[i])
      ensures Linked(d, v, LastWriter(prog, u.num, prog[u.num].srcs[i]), u.srcs[i])
      ensures u.srcsRdy ==> WriterDone(d, v, LastWriter(prog, u.num, prog[u.num].srcs[i]))
    {
      var r := prog[u.num].srcs[i];
      LastWriterPrefix(prog, [ins], u.num, r);
      FetchKeeps(c, d, o, v, LastWriter(prog, u.num, r), u.srcs[i]);
      if u.srcsRdy { FetchDone(c, d, o, v, LastWriter(prog, u.num, r)); }
    }
  }

  lemma FetchDeps(c: Core, o: Obj, t: nat, ins: Instr, kind: Kind, bogus: bool, extra: seq<Src>)
    requires MapOk(c) && DepsOk(c) && !At(c, o).valid && c.front != []
    ensures var d := Fetch(c, o, t, ins, kind, bogus, extra); MapOk(d) && DepsOk(d)
  {
    var d := Fetch(c, o, t, ins, kind, bogus, extra);
    FetchMap(c, o, t, ins, kind, bogus, extra);
    forall x | LiveObj(d, x)
      ensures SrcsOk(d, x) && ReadyOk(d, x)
    {
      if x == o { FetchSrcsNew(c, o, t, ins, kind, bogus, extra); }
      else { FetchSrcsOld(c, o, t, ins, kind, bogus, extra, x); }
    }
  }
}
