/**
 Static partitioning of a set between CPU and GPU lines: the per-set counts are right, the quotas are
 never exceeded, an insertion never evicts the other type, and the replacement search always finds a
 way. Also the loops of src/cache.cc over one set, in place.
 */
module CachePartition {
  import opened Options
  import opened CacheSets

  // ---------- counting by type ----------

  function NumType(lines: seq<Line>, gpu: bool): (n: nat)
    ensures n <= |lines|
  {
    if lines == [] then 0
    else NumType(lines[..|lines|-1], gpu) + if lines[|lines|-1].valid && lines[|lines|-1].gpu == gpu then 1 else 0
  }

  lemma {:induction false} TypeUpdate(lines: seq<Line>, i: nat, l: Line, gpu: bool)
    requires i < |lines|
    ensures NumType(lines[i := l], gpu) == NumType(lines, gpu) - (if lines[i].valid && lines[i].gpu == gpu then 1 else 0)
                                           + if l.valid && l.gpu == gpu then 1 else 0
  {
    var n := |lines| - 1;
    if i == n {
      assert lines[i := l][..n] == lines[..n];
    } else {
      TypeUpdate(lines[..n], i, l, gpu);
      assert lines[i := l][..n] == lines[..n][i := l];
    }
  }

  lemma {:induction false} TypesAddUp(lines: seq<Line>)
    ensures NumType(lines, true) + NumType(lines, false) == NumValid(lines)
  {
    if lines != [] { TypesAddUp(lines[..|lines|-1]); }
  }

  lemma {:induction false} SomeOfType(lines: seq<Line>, gpu: bool)
    requires NumType(lines, gpu) > 0
    ensures exists i :: 0 <= i < |lines| && lines[i].valid && lines[i].gpu == gpu
  {
    var n := |lines| - 1;
    if !(lines[n].valid && lines[n].gpu == gpu) {
      SomeOfType(lines[..n], gpu);
      var i :| 0 <= i < n && lines[..n][i].valid && lines[..n][i].gpu == gpu;
      assert lines[i].valid && lines[i].gpu == gpu;
    }
  }

  // ---------- the invariant ----------

  predicate PartOk(s: CSet, cpuWays: nat) {
    && 0 < cpuWays < |s.lines|
    && s.cpu == NumType(s.lines, false) <= cpuWays
    && s.gpu == NumType(s.lines, true) <= |s.lines| - cpuWays
    && forall i :: 0 <= i < |s.lines| && s.lines[i].valid ==> s.lines[i].time < ULLONG_MAX
  }

  lemma {:induction false} OldestOfTypeMin(lines: seq<Line>, gpu: bool, n: nat)
    requires n <= |lines|
    ensures forall j :: 0 <= j < n && lines[j].valid && lines[j].gpu == gpu ==> OldestOfType(lines, gpu, n).1 <= lines[j].time
    ensures OldestOfType(lines, gpu, n).1 <= ULLONG_MAX
  {
    if n > 0 { OldestOfTypeMin(lines, gpu, n - 1); }
  }

  /** The search finds a way: a free one while the type is under its quota, and otherwise the least
      recently used one of that type. */
  lemma VictimFound(s: CSet, cpuWays: nat, gpu: bool)
    requires PartOk(s, cpuWays)
    ensures var v := VictimOfType(s, cpuWays, gpu);
            && v.Some? && v.value < |s.lines|
            && if (if gpu then s.gpu < |s.lines| - cpuWays else s.cpu < cpuWays) then !s.lines[v.value].valid
               else s.lines[v.value].valid && s.lines[v.value].gpu == gpu
                    && forall j :: 0 <= j < |s.lines| && s.lines[j].valid && s.lines[j].gpu == gpu
                                   ==> s.lines[v.value].time <= s.lines[j].time
  {
    TypesAddUp(s.lines);
    FreeIffFewer(s.lines);
    OldestOfTypeMin(s.lines, gpu, |s.lines|);
    if CountOf(s, gpu) >= Quota(|s.lines|, cpuWays, gpu) { SomeOfType(s.lines, gpu); }
  }

  /** An insertion keeps the counts and quotas and leaves every line of the other type in its way. */
  lemma InsertKeepsPart(s: CSet, cpuWays: nat, tag: nat, time: nat, gpu: bool)
    requires PartOk(s, cpuWays) && time < ULLONG_MAX
    ensures var t := InsertPartitioned(s, cpuWays, tag, time, gpu);
            && PartOk(t, cpuWays) && |t.lines| == |s.lines| && Resident(t, tag)
            && forall i :: 0 <= i < |s.lines| && s.lines[i].valid && s.lines[i].gpu != gpu ==> t.lines[i] == s.lines[i]
  {
    VictimFound(s, cpuWays, gpu);
    var i := VictimOfType(s, cpuWays, gpu).value;
    var t := InsertPartitioned(s, cpuWays, tag, time, gpu);
    assert Holds(t.lines[i], tag);
    TypeUpdate(s.lines, i, Line(true, tag, time, gpu), gpu);
    TypeUpdate(s.lines, i, Line(true, tag, time, gpu), !gpu);
  }

  lemma AccessKeepsPart(s: CSet, cpuWays: nat, tag: nat, time: nat, update: bool)
    requires PartOk(s, cpuWays) && time < ULLONG_MAX
    ensures PartOk(Access(s, tag, time, update).0, cpuWays)
    ensures |Access(s, tag, time, update).0.lines| == |s.lines|
  {
    var f := Find(s.lines, tag, |s.lines|);
    if f.Some? && update {
      var l := s.lines[f.value].(time := time);
      TypeUpdate(s.lines, f.value, l, true);
      TypeUpdate(s.lines, f.value, l, false);
    }
  }

  // ---------- runs ----------

  function ExecPart(s: CSet, cpuWays: nat, st: Step): CSet {
    match st.op
    case Look(tag, update) => Access(s, tag, st.time, update).0
    case Put(tag, gpu) => InsertPartitioned(s, cpuWays, tag, st.time, gpu)
  }

  predicate IsPartRun(assoc: nat, cpuWays: nat, states: seq<CSet>, steps: seq<Step>) {
    && 0 < cpuWays < assoc && |states| == |steps| + 1 && states[0] == Fresh(assoc)
    && forall i :: 0 <= i < |steps| ==>
         steps[i].time < ULLONG_MAX && states[i + 1] == ExecPart(states[i], cpuWays, steps[i])
  }

  lemma {:induction false} FreshPart(assoc: nat, gpu: bool)
    ensures NumType(Fresh(assoc).lines, gpu) == 0
  {
    if assoc > 0 {
      FreshPart(assoc - 1, gpu);
      assert Fresh(assoc).lines[..assoc - 1] == Fresh(assoc - 1).lines;
    }
  }

  lemma {:induction false} RunPart(assoc: nat, cpuWays: nat, states: seq<CSet>, steps: seq<Step>, n: nat)
    requires IsPartRun(assoc, cpuWays, states, steps) && n < |states|
    ensures PartOk(states[n], cpuWays) && |states[n].lines| == assoc
  {
    if n == 0 {
      FreshPart(assoc, true);
      FreshPart(assoc, false);
    } else {
      RunPart(assoc, cpuWays, states, steps, n - 1);
      match steps[n - 1].op
      case Look(tag, update) => AccessKeepsPart(states[n - 1], cpuWays, tag, steps[n - 1].time, update);
      case Put(tag, gpu) => InsertKeepsPart(states[n - 1], cpuWays, tag, steps[n - 1].time, gpu);
    }
  }

  /** In every run the counters are the numbers of valid lines of each type, neither quota is exceeded,
      the search finds a way for either type, and no step takes a way from a line of the other type. */
  lemma PartitionKept(assoc: nat, cpuWays: nat, states: seq<CSet>, steps: seq<Step>, n: nat)
    requires IsPartRun(assoc, cpuWays, states, steps) && n < |states|
    ensures var s := states[n];
            && |s.lines| == assoc
            && s.cpu == NumType(s.lines, false) <= cpuWays && s.gpu == NumType(s.lines, true) <= assoc - cpuWays
            && VictimOfType(s, cpuWays, false).Some? && VictimOfType(s, cpuWays, true).Some?
    ensures n < |steps| ==>
              |states[n + 1].lines| == assoc
              && forall i :: 0 <= i < assoc && states[n].lines[i].valid
                             && (steps[n].op.Put? ==> states[n].lines[i].gpu != steps[n].op.gpu)
                             ==> states[n + 1].lines[i].valid && states[n + 1].lines[i].tag == states[n].lines[i].tag
  {
    RunPart(assoc, cpuWays, states, steps, n);
    VictimFound(states[n], cpuWays, false);
    VictimFound(states[n], cpuWays, true);
    if n < |steps| && steps[n].op.Put? {
      InsertKeepsPart(states[n], cpuWays, steps[n].op.tag, steps[n].time, steps[n].op.gpu);
    }
  }

  // ---------- one set in place ----------

  class CacheSet {
    const lines: array<Line>
    var cpu: int
    var gpu: int

    ghost function View(): CSet
      reads this, lines
    {
      CSet(lines[..], cpu, gpu)
    }

    constructor (assoc: nat)
      requires assoc > 0
      ensures View() == Fresh(assoc) && fresh(lines)
    {
      lines := new Line[assoc](_ => Line(false, 0, 0, false));
      cpu, gpu := 0, 0;
    }

    method AccessCache(tag: nat, time: nat, update: bool) returns (hit: bool)
      modifies lines
      ensures (View(), hit) == Access(old(View()), tag, time, update)
    {
      var i := 0;
      while i < lines.Length
        invariant i <= lines.Length && lines[..] == old(lines[..])
        invariant Find(lines[..], tag, i).None?
      {
        if lines[i].valid && lines[i].tag == tag {
          FoundFirst(lines[..], tag, i, lines.Length);
          if update { lines[i] := lines[i].(time := time); }
          return true;
        }
        i := i + 1;
      }
      return false;
    }

    method FindReplacementLine() returns (way: nat)
      ensures way == Victim(lines[..])
    {
      way := 0;
      var lruTime := MAX_INT;
      var i := 0;
      while i < lines.Length
        invariant i <= lines.Length && (way, lruTime) == Oldest(lines[..], i) && FirstFree(lines[..], i).None?
      {
        if !lines[i].valid {
          FreeFirst(lines[..], i, lines.Length);
          return i;
        }
        if lines[i].time < lruTime {
          way, lruTime := i, lines[i].time;
        }
        i := i + 1;
      }
    }

    method FindFromSameType(cpuWays: nat, gpuLine: bool) returns (way: Option<nat>)
      ensures way == VictimOfType(View(), cpuWays, gpuLine)
    {
      var count := if gpuLine then gpu else cpu;
      var max := if gpuLine then lines.Length - cpuWays else cpuWays;
      way := None;
      var lruTime := ULLONG_MAX;
      var i := 0;
      while i < lines.Length
        invariant i <= lines.Length && (way, lruTime) == OldestOfType(lines[..], gpuLine, i)
        invariant count < max ==> FirstFree(lines[..], i).None?
      {
        if !lines[i].valid && count < max {
          FreeFirst(lines[..], i, lines.Length);
          return Some(i);
        }
        if lines[i].valid && lines[i].gpu == gpuLine && lines[i].time < lruTime {
          way, lruTime := Some(i), lines[i].time;
        }
        i := i + 1;
      }
    }

    /** The counts lose the replaced line's type and gain the new one's. */
    method FillWay(i: nat, tag: nat, time: nat, gpuLine: bool)
      requires i < lines.Length
      modifies this, lines
      ensures View() == Fill(old(View()), i, tag, time, gpuLine)
    {
      if lines[i].valid {
        if lines[i].gpu { gpu := gpu - 1; } else { cpu := cpu - 1; }
      }
      lines[i] := Line(true, tag, time, gpuLine);
      if gpuLine { gpu := gpu + 1; } else { cpu := cpu + 1; }
    }

    method InsertCache(tag: nat, time: nat, gpuLine: bool)
      requires lines.Length > 0
      modifies this, lines
      ensures View() == Insert(old(View()), tag, time, gpuLine)
    {
      var way := FindReplacementLine();
      FillWay(way, tag, time, gpuLine);
    }

    method InsertInPartition(cpuWays: nat, tag: nat, time: nat, gpuLine: bool)
      requires PartOk(View(), cpuWays) && time < ULLONG_MAX
      modifies this, lines
      ensures PartOk(View(), cpuWays) && View() == InsertPartitioned(old(View()), cpuWays, tag, time, gpuLine)
    {
      VictimFound(View(), cpuWays, gpuLine);
      InsertKeepsPart(View(), cpuWays, tag, time, gpuLine);
      var way := FindFromSameType(cpuWays, gpuLine);
      FillWay(way.value, tag, time, gpuLine);
    }
  }

  lemma {:induction false} FoundFirst(lines: seq<Line>, tag: nat, i: nat, n: nat)
    requires i < n <= |lines| && Find(lines, tag, i).None? && Holds(lines[i], tag)
    ensures Find(lines, tag, n) == Some(i)
  {
    if n > i + 1 { FoundFirst(lines, tag, i, n - 1); }
  }

  lemma {:induction false} FreeFirst(lines: seq<Line>, i: nat, n: nat)
    requires i < n <= |lines| && FirstFree(lines, i).None? && !lines[i].valid
    ensures FirstFree(lines, n) == Some(i)
  {
    if n > i + 1 { FreeFirst(lines, i, n - 1); }
  }
}
