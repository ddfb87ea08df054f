/**
 A memory instruction with several addresses: a parent uop and its children, issued by the loop in
 `exec_c::exec` (src/exec.cc) over a bit mask and completed by fills in `dcu_c::done`
 (src/memory.cc), in any interleaving of attempts and fills.
 */
module ChildUops {
  /** What an access answers: retry later, a hit, a miss that a fill will complete, or a software
      prefetch, which counts as a hit although a tracked request may fill later as well. */
  datatype Answer = Busy | Hit(latency: nat) | Miss | Prefetch(latency: nat, tracked: bool)

  /** The mask of children not yet issued, those a fill is still to come for, the number counted as
      done, how often each child was issued and counted, and the settings of `m_done_cycle`. */
  datatype Parent = Parent(pending: seq<bool>, inflight: seq<bool>, done: nat, issued: seq<nat>, counted: seq<nat>,
                           completions: nat, doneCycle: nat)

  predicate Shape(p: Parent) {
    |p.inflight| == |p.pending| && |p.issued| == |p.pending| && |p.counted| == |p.pending|
  }

  predicate AnyPending(p: Parent) { exists i :: 0 <= i < |p.pending| && p.pending[i] }

  predicate AnyInflight(p: Parent) { exists i :: 0 <= i < |p.inflight| && p.inflight[i] }

  function Fresh(n: nat): (p: Parent)
    ensures Shape(p) && |p.pending| == n
  {
    Parent(seq(n, _ => true), seq(n, _ => false), 0, seq(n, _ => 0), seq(n, _ => 0), 0, 0)
  }

  // ---------- exec ----------

  function Issue(p: Parent, i: nat, a: Answer): (q: Parent)
    requires Shape(p) && i < |p.pending|
    ensures Shape(q) && |q.pending| == |p.pending|
  {
    if a.Busy? then p
    else
      var waits := a.Miss? || (a.Prefetch? && a.tracked);
      var hit := if a.Miss? then 0 else 1;
      p.(pending := p.pending[i := false], inflight := p.inflight[i := waits], done := p.done + hit,
         issued := p.issued[i := p.issued[i] + 1], counted := p.counted[i := p.counted[i] + hit])
  }

  function Latency(a: Answer): nat {
    match a
    case Hit(n) => n
    case Prefetch(n, _) => n
    case _ => 0
  }

  function Max(a: nat, b: nat): nat { if a < b then b else a }

  /** The children below `k`: those still pending are tried once; the longest latency. */
  function IssueUpTo(p: Parent, answers: seq<Answer>, k: nat): (r: (Parent, nat))
    requires Shape(p) && |answers| == |p.pending| && k <= |answers|
    ensures Shape(r.0) && |r.0.pending| == |p.pending|
    ensures forall i :: k <= i < |p.pending| ==> r.0.pending[i] == p.pending[i]
  {
    if k == 0 then (p, 0)
    else
      var (q, m) := IssueUpTo(p, answers, k - 1);
      if !p.pending[k - 1] then (q, m)
      else (Issue(q, k - 1, answers[k - 1]), Max(m, Latency(answers[k - 1])))
  }

  function Complete(p: Parent, cycle: nat): Parent {
    p.(completions := p.completions + 1, doneCycle := cycle)
  }

  /** One call of `exec` in cycle `now`; `least` is the minimum latency to retirement. */
  function Exec(p: Parent, answers: seq<Answer>, now: nat, least: nat): (q: Parent)
    requires Shape(p) && |answers| == |p.pending|
    ensures Shape(q) && |q.pending| == |p.pending|
  {
    var (q, longest) := IssueUpTo(p, answers, |answers|);
    if !AnyPending(q) && q.done == |q.pending| && longest > 0 then Complete(q, now + Max(longest, least)) else q
  }

  /** The fill of child `i` when the core is in cycle `now`. */
  function FillChild(p: Parent, i: nat, now: nat): (q: Parent)
    requires Shape(p) && i < |p.pending|
    ensures Shape(q) && |q.pending| == |p.pending|
  {
    var q := p.(inflight := p.inflight[i := false], done := p.done + 1, counted := p.counted[i := p.counted[i] + 1]);
    if q.done == |q.pending| then Complete(q, now + 1) else q
  }

  // ---------- runs ----------

  datatype Event = Try(answers: seq<Answer>, now: nat, least: nat) | Filled(i: nat, now: nat)

  predicate Untracked(a: Answer) { !(a.Prefetch? && a.tracked) }

  /** Children share their parent's memory type, so either all are prefetches, which never answer a miss,
      or none is. */
  predicate Alike(prefetch: bool, answers: seq<Answer>) {
    forall i :: 0 <= i < |answers| ==> (answers[i].Miss? ==> !prefetch) && (answers[i].Prefetch? ==> prefetch)
  }

  /** `exec` is only called while children are pending, and a fill comes only for a request that is
      out. Cache latencies are positive. */
  predicate EventOk(p: Parent, e: Event) {
    match e
    case Try(answers, _, _) =>
      AnyPending(p) && |answers| == |p.pending|
      && forall i :: 0 <= i < |answers| ==> (answers[i].Hit? || answers[i].Prefetch? ==> answers[i].latency > 0)
    case Filled(i, _) => i < |p.inflight| && p.inflight[i]
  }

  function Step(p: Parent, e: Event): (q: Parent)
    requires Shape(p) && EventOk(p, e)
    ensures Shape(q) && |q.pending| == |p.pending|
  {
    match e
    case Try(answers, now, least) => Exec(p, answers, now, least)
    case Filled(i, now) => FillChild(p, i, now)
  }

  ghost predicate IsRun(n: nat, prefetch: bool, states: seq<Parent>, events: seq<Event>) {
    && n > 0 && |states| == |events| + 1 && states[0] == Fresh(n)
    && forall i :: 0 <= i < |events| ==>
         && Shape(states[i]) && EventOk(states[i], events[i]) && states[i + 1] == Step(states[i], events[i])
         && (events[i].Try? ==> Alike(prefetch, events[i].answers))
  }

  predicate Demands(events: seq<Event>) {
    forall i :: 0 <= i < |events| && events[i].Try? ==>
      forall j :: 0 <= j < |events[i].answers| ==> Untracked(events[i].answers[j])
  }

  // ---------- the books ----------

  function Sum(xs: seq<nat>): nat {
    if xs == [] then 0 else Sum(xs[..|xs|-1]) + xs[|xs|-1]
  }

  lemma {:induction false} SumUpdate(xs: seq<nat>, i: nat, v: nat)
    requires i < |xs|
    ensures Sum(xs[i := v]) == Sum(xs) - xs[i] + v
  {
    var n := |xs| - 1;
    var ys := xs[i := v];
    if i == n {
      assert ys[..n] == xs[..n];
    } else {
      SumUpdate(xs[..n], i, v);
      assert ys[..n] == xs[..n][i := v];
    }
  }

  lemma {:induction false} SumZero(n: nat)
    ensures Sum(seq(n, _ => 0)) == 0
  {
    if n > 0 {
      SumZero(n - 1);
      assert seq(n, _ => 0)[..n - 1] == seq(n - 1, _ => 0);
    }
  }

  /** Every child counted at most once: the total is full exactly when every child is counted. */
  lemma {:induction false} SumFull(xs: seq<nat>)
    requires forall i :: 0 <= i < |xs| ==> xs[i] <= 1
    ensures Sum(xs) <= |xs| && (Sum(xs) == |xs| <==> forall i :: 0 <= i < |xs| ==> xs[i] == 1)
  {
    if xs != [] {
      var n := |xs| - 1;
      var ys := xs[..n];
      SumFull(ys);
      assert (forall i :: 0 <= i < |xs| ==> xs[i] == 1) <==> (xs[n] == 1 && forall i :: 0 <= i < n ==> ys[i] == 1);
    }
  }

  /** A pending child is untouched; an issued one was issued once, and counted unless a fill is
      still to come for it. */
  predicate ChildOk(p: Parent, i: nat)
    requires Shape(p) && i < |p.pending|
  {
    if p.pending[i] then !p.inflight[i] && p.issued[i] == 0 && p.counted[i] == 0
    else p.issued[i] == 1 && p.counted[i] == if p.inflight[i] then 0 else 1
  }

  predicate Settled(p: Parent) { !AnyPending(p) && !AnyInflight(p) }

  predicate Books(p: Parent) {
    && Shape(p) && p.done == Sum(p.counted)
    && (forall i :: 0 <= i < |p.pending| ==> ChildOk(p, i))
  }

  /** All children are counted exactly when none is pending and no fill is to come. */
  lemma FullWhenSettled(p: Parent)
    requires Books(p)
    ensures p.done == |p.pending| <==> Settled(p)
  {
    forall i | 0 <= i < |p.counted|
      ensures p.counted[i] <= 1 && (p.counted[i] == 1 <==> !p.pending[i] && !p.inflight[i])
    {
      assert ChildOk(p, i);
    }
    SumFull(p.counted);
  }

  lemma IssueBooks(p: Parent, i: nat, a: Answer)
    requires Books(p) && i < |p.pending| && p.pending[i] && Untracked(a)
    ensures Books(Issue(p, i, a))
  {
    assert ChildOk(p, i);
    var q := Issue(p, i, a);
    SumUpdate(p.counted, i, q.counted[i]);
    forall j | 0 <= j < |q.pending|
      ensures ChildOk(q, j)
    {
      assert ChildOk(p, j);
    }
  }

  /** The scan keeps the books and leaves earlier completions alone; if it ends with every child
      counted, it counted one itself, so its longest latency is positive. */
  lemma {:induction false} IssueUpToBooks(p: Parent, answers: seq<Answer>, k: nat)
    requires Books(p) && EventOk(p, Try(answers, 0, 0)) && k <= |answers|
    requires forall i :: 0 <= i < |answers| ==> Untracked(answers[i])
    ensures var (q, m) := IssueUpTo(p, answers, k);
            && Books(q) && q.completions == p.completions
            && (m == 0 ==> q.done == p.done)
  {
    if k > 0 {
      IssueUpToBooks(p, answers, k - 1);
      if p.pending[k - 1] { IssueBooks(IssueUpTo(p, answers, k - 1).0, k - 1, answers[k - 1]); }
      hide Books;
    }
  }

  /** The completion is set once, when the last child is counted. */
  predicate Once(p: Parent) { p.completions == if Settled(p) then 1 else 0 }

  lemma ExecBooks(p: Parent, answers: seq<Answer>, now: nat, least: nat)
    requires Books(p) && Once(p) && EventOk(p, Try(answers, now, least))
    requires forall i :: 0 <= i < |answers| ==> Untracked(answers[i])
    ensures var q := Exec(p, answers, now, least);
            Books(q) && Once(q) && (Settled(q) ==> q.doneCycle >= now + least)
  {
    IssueUpToBooks(p, answers, |answers|);
    var (q, m) := IssueUpTo(p, answers, |answers|);
    FullWhenSettled(p);
    FullWhenSettled(q);
    var r := Exec(p, answers, now, least);
    forall i | 0 <= i < |r.pending|
      ensures ChildOk(r, i)
    {
      assert ChildOk(q, i);
    }
    assert AnyPending(r) <==> AnyPending(q);
    assert AnyInflight(r) <==> AnyInflight(q);
  }

  lemma FillBooks(p: Parent, i: nat, now: nat)
    requires Books(p) && Once(p) && EventOk(p, Filled(i, now))
    ensures var q := FillChild(p, i, now);
            Books(q) && Once(q) && (Settled(q) ==> q.doneCycle == now + 1)
  {
    assert ChildOk(p, i) && !Settled(p);
    var q := FillChild(p, i, now);
    SumUpdate(p.counted, i, q.counted[i]);
    forall j | 0 <= j < |q.pending|
      ensures ChildOk(q, j)
    {
      assert ChildOk(p, j);
    }
    FullWhenSettled(q);
  }

  lemma FreshBooks(n: nat)
    requires n > 0
    ensures Books(Fresh(n)) && Once(Fresh(n))
  {
    SumZero(n);
    assert Fresh(n).pending[0];
  }

  lemma {:induction false} RunBooks(n: nat, prefetch: bool, states: seq<Parent>, events: seq<Event>, i: nat)
    requires IsRun(n, prefetch, states, events) && Demands(events) && i < |states|
    ensures Books(states[i]) && Once(states[i]) && |states[i].pending| == n
  {
    if i == 0 {
      FreshBooks(n);
    } else {
      RunBooks(n, prefetch, states, events, i - 1);
      match events[i - 1]
      case Try(answers, now, least) => ExecBooks(states[i - 1], answers, now, least);
      case Filled(j, now) => FillBooks(states[i - 1], j, now);
    }
  }

  /** Under every interleaving of attempts and fills, with no tracked prefetch among the children:
      each child is issued and counted at most once, and exactly once when nothing is left to do;
      the parent's completion has been set once if nothing is left to do, and not before. */
  lemma ChildrenOnce(n: nat, prefetch: bool, states: seq<Parent>, events: seq<Event>, i: nat)
    requires IsRun(n, prefetch, states, events) && Demands(events) && i < |states|
    ensures var p := states[i];
            && Shape(p) && |p.pending| == n
            && (forall j :: 0 <= j < n ==> p.issued[j] <= 1 && p.counted[j] <= 1)
            && (Settled(p) <==> forall j :: 0 <= j < n ==> p.issued[j] == 1 && p.counted[j] == 1)
            && p.completions == if Settled(p) then 1 else 0
  {
    RunBooks(n, prefetch, states, events, i);
    var p := states[i];
    forall j | 0 <= j < n
      ensures p.issued[j] <= 1 && p.counted[j] <= 1
      ensures p.pending[j] || p.inflight[j] <==> !(p.issued[j] == 1 && p.counted[j] == 1)
    {
      assert ChildOk(p, j);
    }
    if forall j :: 0 <= j < n ==> p.issued[j] == 1 && p.counted[j] == 1 {
      assert forall j :: 0 <= j < n ==> !p.pending[j] && !p.inflight[j];
    }
  }

  /** Whichever comes last sets it: `exec`, at least `least` cycles ahead, or the last fill, one. */
  lemma LastSets(n: nat, prefetch: bool, states: seq<Parent>, events: seq<Event>, i: nat)
    requires IsRun(n, prefetch, states, events) && Demands(events) && i < |events|
    requires !Settled(states[i]) && Settled(states[i + 1])
    ensures match events[i]
            case Try(_, now, least) => states[i + 1].doneCycle >= now + least
            case Filled(_, now) => states[i + 1].doneCycle == now + 1
  {
    RunBooks(n, prefetch, states, events, i);
    match events[i]
    case Try(answers, now, least) => ExecBooks(states[i], answers, now, least);
    case Filled(j, now) => FillBooks(states[i], j, now);
  }

  /** `m` is the longest of the minimum latency and the latencies with which the pending children are answered. */
  predicate LongestTaken(pending: seq<bool>, answers: seq<Answer>, least: nat, m: int)
    requires |answers| == |pending|
  {
    && m >= least && (forall i :: 0 <= i < |pending| && pending[i] && Timed(answers[i]) ==> m >= answers[i].latency)
    && (m == least || exists i :: 0 <= i < |pending| && pending[i] && Timed(answers[i]) && m == answers[i].latency)
  }

  predicate Timed(a: Answer) { a.Hit? || a.Prefetch? }

  lemma {:induction false} LongestAnswer(p: Parent, answers: seq<Answer>, k: nat)
    requires Shape(p) && |answers| == |p.pending| && k <= |answers|
    ensures var m := IssueUpTo(p, answers, k).1;
            && (forall i :: 0 <= i < k && p.pending[i] && Timed(answers[i]) ==> m >= answers[i].latency)
            && (m == 0 || exists i :: 0 <= i < k && p.pending[i] && Timed(answers[i]) && m == answers[i].latency)
  {
    if k > 0 {
      LongestAnswer(p, answers, k - 1);
      hide Issue;
    }
  }

  /** With or without tracked prefetches: what the event that sets the completion sets it to. */
  lemma SetsCycle(n: nat, prefetch: bool, states: seq<Parent>, events: seq<Event>, i: nat)
    requires IsRun(n, prefetch, states, events) && i < |events| && states[i + 1].completions != states[i].completions
    ensures match events[i]
            case Try(answers, now, least) =>
              !AnyPending(states[i + 1]) && LongestTaken(states[i].pending, answers, least, states[i + 1].doneCycle - now)
            case Filled(_, now) => states[i + 1].doneCycle == now + 1
  {
    match events[i]
    case Try(answers, now, least) =>
      var p := states[i];
      IssueCompletes(p, answers, |answers|);
      LongestAnswer(p, answers, |answers|);
      var q := IssueUpTo(p, answers, |answers|).0;
      assert AnyPending(states[i + 1]) <==> AnyPending(q);
    case Filled(j, now) =>
  }

  lemma {:induction false} IssueCompletes(p: Parent, answers: seq<Answer>, k: nat)
    requires Shape(p) && |answers| == |p.pending| && k <= |answers|
    ensures IssueUpTo(p, answers, k).0.completions == p.completions
  {
    if k > 0 { IssueCompletes(p, answers, k - 1); }
  }

  // ---------- which children are counted once ----------

  /** The answer child `j` was accepted with in the first `i` events, `Busy` if it was not. */
  function Took(states: seq<Parent>, events: seq<Event>, i: nat, j: nat): (a: Answer)
    requires i <= |events| && |events| < |states|
    requires forall k :: 0 <= k < |events| ==>
               j < |states[k].pending| && (events[k].Try? ==> |events[k].answers| == |states[k].pending|)
  {
    if i == 0 then Busy
    else if events[i - 1].Try? && states[i - 1].pending[j] && !events[i - 1].answers[j].Busy? then events[i - 1].answers[j]
    else Took(states, events, i - 1, j)
  }

  predicate Waits(a: Answer) { a.Miss? || !Untracked(a) }

  /** A hit counts at once, a miss with its fill, and a tracked prefetch with both. */
  predicate CountOk(p: Parent, j: nat, a: Answer)
    requires Shape(p) && j < |p.pending|
  {
    && (p.pending[j] <==> a.Busy?)
    && (p.inflight[j] ==> Waits(a))
    && p.counted[j] == (if a.Busy? || a.Miss? then 0 else 1) + (if Waits(a) && !p.inflight[j] then 1 else 0)
  }

  lemma {:induction false} IssueCounts(p: Parent, answers: seq<Answer>, k: nat, j: nat, a: Answer)
    requires Shape(p) && |answers| == |p.pending| && k <= |answers| && j < |p.pending| && CountOk(p, j, a)
    ensures CountOk(IssueUpTo(p, answers, k).0, j, if j < k && p.pending[j] && !answers[j].Busy? then answers[j] else a)
  {
    if k > 0 {
      IssueCounts(p, answers, k - 1, j, a);
      if j == k - 1 { assert IssueUpTo(p, answers, k - 1).0.pending[j] == p.pending[j]; }
    }
  }

  lemma {:induction false} RunSized(n: nat, prefetch: bool, states: seq<Parent>, events: seq<Event>, i: nat)
    requires IsRun(n, prefetch, states, events) && i < |states|
    ensures Shape(states[i]) && |states[i].pending| == n
  {
    if i > 0 { RunSized(n, prefetch, states, events, i - 1); }
  }

  lemma RunSizes(n: nat, prefetch: bool, states: seq<Parent>, events: seq<Event>)
    requires IsRun(n, prefetch, states, events)
    ensures forall k :: 0 <= k < |states| ==> Shape(states[k]) && |states[k].pending| == n
    ensures forall k :: 0 <= k < |events| && events[k].Try? ==> |events[k].answers| == n
  {
    forall k | 0 <= k < |states|
      ensures Shape(states[k]) && |states[k].pending| == n
    {
      RunSized(n, prefetch, states, events, k);
    }
  }

  lemma {:induction false} RunCounts(n: nat, prefetch: bool, states: seq<Parent>, events: seq<Event>, i: nat, j: nat)
    requires IsRun(n, prefetch, states, events) && i < |states| && j < n
    requires forall k :: 0 <= k < |states| ==> Shape(states[k]) && |states[k].pending| == n
    requires forall k :: 0 <= k < |events| && events[k].Try? ==> |events[k].answers| == n
    ensures CountOk(states[i], j, Took(states, events, i, j))
  {
    if i > 0 {
      RunCounts(n, prefetch, states, events, i - 1, j);
      var p := states[i - 1];
      match events[i - 1]
      case Try(answers, now, least) => IssueCounts(p, answers, n, j, Took(states, events, i - 1, j));
      case Filled(x, now) =>
    }
  }

  /** A child that is still pending in the attempt gets a tracked request for a prefetch. */
  predicate TracksAt(states: seq<Parent>, events: seq<Event>, k: nat, j: nat)
    requires k < |events| < |states| && (events[k].Try? ==> j < |events[k].answers| && j < |states[k].pending|)
  {
    events[k].Try? && states[k].pending[j] && !Untracked(events[k].answers[j])
  }

  lemma TookNext(n: nat, states: seq<Parent>, events: seq<Event>, i: nat, j: nat)
    requires 0 < i <= |events| < |states| && j < n
    requires forall k :: 0 <= k < |states| ==> Shape(states[k]) && |states[k].pending| == n
    requires forall k :: 0 <= k < |events| && events[k].Try? ==> |events[k].answers| == n
    requires CountOk(states[i - 1], j, Took(states, events, i - 1, j))
    ensures !Untracked(Took(states, events, i, j))
            <==> !Untracked(Took(states, events, i - 1, j)) || TracksAt(states, events, i - 1, j)
  {
  }

  predicate TrackedIn(states: seq<Parent>, events: seq<Event>, i: nat, j: nat)
    requires i <= |events| < |states|
    requires forall k :: 0 <= k < |events| && events[k].Try? ==> j < |events[k].answers| && j < |states[k].pending|
  {
    i > 0 && (TracksAt(states, events, i - 1, j) || TrackedIn(states, events, i - 1, j))
  }

  lemma {:induction false} TrackedExists(states: seq<Parent>, events: seq<Event>, i: nat, j: nat)
    requires i <= |events| < |states|
    requires forall k :: 0 <= k < |events| && events[k].Try? ==> j < |events[k].answers| && j < |states[k].pending|
    ensures TrackedIn(states, events, i, j) <==> exists k :: 0 <= k < i && TracksAt(states, events, k, j)
  {
    hide TracksAt;
    if i > 0 { TrackedExists(states, events, i - 1, j); }
  }

  lemma {:induction false} TookTracked(n: nat, prefetch: bool, states: seq<Parent>, events: seq<Event>, i: nat, j: nat)
    requires IsRun(n, prefetch, states, events) && i < |states| && j < n
    requires forall k :: 0 <= k < |states| ==> Shape(states[k]) && |states[k].pending| == n
    requires forall k :: 0 <= k < |events| && events[k].Try? ==> |events[k].answers| == n
    ensures !Untracked(Took(states, events, i, j)) <==> TrackedIn(states, events, i, j)
  {
    if i > 0 {
      TookTracked(n, prefetch, states, events, i - 1, j);
      RunCounts(n, prefetch, states, events, i - 1, j);
      TookNext(n, states, events, i, j);
    }
    hide Took;
    hide CountOk;
    hide TracksAt;
    hide Untracked;
  }

  /** In every run, once nothing is left to do: every child has been counted exactly once if and only if none
      was given a tracked request for a prefetch. */
  lemma CountedOnceIff(n: nat, prefetch: bool, states: seq<Parent>, events: seq<Event>, i: nat)
    requires IsRun(n, prefetch, states, events) && i < |states| && Settled(states[i])
    ensures |states[i].counted| == n && forall k :: 0 <= k < |events| && events[k].Try? ==> |events[k].answers| == n == |states[k].pending|
    ensures (forall j :: 0 <= j < n ==> states[i].counted[j] == 1)
            <==> !exists k, j :: 0 <= k < i && 0 <= j < n && TracksAt(states, events, k, j)
  {
    RunSizes(n, prefetch, states, events);
    forall j | 0 <= j < n
      ensures states[i].counted[j] == 1 <==> !exists k :: 0 <= k < i && TracksAt(states, events, k, j)
    {
      RunCounts(n, prefetch, states, events, i, j);
      TookTracked(n, prefetch, states, events, i, j);
      TrackedExists(states, events, i, j);
      assert !states[i].pending[j] && !states[i].inflight[j];
    }
    if k, j :| 0 <= k < i && 0 <= j < n && TracksAt(states, events, k, j) {
      assert states[i].counted[j] != 1;
    }
  }

  // ---------- when a prefetch parent completes ----------

  function Issued(pending: seq<bool>): (n: nat)
    ensures n <= |pending|
  {
    if pending == [] then 0 else Issued(pending[..|pending|-1]) + if pending[|pending|-1] then 0 else 1
  }

  lemma {:induction false} IssuedUpdate(pending: seq<bool>, i: nat)
    requires i < |pending| && pending[i]
    ensures Issued(pending[i := false]) == Issued(pending) + 1
  {
    var n := |pending| - 1;
    if i == n {
      assert pending[i := false][..n] == pending[..n];
    } else {
      IssuedUpdate(pending[..n], i);
      assert pending[i := false][..n] == pending[..n][i := false];
    }
  }

  lemma {:induction false} IssuedAll(pending: seq<bool>)
    ensures Issued(pending) == |pending| <==> forall i :: 0 <= i < |pending| ==> !pending[i]
  {
    if pending != [] { IssuedAll(pending[..|pending|-1]); }
  }

  function Fills(events: seq<Event>, i: nat): nat
    requires i <= |events|
  {
    if i == 0 then 0 else Fills(events, i - 1) + if events[i - 1].Filled? then 1 else 0
  }

  lemma {:induction false} FillsNone(events: seq<Event>, i: nat)
    requires i <= |events|
    ensures Fills(events, i) == 0 <==> forall k :: 0 <= k < i ==> !events[k].Filled?
  {
    if i > 0 { FillsNone(events, i - 1); }
  }

  lemma {:induction false} IssueAdds(p: Parent, answers: seq<Answer>, k: nat)
    requires Shape(p) && EventOk(p, Try(answers, 0, 0)) && Alike(true, answers) && k <= |answers|
    ensures var (q, m) := IssueUpTo(p, answers, k);
            && q.completions == p.completions && q.done >= p.done && (m > 0 <==> q.done > p.done)
            && q.done - p.done == Issued(q.pending) - Issued(p.pending)
  {
    if k > 0 {
      IssueAdds(p, answers, k - 1);
      var q := IssueUpTo(p, answers, k - 1).0;
      if p.pending[k - 1] { IssueOne(q, k - 1, answers[k - 1]); }
      hide Issue;
      hide Issued;
      hide Shape;
    }
  }

  lemma IssueOne(p: Parent, i: nat, a: Answer)
    requires Shape(p) && i < |p.pending| && p.pending[i] && !a.Miss? && (a.Busy? || Latency(a) > 0)
    ensures var q := Issue(p, i, a);
            && q.completions == p.completions && q.done == p.done + (if a.Busy? then 0 else 1)
            && Issued(q.pending) == Issued(p.pending) + (if a.Busy? then 0 else 1) && (a.Busy? <==> Latency(a) == 0)
  {
    if !a.Busy? { IssuedUpdate(p.pending, i); }
  }

  /** What is counted are the children issued and the fills. */
  lemma {:induction false} RunAdds(n: nat, states: seq<Parent>, events: seq<Event>, i: nat)
    requires IsRun(n, true, states, events) && i < |states|
    ensures Shape(states[i]) && |states[i].pending| == n && states[i].done == Issued(states[i].pending) + Fills(events, i)
  {
    if i == 0 {
      IssuedNone(n);
    } else {
      RunAdds(n, states, events, i - 1);
      match events[i - 1]
      case Try(answers, now, least) => IssueAdds(states[i - 1], answers, n);
      case Filled(j, now) =>
    }
  }

  lemma {:induction false} IssuedNone(n: nat)
    ensures Issued(Fresh(n).pending) == 0
  {
    if n > 0 {
      IssuedNone(n - 1);
      assert Fresh(n).pending[..n - 1] == Fresh(n - 1).pending;
    }
  }

  /** The event sets the parent's completion. */
  predicate SetsAt(n: nat, states: seq<Parent>, events: seq<Event>, k: nat)
    requires k < |events| < |states|
  {
    states[k + 1].done == n && (events[k].Filled? || !AnyPending(states[k + 1]))
  }

  lemma CompletionStep(n: nat, states: seq<Parent>, events: seq<Event>, k: nat)
    requires IsRun(n, true, states, events) && k < |events|
    ensures states[k + 1].completions == states[k].completions + if SetsAt(n, states, events, k) then 1 else 0
    ensures SetsAt(n, states, events, k) ==> states[k].done < n
    ensures states[k].done <= states[k + 1].done
  {
    RunAdds(n, states, events, k);
    match events[k]
    case Try(answers, now, least) =>
      var p := states[k];
      IssueAdds(p, answers, n);
      var q := IssueUpTo(p, answers, n).0;
      assert AnyPending(states[k + 1]) <==> AnyPending(q);
      IssuedAll(p.pending);
      IssuedAll(q.pending);
      if i :| 0 <= i < |p.pending| && p.pending[i] { assert Issued(p.pending) < n; }
    case Filled(j, now) =>
  }

  /** The completion is set at most once, and has been set exactly when some event so far set it. */
  lemma {:induction false} CompletionsAre(n: nat, states: seq<Parent>, events: seq<Event>, i: nat)
    requires IsRun(n, true, states, events) && i < |states|
    ensures states[i].completions <= 1
    ensures states[i].completions == 1 <==> exists k :: 0 <= k < i && SetsAt(n, states, events, k)
    ensures states[i].completions == 1 ==> states[i].done >= n
  {
    if i > 0 {
      CompletionsAre(n, states, events, i - 1);
      CompletionStep(n, states, events, i - 1);
    }
  }

  lemma {:induction false} StaysIssued(n: nat, states: seq<Parent>, events: seq<Event>, t: nat, i: nat)
    requires IsRun(n, true, states, events) && t <= i < |states| && !AnyPending(states[t])
    ensures !AnyPending(states[i])
  {
    if t < i {
      StaysIssued(n, states, events, t, i - 1);
      match events[i - 1]
      case Try(_, _, _) =>
      case Filled(j, now) => assert states[i].pending == states[i - 1].pending;
    }
  }

  lemma {:induction false} Later(n: nat, states: seq<Parent>, events: seq<Event>, t: nat, i: nat)
    requires IsRun(n, true, states, events) && t <= i < |states| && states[t].done >= n
    ensures states[i].done >= n && states[i].completions == states[t].completions
  {
    if t < i {
      Later(n, states, events, t, i - 1);
      CompletionStep(n, states, events, i - 1);
    }
  }

  /** When attempt `t` has issued the last child of a prefetch parent, the completion is set once in the end
      if and only if no fill came before, or one brought the count to exactly the number of children; it is
      never set more than once. */
  lemma SetOnceIff(n: nat, states: seq<Parent>, events: seq<Event>, t: nat, i: nat)
    requires IsRun(n, true, states, events) && t < i < |states| && events[t].Try? && !AnyPending(states[t + 1])
    ensures states[i].completions <= 1
    ensures states[i].completions == 1 <==>
              (forall k :: 0 <= k < t ==> !events[k].Filled?)
              || exists k :: 0 <= k < t && events[k].Filled? && states[k + 1].done == n
  {
    RunAdds(n, states, events, t + 1);
    IssuedAll(states[t + 1].pending);
    FillsNone(events, t);
    CompletionsAre(n, states, events, t);
    CompletionStep(n, states, events, t);
    Later(n, states, events, t + 1, i);
    assert states[t + 1].done == n + Fills(events, t);
    forall m | 0 < m <= t
      ensures AnyPending(states[m])
    {
      if !AnyPending(states[m]) { StaysIssued(n, states, events, m, t); }
    }
    forall k | 0 <= k < t
      ensures SetsAt(n, states, events, k) <==> events[k].Filled? && states[k + 1].done == n
    {
    }
    if k :| 0 <= k < t && events[k].Filled? && states[k + 1].done == n {
      assert SetsAt(n, states, events, k);
    }
  }

  /** A prefetch parent that completes while a child has not been issued. */
  lemma CompletesEarly() returns (states: seq<Parent>, events: seq<Event>)
    ensures IsRun(2, true, states, events) && var p := states[|states| - 1]; p.completions == 1 && AnyPending(p)
  {
    var p := Fresh(2);
    var answers := [Prefetch(1, true), Busy];
    assert p.pending[0];
    var q0 := IssueUpTo(p, answers, 0).0;
    var q1 := IssueUpTo(p, answers, 1).0;
    var q := IssueUpTo(p, answers, 2).0;
    assert q1 == Issue(p, 0, answers[0]) && q == q1;
    assert q.pending[1];
    var r := FillChild(q, 0, 5);
    assert r.pending[1];
    states, events := [p, q, r], [Try(answers, 0, 0), Filled(0, 5)];
    assert states[1] == Step(states[0], events[0]) && states[2] == Step(states[1], events[1]);
  }

  /** A prefetch parent whose children have all been issued and filled, and that never completes. */
  lemma CompletesNever() returns (states: seq<Parent>, events: seq<Event>)
    ensures IsRun(3, true, states, events) && var p := states[|states| - 1]; p.completions == 0 && Settled(p)
  {
    hide Exec;
    hide FillChild;
    hide Settled;
    var p := Fresh(3);
    var first, second := [Prefetch(1, true), Busy, Busy], [Busy, Hit(1), Hit(1)];
    FirstAttempt(p, first);
    var q := Exec(p, first, 0, 0);
    var r := FillChild(q, 0, 5);
    SecondAttempt(r, second);
    var s := Exec(r, second, 6, 0);
    states, events := [p, q, r, s], [Try(first, 0, 0), Filled(0, 5), Try(second, 6, 0)];
    assert states[1] == Step(states[0], events[0]) && states[2] == Step(states[1], events[1]);
    assert states[3] == Step(states[2], events[2]);
  }

  lemma FirstAttempt(p: Parent, first: seq<Answer>)
    requires p == Fresh(3) && first == [Prefetch(1, true), Busy, Busy]
    ensures AnyPending(p)
    ensures var q := Exec(p, first, 0, 0); var r := FillChild(q, 0, 5);
            && q.inflight[0] && r.done == 2 && r.completions == 0 && r.pending == [false, true, true] && r.inflight == [false, false, false]
  {
    assert p.pending[0];
    var q1 := IssueUpTo(p, first, 1).0;
    assert IssueUpTo(p, first, 0).0 == p;
    assert q1 == Issue(p, 0, first[0]);
    var q := IssueUpTo(p, first, 3).0;
    assert IssueUpTo(p, first, 2).0 == q1 && q == q1;
    assert q.pending[1];
  }

  lemma SecondAttempt(r: Parent, second: seq<Answer>)
    requires Shape(r) && r.done == 2 && r.completions == 0 && r.pending == [false, true, true] && r.inflight == [false, false, false]
    requires second == [Busy, Hit(1), Hit(1)]
    ensures AnyPending(r)
    ensures var s := Exec(r, second, 6, 0); s.completions == 0 && Settled(s)
  {
    assert r.pending[1];
    assert IssueUpTo(r, second, 0).0 == r;
    var s1 := IssueUpTo(r, second, 1).0;
    var s2 := IssueUpTo(r, second, 2).0;
    var s := IssueUpTo(r, second, 3).0;
    assert s1 == r && s2 == Issue(r, 1, Hit(1)) && s == Issue(s2, 2, Hit(1));
    assert s.done == 4 && s.pending == [false, false, false] && s.inflight == [false, false, false];
  }

  // ---------- the loops ----------

  /** `get_next_set_bit64`. */
  method NextSetBit(mask: seq<bool>, pos: nat) returns (i: int)
    ensures i == -1 ==> forall j :: pos <= j < |mask| ==> !mask[j]
    ensures i != -1 ==> pos <= i < |mask| && mask[i] && forall j :: pos <= j < i ==> !mask[j]
  {
    var k := pos;
    while k < |mask|
      invariant pos <= k && forall j :: pos <= j < k && j < |mask| ==> !mask[j]
    {
      if mask[k] { return k; }
      k := k + 1;
    }
    return -1;
  }

  class ParentUop {
    var p: Parent

    constructor (n: nat)
      ensures p == Fresh(n)
    {
      p := Fresh(n);
    }

    /** The issue loop, from set bit to set bit of the mask. */
    method IssueLoop(answers: seq<Answer>) returns (longest: nat)
      requires Shape(p) && |answers| == |p.pending|
      modifies this
      ensures (p, longest) == IssueUpTo(old(p), answers, |answers|)
    {
      longest := 0;
      var k := 0;
      var bit := NextSetBit(p.pending, 0);
      while bit != -1
        invariant 0 <= k <= |answers| && Shape(p) && |p.pending| == |answers|
        invariant (p, longest) == IssueUpTo(old(p), answers, k)
        invariant bit == -1 ==> forall j :: k <= j < |answers| ==> !old(p).pending[j]
        invariant bit != -1 ==> k <= bit < |answers| && old(p).pending[bit]
                                && forall j :: k <= j < bit ==> !old(p).pending[j]
        decreases |answers| - k
      {
        SkipClear(old(p), answers, k, bit);
        var a := answers[bit];
        if !a.Busy? {
          var waits := a.Miss? || (a.Prefetch? && a.tracked);
          var hit := if a.Miss? then 0 else 1;
          p := p.(pending := p.pending[bit := false], inflight := p.inflight[bit := waits], done := p.done + hit,
                  issued := p.issued[bit := p.issued[bit] + 1], counted := p.counted[bit := p.counted[bit] + hit]);
          if longest < Latency(a) { longest := Latency(a); }
        }
        k := bit + 1;
        bit := NextSetBit(p.pending, k);
      }
      SkipClear(old(p), answers, k, |answers|);
    }

    method Attempt(answers: seq<Answer>, now: nat, least: nat)
      requires Shape(p) && |answers| == |p.pending|
      modifies this
      ensures p == Exec(old(p), answers, now, least)
    {
      var longest := IssueLoop(answers);
      var bit := NextSetBit(p.pending, 0);
      if bit == -1 && p.done == |p.pending| && longest > 0 {
        p := p.(completions := p.completions + 1, doneCycle := now + if longest < least then least else longest);
      }
    }
  }

  /** Children that are not pending are skipped. */
  lemma {:induction false} SkipClear(p: Parent, answers: seq<Answer>, k: nat, b: nat)
    requires Shape(p) && |answers| == |p.pending| && k <= b <= |answers|
    requires forall j :: k <= j < b ==> !p.pending[j]
    ensures IssueUpTo(p, answers, b) == IssueUpTo(p, answers, k)
  {
    if k < b { SkipClear(p, answers, k, b - 1); }
  }
}
