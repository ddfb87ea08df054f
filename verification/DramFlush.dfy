/**
 Which requests leave a bank's buffer and where they go, said of kinds and addresses alone: a flush takes
 prefetches, a completion takes the requests to its address, and a demand leaves only by injection.
 */
module DramFlush {
  import opened DramModel
  import opened Options
  import opened DramRuns
  import opened DramLift
  import opened DramConservation
  import opened DramExits

  // ---------- the entries that satisfy a condition ----------

  /** The entries of `xs` of which `f` holds, in order. */
  function Where(xs: seq<Entry>, f: Entry -> bool): seq<Entry> {
    if xs == [] then [] else (if f(xs[0]) then [xs[0]] else []) + Where(xs[1..], f)
  }

  lemma {:induction false} WhereIn(xs: seq<Entry>, f: Entry -> bool)
    ensures forall e :: e in Where(xs, f) <==> e in xs && f(e)
  {
    if xs != [] { WhereIn(xs[1..], f); }
  }

  function IsPrefetch(): Entry -> bool { (e: Entry) => e.req.kind == DPrf }

  function NotPrefetch(): Entry -> bool { (e: Entry) => e.req.kind != DPrf }

  function SameAddr(a: nat): Entry -> bool { (e: Entry) => e.addr == a }

  function OtherAddr(a: nat): Entry -> bool { (e: Entry) => e.addr != a }

  function IsWb(): Entry -> bool { (e: Entry) => e.req.kind == Wb }

  function NotWb(): Entry -> bool { (e: Entry) => e.req.kind != Wb }

  lemma {:induction false} WhereCat(xs: seq<Entry>, ys: seq<Entry>, f: Entry -> bool)
    ensures Where(xs + ys, f) == Where(xs, f) + Where(ys, f)
  {
    if xs == [] {
      assert xs + ys == ys;
    } else {
      assert (xs + ys)[1..] == xs[1..] + ys && (xs + ys)[0] == xs[0];
      WhereCat(xs[1..], ys, f);
      WhereStep(xs, f);
      WhereStep(xs + ys, f);
      hide Where;
      var h := if f(xs[0]) then [xs[0]] else [];
      assert h + (Where(xs[1..], f) + Where(ys, f)) == (h + Where(xs[1..], f)) + Where(ys, f);
    }
  }

  lemma WhereStep(xs: seq<Entry>, f: Entry -> bool)
    requires xs != []
    ensures Where(xs, f) == (if f(xs[0]) then [xs[0]] else []) + Where(xs[1..], f)
  {
  }

  lemma WhereLast(xs: seq<Entry>, f: Entry -> bool)
    requires xs != []
    ensures Where(xs, f) == Where(xs[..|xs|-1], f) + if f(xs[|xs|-1]) then [xs[|xs|-1]] else []
  {
    var n := |xs| - 1;
    assert xs == xs[..n] + [xs[n]];
    WhereCat(xs[..n], [xs[n]], f);
    assert Where([xs[n]], f) == (if f(xs[n]) then [xs[n]] else []);
  }

  lemma {:induction false} PickWhere(xs: seq<Entry>, p: Pick, f: Entry -> bool, g: Entry -> bool)
    requires forall e :: (f(e) <==> Matches(e, p)) && (g(e) <==> !f(e))
    ensures Keep(xs, p) == Where(xs, f) && Drop(xs, p) == Where(xs, g)
  {
    if xs != [] {
      hide Where;
      hide Matches;
      var n := |xs| - 1;
      PickWhere(xs[..n], p, f, g);
      WhereLast(xs, f);
      WhereLast(xs, g);
      assert f(xs[n]) <==> Matches(xs[n], p);
    }
  }

  lemma {:induction false} ReqsAt(xs: seq<Entry>, k: nat)
    requires k < |xs|
    ensures Reqs(xs)[k] == xs[k].req
  {
    if k < |xs| - 1 { ReqsAt(xs[..|xs|-1], k); }
  }

  /** `ys` are the requests of the entries `xs`. */
  predicate RequestsOf(ys: seq<Req>, xs: seq<Entry>) {
    |ys| == |xs| && forall k :: 0 <= k < |xs| ==> ys[k] == xs[k].req
  }

  lemma ReqsOf(xs: seq<Entry>)
    ensures RequestsOf(Reqs(xs), xs)
  {
    forall k | 0 <= k < |xs|
      ensures Reqs(xs)[k] == xs[k].req
    {
      ReqsAt(xs, k);
    }
  }

  /** `big` is `small` followed by the requests of `xs`. */
  predicate Followed(big: seq<Req>, small: seq<Req>, xs: seq<Entry>) {
    small <= big && RequestsOf(big[|small|..], xs)
  }

  // ---------- the flush ----------

  /** A flush gives back the bank's buffered prefetches and nothing else, in order, and keeps every other
      entry in order. */
  lemma FlushSaid(s: Ctrl, bid: nat)
    requires bid < |s.banks|
    ensures var t := Flush(s, bid); var was, now := s.banks[bid], t.banks[bid];
            && now.buffer == Where(was.buffer, NotPrefetch()) && now.free == was.free + Where(was.buffer, IsPrefetch())
            && Followed(t.out.freed, s.out.freed, Where(was.buffer, IsPrefetch()))
            && now.current == was.current && s.total - t.total == |was.buffer| - |now.buffer|
            && t == s.(banks := s.banks[bid := now], out := s.out.(freed := t.out.freed), total := t.total)
  {
    var b := s.banks[bid];
    PickWhere(b.buffer, Prefetch, IsPrefetch(), NotPrefetch());
    KeepDropIn(b.buffer, Prefetch);
    ReqsOf(Keep(b.buffer, Prefetch));
  }

  lemma {:induction false} WhereAll(xs: seq<Entry>, f: Entry -> bool, g: Entry -> bool)
    requires forall e :: g(e) <==> !f(e)
    ensures Where(xs, f) == [] <==> forall e :: e in xs ==> !f(e)
    ensures Where(xs, f) == [] ==> Where(xs, g) == xs
  {
    if xs != [] { WhereAll(xs[1..], f, g); }
  }

  lemma AcceptSaid(s: Ctrl, a: Arrival)
    requires a.bid < |s.banks| && s.banks[a.bid].free != []
    ensures var t := Accept(s, a); var was, now := s.banks[a.bid], t.banks[a.bid];
            && Entered(now.buffer, was.buffer, a, s.cycle) && t.out == s.out
  {
  }

  /** The arrival is the last entry of `big`, after those of `small`. */
  predicate Entered(big: seq<Entry>, small: seq<Entry>, a: Arrival, now: nat) {
    && |big| > 0 && big[..|big|-1] == small
    && var e := big[|big|-1];
       e.req == a.req && e.addr == a.req.addr && e.size == a.req.size && e.rid == a.rid && e.cid == a.cid && e.timestamp == now
  }

  /** An arrival is refused exactly when the bank has no free entry and no prefetch to flush. Prefetches are
      flushed exactly when it has no free entry, and an accepted request joins the end of the buffer. */
  lemma InsertSaid(s: Ctrl, a: Arrival)
    requires a.bid < |s.banks|
    ensures var (t, ok) := Insert(s, a); var was, now := s.banks[a.bid], t.banks[a.bid];
            && (!ok <==> was.free == [] && forall e :: e in was.buffer ==> e.req.kind != DPrf)
            && (!ok ==> t == s)
            && (ok ==> Entered(now.buffer, if was.free == [] then Where(was.buffer, NotPrefetch()) else was.buffer, a, s.cycle))
            && Followed(t.out.freed, s.out.freed, if was.free == [] then Where(was.buffer, IsPrefetch()) else [])
  {
    var b := s.banks[a.bid];
    FlushSaid(s, a.bid);
    WhereAll(b.buffer, IsPrefetch(), NotPrefetch());
    hide Flush;
    hide Where;
    hide FlushBank;
    var t := if b.free == [] then Flush(s, a.bid) else s;
    if t.banks[a.bid].free != [] { AcceptSaid(t, a); }
    hide Accept;
  }

  // ---------- completion ----------

  /** `big` is `small` followed by the requests of `xs`, each made ready at cycle `at`. */
  predicate Postponed(big: seq<Req>, small: seq<Req>, xs: seq<Entry>, at: nat) {
    && small <= big && |big| == |small| + |xs|
    && forall k :: 0 <= k < |xs| ==> big[|small| + k] == xs[k].req.(rdyCycle := at)
  }

  /** The requests of `fin` that are write-backs are freed; the others go to the output buffer, or wait the
      additional latency if there is one. */
  predicate Answered(cfg: Config, o: Output, p: Output, fin: seq<Entry>, now: nat) {
    && Followed(p.freed, o.freed, Where(fin, IsWb())) && p.sent == o.sent
    && if cfg.additional == 0 then Followed(p.buffer, o.buffer, Where(fin, NotWb())) && p.delayed == o.delayed
       else Postponed(p.delayed, o.delayed, Where(fin, NotWb()), now + cfg.additional) && p.buffer == o.buffer
  }

  lemma FollowedMore(big: seq<Req>, small: seq<Req>, xs: seq<Entry>, e: Entry)
    requires Followed(big, small, xs)
    ensures Followed(big + [e.req], small, xs + [e]) && Followed(big, small, xs + [])
  {
    assert (big + [e.req])[|small|..] == big[|small|..] + [e.req];
    assert xs + [] == xs;
  }

  lemma PostponedMore(big: seq<Req>, small: seq<Req>, xs: seq<Entry>, e: Entry, at: nat)
    requires Postponed(big, small, xs, at)
    ensures Postponed(big + [e.req.(rdyCycle := at)], small, xs + [e], at) && Postponed(big, small, xs + [], at)
  {
    assert xs + [] == xs;
  }

  lemma RetireSaid(cfg: Config, o: Output, p: Output, fin: seq<Entry>, e: Entry, now: nat)
    requires Answered(cfg, o, p, fin, now)
    ensures Answered(cfg, o, Retire(cfg, p, e.req, now), fin + [e], now)
  {
    var all := fin + [e];
    assert all[..|all|-1] == fin && all[|all|-1] == e;
    WhereLast(all, IsWb());
    WhereLast(all, NotWb());
    FollowedMore(p.freed, o.freed, Where(fin, IsWb()), e);
    if cfg.additional == 0 {
      FollowedMore(p.buffer, o.buffer, Where(fin, NotWb()), e);
    } else {
      PostponedMore(p.delayed, o.delayed, Where(fin, NotWb()), e, now + cfg.additional);
    }
    hide Where;
    hide Followed;
    hide Postponed;
  }

  lemma {:induction false} RetireAllSaid(cfg: Config, o: Output, xs: seq<Entry>, now: nat)
    ensures Answered(cfg, o, RetireAll(cfg, o, xs, now), xs, now)
  {
    if xs != [] {
      hide Retire;
      hide Answered;
      var n := |xs| - 1;
      RetireAllSaid(cfg, o, xs[..n], now);
      RetireSaid(cfg, o, RetireAll(cfg, o, xs[..n], now), xs[..n], xs[n], now);
      assert xs == xs[..n] + [xs[n]];
    }
  }

  /** What a bank finishes: with merging the buffered requests to the current one's address, then the current
      one. */
  function Finishes(cfg: Config, b: Bank): seq<Entry>
    requires b.current.Some?
  {
    (if cfg.merge then Where(b.buffer, SameAddr(b.current.value.addr)) else []) + [b.current.value]
  }

  /** A bank whose data is through finishes those, keeps every other entry in order, and is idle; any other
      bank is left alone. */
  lemma CompleteSaid(cfg: Config, s: Ctrl, i: nat)
    requires i < |s.banks|
    ensures var t := CompleteOne(cfg, s, i); var was, now := s.banks[i], t.banks[i];
            if was.current.Some? && was.dataReady.At? && was.dataReady.t <= s.cycle then
              && Answered(cfg, s.out, t.out, Finishes(cfg, was), s.cycle)
              && now.buffer == (if cfg.merge then Where(was.buffer, OtherAddr(was.current.value.addr)) else was.buffer)
              && now.current.None? && t.banks == s.banks[i := now] && s.total - t.total == |Finishes(cfg, was)|
            else t == s
  {
    var b := s.banks[i];
    if Completes(b, s.cycle) {
      var a := b.current.value.addr;
      PickWhere(b.buffer, ByAddr(a), SameAddr(a), OtherAddr(a));
      RetireAllSaid(cfg, s.out, Finishes(cfg, b), s.cycle);
      var fin := Finishes(cfg, b);
      assert Merged(cfg, b) == fin[..|fin|-1];
      hide Answered;
      hide Where;
    }
  }

  // ---------- a whole cycle ----------

  lemma BanksSends(cfg: Config, s: Ctrl)
    ensures Banks(cfg, s).out.sent == s.out.sent
  {
    CompleteSends(cfg, s, |s.banks|);
  }

  lemma {:induction false} CompleteSends(cfg: Config, s: Ctrl, k: nat)
    requires k <= |s.banks|
    ensures CompleteUpTo(cfg, s, k).out.sent == s.out.sent
  {
    if k > 0 {
      CompleteSends(cfg, s, k - 1);
      CompleteSaid(cfg, CompleteUpTo(cfg, s, k - 1), k - 1);
      hide CompleteOne;
      hide Where;
      hide Followed;
      hide Postponed;
    }
  }

  /** A cycle injects only what waited in the output buffer when it began, and what it accepts is still buffered
      when it ends: nothing arrives, is served and leaves in one cycle. */
  lemma CycleSends(cfg: Config, s: Ctrl, accept: seq<bool>, arrival: Option<Arrival>)
    requires Shape(cfg, s) && |accept| == |s.out.buffer| && Placed(s, arrival)
    ensures var t := Tick(cfg, s, accept, arrival);
            && t.out.sent == Send(s, accept, cfg.vcPartition).out.sent && t.cycle == s.cycle + 1
            && (arrival.Some? && t.accepted != s.accepted ==>
                  var a := arrival.value; var xs := t.banks[a.bid].buffer;
                  |xs| > 0 && xs[|xs|-1].req == a.req && xs[|xs|-1].timestamp == s.cycle)
  {
    hide Banks;
    hide Channels;
    hide Send;
    var e := Emit(cfg, s, accept);
    EmitKeeps(cfg, s, accept);
    var b := Channels(cfg, e);
    ChannelsShape(cfg, e);
    ChannelsKeep(cfg, e);
    var c := Banks(cfg, b);
    BanksSends(cfg, b);
    BanksPointwise(cfg, b);
    BanksAccepted(cfg, b);
    if arrival.Some? { InsertKeeps(c, arrival.value); }
    hide Insert;
  }

  lemma EmitKeeps(cfg: Config, s: Ctrl, accept: seq<bool>)
    requires |accept| == |s.out.buffer|
    ensures var e := Emit(cfg, s, accept);
            && e.out.sent == Send(s, accept, cfg.vcPartition).out.sent && e.banks == s.banks && e.cycle == s.cycle
            && e.accepted == s.accepted && e.channels == s.channels
  {
    hide Pick1;
    hide SendMask;
  }

  lemma ChannelsKeep(cfg: Config, s: Ctrl)
    requires Shape(cfg, s)
    ensures var r := Channels(cfg, s); r.out == s.out && r.cycle == s.cycle && r.accepted == s.accepted && |r.banks| == |s.banks|
  {
    hide CmdUpTo;
    hide DataUpTo;
  }

  lemma BanksAccepted(cfg: Config, s: Ctrl)
    ensures Banks(cfg, s).accepted == s.accepted
  {
    CompleteUpToFrame(cfg, s, |s.banks|);
  }

  lemma InsertKeeps(s: Ctrl, a: Arrival)
    requires a.bid < |s.banks|
    ensures var t := Insert(s, a).0;
            && t.out.sent == s.out.sent && t.cycle == s.cycle && |t.banks| == |s.banks|
            && (t.accepted == s.accepted
                || (var xs := t.banks[a.bid].buffer;
                    |xs| > 0 && xs[|xs|-1].req == a.req && xs[|xs|-1].timestamp == s.cycle))
  {
    InsertSaid(s, a);
    hide Where;
    hide Followed;
  }
}
