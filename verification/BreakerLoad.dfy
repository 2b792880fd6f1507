/** How many calls a dead dependency sees when callers overlap: a bound for any window, and runs that
    attain it. */
module BreakerLoad {
  import opened CircuitBreaker
  import opened BreakerOverlap

  /** Every call fails, the clock is monotone, all within `width` of `from`, and at most k calls are in
      flight at once. */
  ghost predicate DeadDependency(c: Settings, acts: seq<Act>, from: real, width: real, k: nat) {
    && (forall i | 0 <= i < |acts| :: from <= acts[i].at <= from + width && (acts[i].Finish? ==> !acts[i].ok))
    && (forall i, j | 0 <= i < j < |acts| :: acts[i].at <= acts[j].at)
    && (forall i | 0 <= i <= |acts| :: |At(c, acts, i).inFlight| <= k)
  }

  /** k calls for each of n timeouts. */
  function Calls(k: nat, n: int): int {
    k * n
  }

  lemma CallsStep(k: nat, n: int)
    ensures Calls(k, n + 1) == Calls(k, n) + k && Calls(k, 0) == 0
  {
  }

  lemma CallsOrder(k: nat, m: int, n: int)
    requires m <= n
    ensures Calls(k, m) <= Calls(k, n)
  {
    assert Calls(k, n) - Calls(k, m) == k * (n - m);
  }

  ghost predicate Loaded(c: Settings, s: System, from: real, now: real, k: nat) {
    match s.view.mode
    case Closed => s.view.failCount < c.failMax && s.episodes == 0 && s.admitted == s.view.failCount + |s.inFlight|
    case Open =>
      && s.admitted <= c.failMax + k - 1 + Calls(k, s.episodes)
      && from + Span(s.episodes, c.resetTimeout) <= s.view.openedAt <= now && s.view.failCount >= c.failMax
    case HalfOpen =>
      && s.episodes >= 1 && s.admitted <= c.failMax + k - 1 + Calls(k, s.episodes - 1) + |s.inFlight|
      && from + Span(s.episodes, c.resetTimeout) <= now && s.view.failCount >= c.failMax
  }

  lemma StepStaysLoaded(c: Settings, s: System, a: Act, from: real, now: real, k: nat)
    requires c.resetTimeout > 0.0 && Loaded(c, s, from, now, k) && from <= now <= a.at
    requires a.Start? ==> a.id !in s.inFlight
    requires a.Finish? ==> !a.ok
    requires |s.inFlight| <= k && |Step(c, s, a).inFlight| <= k
    ensures Loaded(c, Step(c, s, a), from, a.at, k)
  {
    hide Span, Calls;
    SpanStep(s.episodes, c.resetTimeout);
    SpanOrder(0, 0, c.resetTimeout);
    CallsStep(k, s.episodes - 1);
  }

  lemma {:induction false} RunStaysLoaded(c: Settings, acts: seq<Act>, from: real, width: real, k: nat)
    requires c.resetTimeout > 0.0 && FreshIds(acts) && width >= 0.0 && DeadDependency(c, acts, from, width, k)
    ensures Loaded(c, After(c, acts), from, if acts == [] then from else acts[|acts| - 1].at, k)
  {
    if acts != [] {
      var n := |acts| - 1;
      var front, last := acts[..n], acts[n];
      PrefixIsDead(c, acts, from, width, k);
      RunStaysLoaded(c, front, from, width, k);
      if last.Start? && last.id in After(c, front).inFlight {
        assert At(c, front, n) == After(c, front) by { assert front[..n] == front; }
        StartedOrThere(c, front, 0, n, last.id);
        FreshStart(c, front);
      }
      assert acts[..n + 1] == acts;
      assert At(c, acts, n) == After(c, front) && At(c, acts, n + 1) == After(c, acts);
      hide At, After, Loaded;
      assert After(c, acts) == Step(c, After(c, front), last) by { LastStep(c, acts); }
      StepStaysLoaded(c, After(c, front), last, from, if front == [] then from else front[n - 1].at, k);
    }
  }

  lemma LastStep(c: Settings, acts: seq<Act>)
    requires acts != []
    ensures After(c, acts) == Step(c, After(c, acts[..|acts| - 1]), acts[|acts| - 1])
  {
  }

  lemma PrefixIsDead(c: Settings, acts: seq<Act>, from: real, width: real, k: nat)
    requires acts != [] && FreshIds(acts) && DeadDependency(c, acts, from, width, k)
    ensures var front := acts[..|acts| - 1]; FreshIds(front) && DeadDependency(c, front, from, width, k)
  {
    var front := acts[..|acts| - 1];
    forall i | 0 <= i <= |front| ensures At(c, front, i) == At(c, acts, i) {
      assert front[..i] == acts[..i];
    }
    hide At;
  }

  lemma CallsIs(k: nat, n: int)
    ensures Calls(k, n) == k * n
  {
  }

  lemma EpisodesFit(c: Settings, acts: seq<Act>, from: real, width: real, k: nat)
    requires c.resetTimeout > 0.0 && FreshIds(acts) && width >= 0.0 && DeadDependency(c, acts, from, width, k)
    ensures After(c, acts).episodes <= (width / c.resetTimeout).Floor
  {
    RunStaysLoaded(c, acts, from, width, k);
    var s := After(c, acts);
    hide Span, After, FreshIds;
    if s.view.mode != Closed {
      assert from + Span(s.episodes, c.resetTimeout) <= from + width;
    }
    WholeTimeouts(s.episodes, c.resetTimeout, width);
  }

  lemma LoadedBound(c: Settings, s: System, from: real, now: real, k: nat)
    requires Loaded(c, s, from, now, k) && |s.inFlight| <= k
    ensures s.admitted <= c.failMax + k - 1 + Calls(k, s.episodes)
  {
    hide Span, Calls;
    CallsStep(k, s.episodes - 1);
    CallsStep(k, 0);
  }

  /** At most k callers at a time on a dead dependency: in any window of length `width` from a fresh
      breaker at most fail_max + k - 1 calls to open it, and k for each timeout. With k = 1 this is the
      serial bound. */
  lemma ConcurrentLoadBound(c: Settings, acts: seq<Act>, from: real, width: real, k: nat)
    requires k >= 1 && c.resetTimeout > 0.0 && FreshIds(acts) && width >= 0.0 && DeadDependency(c, acts, from, width, k)
    ensures After(c, acts).admitted <= c.failMax + k - 1 + k * (width / c.resetTimeout).Floor
  {
    var s := After(c, acts);
    var e: int := s.episodes;
    RunStaysLoaded(c, acts, from, width, k);
    assert |s.inFlight| <= k by { assert At(c, acts, |acts|) == s by { assert acts[..|acts|] == acts; } }
    var timeouts := (width / c.resetTimeout).Floor;
    hide After, Span, FreshIds, Calls, DeadDependency, Loaded;
    LoadedBound(c, s, from, if acts == [] then from else acts[|acts| - 1].at, k);
    EpisodesFit(c, acts, from, width, k);
    CallsOrder(k, e, timeouts);
    CallsIs(k, timeouts);
  }

  // ---- The bound is reached: k callers at once whenever the breaker lets them ----

  function Fails(from: nat, n: nat, at: real): seq<Act> {
    seq(n, (i: nat) => Finish(from + i, at, false))
  }

  /** k calls that start together and fail together. */
  function Round(from: nat, k: nat, at: real): seq<Act> {
    Starts(from, k, at) + Fails(from, k, at)
  }

  /** The first id of round n; also how many calls came before it. */
  function FirstId(c: Settings, k: nat, n: nat): nat {
    if n == 0 then c.failMax - 1 else FirstId(c, k, n - 1) + k
  }

  /** One failure short of opening, then a round at once and a round after each of n timeouts. */
  function Peak(c: Settings, k: nat, n: nat): seq<Act> {
    (if n == 0 then Crowd(c, c.failMax - 1) else Peak(c, k, n - 1))
    + Round(FirstId(c, k, n), k, Span(n, c.resetTimeout))
  }

  function Ids(from: nat, n: nat): set<nat>
    decreases n
  {
    if n == 0 then {} else {from} + Ids(from + 1, n - 1)
  }

  lemma {:induction false} IdsAre(from: nat, n: nat)
    ensures |Ids(from, n)| == n && forall i :: i in Ids(from, n) <==> from <= i < from + n
    decreases n
  {
    if n > 0 {
      IdsAre(from + 1, n - 1);
    }
  }

  lemma IdsSize(from: nat, n: nat)
    ensures |Ids(from, n)| == n && Ids(from, 0) == {}
  {
    IdsAre(from, n);
  }

  lemma NextId(from: nat, n: nat)
    ensures Ids(from, n + 1) == Ids(from, n) + {from + n}
  {
    IdsAre(from, n);
    IdsAre(from, n + 1);
    hide Ids;
  }

  lemma EarliestId(from: nat, n: nat)
    ensures from in Ids(from, n + 1) && Ids(from, n + 1) - {from} == Ids(from + 1, n)
  {
    IdsAre(from, n + 1);
    IdsAre(from + 1, n);
    hide Ids;
  }

  /** A run of calls numbered from 0, the next number, and the time it has come to. */
  ghost predicate Orderly(c: Settings, acts: seq<Act>, k: nat, next: nat, now: real) {
    && FreshIds(acts) && DeadDependency(c, acts, 0.0, now, k) && now >= 0.0
    && forall i | 0 <= i < |acts| && acts[i].Start? :: acts[i].id < next
  }

  lemma OrderlySnoc(c: Settings, acts: seq<Act>, k: nat, next: nat, now: real, a: Act)
    requires Orderly(c, acts, k, next, now) && now <= a.at && (a.Start? ==> a.id == next) && (a.Finish? ==> !a.ok)
    requires |After(c, acts + [a]).inFlight| <= k
    ensures Orderly(c, acts + [a], k, if a.Start? then next + 1 else next, a.at)
  {
    var all := acts + [a];
    forall i | 0 <= i <= |all| ensures |At(c, all, i).inFlight| <= k {
      if i <= |acts| {
        assert all[..i] == acts[..i];
        assert |At(c, acts, i).inFlight| <= k;
      } else {
        assert all[..i] == all;
      }
    }
    hide At, After;
    assert FreshIds(all);
  }

  lemma AdmittedStart(c: Settings, s: System, a: Act)
    requires a.Start? && Admits(c, s.view, a.at)
    ensures var t := Step(c, s, a);
            && t.inFlight == s.inFlight + {a.id} && t.admitted == s.admitted + 1
            && t.view.failCount == s.view.failCount && t.view.mode != Open
            && forall later :: Admits(c, t.view, later)
  {
  }

  lemma FailedEnd(c: Settings, s: System, a: Act)
    requires a.Finish? && a.id in s.inFlight && !a.ok && s.view.failCount >= c.failMax - 1
    ensures var t := Step(c, s, a);
            && t.inFlight == s.inFlight - {a.id} && t.admitted == s.admitted
            && t.view.failCount == s.view.failCount + 1 && t.view.mode == Open && t.view.openedAt == a.at
  {
  }

  lemma StartsSnoc(acts: seq<Act>, from: nat, n: nat, at: real)
    ensures acts + Starts(from, n, at)
            == if n == 0 then acts else acts + Starts(from, n - 1, at) + [Start(from + n - 1, at)]
  {
  }

  lemma FailsSnoc(acts: seq<Act>, from: nat, n: nat, at: real)
    ensures acts + Fails(from, n, at)
            == if n == 0 then acts else acts + Fails(from, n - 1, at) + [Finish(from + n - 1, at, false)]
  {
  }

  /** One caller more on a breaker that admits. */
  lemma StartAdmits(c: Settings, acts: seq<Act>, k: nat, next: nat, now: real, at: real)
    requires Orderly(c, acts, k, next, now) && now <= at && |After(c, acts).inFlight + {next}| <= k
    requires Admits(c, After(c, acts).view, at)
    ensures var s, t := After(c, acts), After(c, acts + [Start(next, at)]);
            && t.inFlight == s.inFlight + {next} && t.admitted == s.admitted + 1
            && t.view.failCount == s.view.failCount && Admits(c, t.view, at)
    ensures Orderly(c, acts + [Start(next, at)], k, next + 1, at)
  {
    hide After, Orderly, Step, Admits;
    AfterSnoc(c, acts, Start(next, at));
    AdmittedStart(c, After(c, acts), Start(next, at));
    OrderlySnoc(c, acts, k, next, now, Start(next, at));
  }

  /** n callers on an idle breaker that admits. */
  lemma {:induction false} StartsAdmit(c: Settings, acts: seq<Act>, k: nat, next: nat, now: real, n: nat, at: real)
    requires Orderly(c, acts, k, next, now) && now <= at && 1 <= n <= k
    requires After(c, acts).inFlight == {} && Admits(c, After(c, acts).view, at)
    ensures var s, t := After(c, acts), After(c, acts + Starts(next, n, at));
            && t.inFlight == Ids(next, n) && t.admitted == s.admitted + n && t.view.failCount == s.view.failCount
            && Admits(c, t.view, at)
    ensures Orderly(c, acts + Starts(next, n, at), k, next + n, at)
    decreases n
  {
    hide After, Orderly, Ids, Admits, Starts;
    StartsSnoc(acts, next, n, at);
    NextId(next, n - 1);
    IdsSize(next, n);
    if n == 1 {
      StartsSnoc(acts, next, 0, at);
      StartAdmits(c, acts, k, next, now, at);
    } else {
      StartsAdmit(c, acts, k, next, now, n - 1, at);
      StartAdmits(c, acts + Starts(next, n - 1, at), k, next + n - 1, at, at);
    }
  }

  /** n of the k calls in flight fail: the first failure opens the breaker, each later one stamps it again. */
  lemma {:induction false} FailsOpen(c: Settings, acts: seq<Act>, k: nat, next: nat, from: nat, n: nat, at: real)
    requires Orderly(c, acts, k, next, at) && n <= k
    requires After(c, acts).inFlight == Ids(from, k) && After(c, acts).view.failCount >= c.failMax - 1
    ensures var s, t := After(c, acts), After(c, acts + Fails(from, n, at));
            && t.inFlight == Ids(from + n, k - n) && t.admitted == s.admitted
            && t.view.failCount == s.view.failCount + n && (n > 0 ==> t.view.mode == Open && t.view.openedAt == at)
    ensures Orderly(c, acts + Fails(from, n, at), k, next, at)
    decreases n
  {
    hide After, Orderly, Ids, Step, Fails;
    FailsSnoc(acts, from, n, at);
    if n > 0 {
      var before := acts + Fails(from, n - 1, at);
      FailsOpen(c, acts, k, next, from, n - 1, at);
      var a := Finish(from + n - 1, at, false);
      AfterSnoc(c, before, a);
      EarliestId(from + n - 1, k - n);
      IdsSize(from + n, k - n);
      FailedEnd(c, After(c, before), a);
      OrderlySnoc(c, before, k, next, at, a);
    }
  }

  /** A round on an idle breaker one failure short of opening, or open and due. */
  lemma RoundOpens(c: Settings, acts: seq<Act>, k: nat, next: nat, now: real, at: real)
    requires k >= 1 && Orderly(c, acts, k, next, now) && now <= at
    requires var s := After(c, acts); s.inFlight == {} && Admits(c, s.view, at) && s.view.failCount >= c.failMax - 1
    ensures var s, t := After(c, acts), After(c, acts + Round(next, k, at));
            && t.inFlight == {} && t.admitted == s.admitted + k && t.view.failCount >= c.failMax
            && t.view.mode == Open && t.view.openedAt == at
    ensures Orderly(c, acts + Round(next, k, at), k, next + k, at)
  {
    hide After, Orderly;
    StartsAdmit(c, acts, k, next, now, k, at);
    FailsOpen(c, acts + Starts(next, k, at), k, next + k, next, k, at);
    assert acts + Round(next, k, at) == acts + Starts(next, k, at) + Fails(next, k, at);
    assert Ids(next + k, 0) == {};
  }

  lemma OneMore(c: Settings, s: System, a: Act)
    ensures |Step(c, s, a).inFlight| <= |s.inFlight| + 1
  {
  }

  lemma NothingIsOrderly(c: Settings, k: nat)
    ensures Orderly(c, [], k, 0, 0.0)
  {
    FreshStart(c, []);
  }

  lemma {:induction false} CrowdIsOrderly(c: Settings, k: nat, n: nat)
    requires k >= 1 && n <= c.failMax
    ensures Orderly(c, Crowd(c, n), k, n, 0.0)
  {
    hide After, Orderly, Step;
    if n == 0 {
      NothingIsOrderly(c, k);
    } else {
      var before, a, b := Crowd(c, n - 1), Start(n - 1, 0.0), Finish(n - 1, 0.0, false);
      CrowdIsOrderly(c, k, n - 1);
      CrowdOpens(c, n - 1);
      CrowdOpens(c, n);
      AfterSnoc(c, before, a);
      OneMore(c, After(c, before), a);
      assert before + [a] + [b] == Crowd(c, n);
      hide Crowd;
      OrderlySnoc(c, before, k, n - 1, 0.0, a);
      OrderlySnoc(c, before + [a], k, n, 0.0, b);
    }
  }

  lemma {:induction false} PeakOpens(c: Settings, k: nat, n: nat)
    requires k >= 1 && c.resetTimeout > 0.0
    ensures Orderly(c, Peak(c, k, n), k, FirstId(c, k, n + 1), Span(n, c.resetTimeout))
    ensures var s := After(c, Peak(c, k, n));
            && s.inFlight == {} && s.admitted == FirstId(c, k, n + 1) && s.view.failCount >= c.failMax
            && s.view.mode == Open && s.view.openedAt == Span(n, c.resetTimeout)
  {
    hide After, Orderly, Span, Round, Crowd;
    SpanOrder(0, n, c.resetTimeout);
    if n == 0 {
      CrowdIsOrderly(c, k, c.failMax - 1);
      CrowdOpens(c, c.failMax - 1);
      RoundOpens(c, Crowd(c, c.failMax - 1), k, FirstId(c, k, 0), 0.0, 0.0);
    } else {
      PeakOpens(c, k, n - 1);
      SpanStep(n - 1, c.resetTimeout);
      RoundOpens(c, Peak(c, k, n - 1), k, FirstId(c, k, n), Span(n - 1, c.resetTimeout), Span(n, c.resetTimeout));
    }
  }

  lemma {:induction false} FirstIdIs(c: Settings, k: nat, n: nat)
    ensures FirstId(c, k, n) == c.failMax - 1 + k * n
  {
    if n > 0 {
      FirstIdIs(c, k, n - 1);
      assert k * n == k * (n - 1) + k;
    }
  }

  lemma WholeSpan(n: nat, timeout: real)
    requires timeout > 0.0
    ensures Span(n, timeout) >= 0.0 && (Span(n, timeout) / timeout).Floor == n
  {
    assert Span(n, timeout) / timeout == n as real;
  }

  lemma PeakRuns(c: Settings, k: nat, n: nat)
    requires k >= 1 && c.resetTimeout > 0.0
    ensures FreshIds(Peak(c, k, n)) && DeadDependency(c, Peak(c, k, n), 0.0, Span(n, c.resetTimeout), k)
  {
    PeakOpens(c, k, n);
    hide Peak, Span;
  }

  /** For every fail_max, reset timeout, number k of callers and number n of timeouts: in the first n
      timeouts the bound is attained. */
  lemma ConcurrentBoundIsReached(c: Settings, k: nat, n: nat)
    requires k >= 1 && c.resetTimeout > 0.0
    ensures var acts, width := Peak(c, k, n), Span(n, c.resetTimeout);
            && FreshIds(acts) && width >= 0.0 && DeadDependency(c, acts, 0.0, width, k)
            && (width / c.resetTimeout).Floor == n
            && After(c, acts).admitted == c.failMax + k - 1 + k * n
  {
    hide After, Peak, Span, Orderly;
    WholeSpan(n, c.resetTimeout);
    assert FreshIds(Peak(c, k, n)) && DeadDependency(c, Peak(c, k, n), 0.0, Span(n, c.resetTimeout), k) by {
      PeakRuns(c, k, n);
    }
    PeakOpens(c, k, n);
    FirstIdIs(c, k, n + 1);
    assert k * (n + 1) == k * n + k;
  }
}
