/** The circuit breaker: its class, its invariant under every interleaving of the calls it
    admits, and the load a dead dependency can see. */
module CircuitBreaker {

  datatype Mode = Closed | Open | HalfOpen

  datatype View = View(mode: Mode, failCount: nat, openedAt: real)

  /** fail_max and reset_timeout_s; the constructor refuses fail_max < 1. */
  datatype Config = Config(failMax: nat, resetTimeout: real)

  type Settings = c: Config | 1 <= c.failMax witness Config(1, 0.0)

  const FRESH := View(Closed, 0, 0.0)

  /** A due OPEN to HALF_OPEN transition is made when the state is read. */
  function Resolve(c: Settings, v: View, now: real): View {
    if v.mode == Open && now - v.openedAt >= c.resetTimeout then v.(mode := HalfOpen) else v
  }

  predicate Admits(c: Settings, v: View, now: real) {
    Resolve(c, v, now).mode != Open
  }

  function OnSuccess(v: View): View {
    v.(mode := Closed, failCount := 0)
  }

  function OnFailure(c: Settings, v: View, now: real): View {
    var counted := v.(failCount := v.failCount + 1);
    if v.mode == HalfOpen || counted.failCount >= c.failMax then counted.(mode := Open, openedAt := now) else counted
  }

  datatype Outcome = Rejected | Succeeded | Failed

  /** One serial call: admission at `start`, the function's outcome recorded at `end`. */
  function Call(c: Settings, v: View, start: real, ok: bool, end: real): (View, Outcome) {
    var w := Resolve(c, v, start);
    if w.mode == Open then (w, Rejected)
    else if ok then (OnSuccess(w), Succeeded)
    else (OnFailure(c, w, end), Failed)
  }

  // ---- Every interleaving of admitted calls ----

  /** Critical sections in the order they take the lock. Nothing ties a completion to an
      admission: the results below hold however calls overlap. */
  datatype Event = Read(now: real) | Success | Failure(now: real)

  function Apply(c: Settings, v: View, e: Event): View {
    match e
    case Read(now) => Resolve(c, v, now)
    case Success => OnSuccess(v)
    case Failure(now) => OnFailure(c, v, now)
  }

  function Replay(c: Settings, events: seq<Event>): View {
    if events == [] then FRESH else Apply(c, Replay(c, events[..|events| - 1]), events[|events| - 1])
  }

  /** Length of the run of failures the completions end with. */
  function TrailingFailures(events: seq<Event>): nat {
    if events == [] then 0
    else
      var rest := events[..|events| - 1];
      match events[|events| - 1]
      case Read(_) => TrailingFailures(rest)
      case Success => 0
      case Failure(_) => TrailingFailures(rest) + 1
  }

  predicate Consistent(c: Settings, v: View) {
    v.mode == Closed <==> v.failCount < c.failMax
  }

  /** The breaker is closed exactly while fewer than fail_max failures trail the last success,
      whatever the interleaving; so when a failure arrives in HALF_OPEN the count alone
      already reopens it, and the HALF_OPEN test in the failure handler is implied. */
  lemma {:induction false} StateCountsTrailingFailures(c: Settings, events: seq<Event>)
    ensures var v := Replay(c, events);
            && v.failCount == TrailingFailures(events)
            && Consistent(c, v)
            && (v.mode == HalfOpen ==> v.failCount + 1 >= c.failMax)
  {
    if events != [] {
      StateCountsTrailingFailures(c, events[..|events| - 1]);
    }
  }

  lemma Replayed(c: Settings, events: seq<Event>, e: Event)
    ensures Replay(c, events + [e]) == Apply(c, Replay(c, events), e)
  {
    assert (events + [e])[..|events|] == events;
  }

  /** A failure after any history: what it leaves, and until when callers are refused. */
  lemma FailureCounted(c: Settings, events: seq<Event>, now: real)
    ensures var v := OnFailure(c, Replay(c, events), now); var all := events + [Failure(now)];
            && v == Replay(c, all) && v.failCount == TrailingFailures(all) == TrailingFailures(events) + 1
            && (v.mode == Closed <==> TrailingFailures(all) < c.failMax)
            && (v.mode != Closed ==> forall later :: Admits(c, v, later) <==> later >= now + c.resetTimeout)
  {
    Replayed(c, events, Failure(now));
    StateCountsTrailingFailures(c, events);
    StateCountsTrailingFailures(c, events + [Failure(now)]);
    assert (events + [Failure(now)])[..|events|] == events;
    hide Replay;
  }

  // ---- The class ----

  /** The fields behind the lock; each method is one critical section, the clock its argument. `history`
      is every critical section so far, in lock order, whatever calls they belong to. */
  class Breaker {
    const settings: Settings
    var mode: Mode
    var failCount: nat
    var openedAt: real
    ghost var history: seq<Event>

    function Now(): View
      reads this
    {
      View(mode, failCount, openedAt)
    }

    ghost predicate Valid()
      reads this
    {
      Now() == Replay(settings, history)
    }

    /** Closed exactly while fewer than fail_max failures have come since the last success. */
    ghost predicate CountsFailures()
      reads this
    {
      && failCount == TrailingFailures(history)
      && (mode == Closed <==> TrailingFailures(history) < settings.failMax)
    }

    constructor (settings: Settings)
      ensures Valid() && CountsFailures() && history == [] && this.settings == settings
    {
      this.settings := settings;
      mode, failCount, openedAt, history := Closed, 0, 0.0, [];
    }

    /** Reading the state only ever turns a due OPEN into HALF_OPEN. */
    method ResolveState(now: real) returns (state: Mode)
      requires Valid()
      modifies this
      ensures Valid() && CountsFailures() && history == old(history) + [Read(now)]
      ensures Now() == Resolve(settings, old(Now()), now) && state == mode
      ensures state == Closed <==> old(mode) == Closed
    {
      Replayed(settings, history, Read(now));
      if mode == Open && now - openedAt >= settings.resetTimeout {
        mode := HalfOpen;
      }
      history := history + [Read(now)];
      StateCountsTrailingFailures(settings, history);
      return mode;
    }

    /** The locked first half of a call. */
    method Admit(now: real) returns (admitted: bool)
      requires Valid()
      modifies this
      ensures Valid() && CountsFailures() && history == old(history) + [Read(now)]
      ensures Now() == Resolve(settings, old(Now()), now)
      ensures admitted <==> Admits(settings, old(Now()), now)
    {
      var state := ResolveState(now);
      admitted := state != Open;
    }

    /** One success closes the breaker, whatever came before. */
    method RecordSuccess()
      requires Valid()
      modifies this
      ensures Valid() && CountsFailures() && history == old(history) + [Success]
      ensures mode == Closed && failCount == 0 && Now() == OnSuccess(old(Now()))
    {
      Replayed(settings, history, Success);
      failCount := 0;
      mode := Closed;
      history := history + [Success];
      StateCountsTrailingFailures(settings, history);
    }

    /** A failure opens the breaker exactly when it is at least the fail_max-th in a row, and then for a
        whole reset timeout from now. */
    method RecordFailure(now: real)
      requires Valid()
      modifies this
      ensures Valid() && CountsFailures() && history == old(history) + [Failure(now)]
      ensures Now() == OnFailure(settings, old(Now()), now)
      ensures if TrailingFailures(old(history)) + 1 < settings.failMax then mode == Closed
              else forall later :: Admits(settings, Now(), later) <==> later >= now + settings.resetTimeout
    {
      FailureCounted(settings, history, now);
      hide Replay, TrailingFailures, Admits;
      failCount := failCount + 1;
      if mode == HalfOpen || failCount >= settings.failMax {
        mode := Open;
        openedAt := now;
      }
      history := history + [Failure(now)];
    }

    /** An undisturbed call: rejected on an open breaker, and recorded otherwise. */
    method Perform(start: real, ok: bool, end: real) returns (outcome: Outcome)
      requires Valid()
      modifies this
      ensures Valid() && CountsFailures()
      ensures (Now(), outcome) == Call(settings, old(Now()), start, ok, end)
      ensures history == old(history) + [Read(start)]
                         + (match outcome case Rejected => [] case Succeeded => [Success] case Failed => [Failure(end)])
      ensures outcome == Rejected ==> mode == Open && TrailingFailures(history) >= settings.failMax
    {
      hide Replay, TrailingFailures;
      var admitted := Admit(start);
      if !admitted {
        return Rejected;
      }
      if ok {
        RecordSuccess();
        return Succeeded;
      }
      RecordFailure(end);
      return Failed;
    }
  }

  // ---- Serial trials ----

  /** A serial caller's failed trial shuts the door again for a whole reset timeout. */
  lemma FailedTrialReopens(c: Settings, v: View, start: real, end: real, now: real)
    requires Consistent(c, v) && v.mode != Closed && Admits(c, v, start)
    ensures var after := Call(c, v, start, false, end).0;
            Admits(c, after, now) <==> now >= end + c.resetTimeout
  {
  }

  // ---- Load on a dependency that never answers ----

  datatype Attempt = Attempt(start: real, end: real)

  /** Serial callers under a monotone clock, all inside the window [from, from + width]. */
  ghost predicate SerialWithin(attempts: seq<Attempt>, from: real, width: real) {
    && (forall i | 0 <= i < |attempts| ::
          from <= attempts[i].start <= attempts[i].end && attempts[i].start <= from + width)
    && (forall i, j | 0 <= i < j < |attempts| :: attempts[i].end <= attempts[j].start)
  }

  function AfterAll(c: Settings, v: View, attempts: seq<Attempt>): View {
    if attempts == [] then v
    else
      var last := attempts[|attempts| - 1];
      Call(c, AfterAll(c, v, attempts[..|attempts| - 1]), last.start, false, last.end).0
  }

  /** How many of the calls got through to the (always failing) dependency. */
  function Admitted(c: Settings, v: View, attempts: seq<Attempt>): nat {
    if attempts == [] then 0
    else
      var before := attempts[..|attempts| - 1];
      Admitted(c, v, before) + if Admits(c, AfterAll(c, v, before), attempts[|attempts| - 1].start) then 1 else 0
  }

  /** k reset timeouts. */
  function Span(k: int, timeout: real): real {
    k as real * timeout
  }

  lemma SpanStep(k: int, timeout: real)
    ensures Span(k + 1, timeout) == Span(k, timeout) + timeout
  {
  }

  lemma SpanOrder(a: int, b: int, timeout: real)
    requires a <= b && timeout > 0.0
    ensures Span(a, timeout) <= Span(b, timeout) && Span(0, timeout) == 0.0
  {
    assert Span(b, timeout) - Span(a, timeout) == (b - a) as real * timeout;
  }

  /** After the first fail_max of them, admitted calls are a reset timeout apart. */
  lemma {:induction false} AdmissionsAreSpaced(c: Settings, v: View, attempts: seq<Attempt>, from: real, width: real)
    requires Consistent(c, v) && c.resetTimeout > 0.0 && SerialWithin(attempts, from, width)
    ensures var w := AfterAll(c, v, attempts); var n := Admitted(c, v, attempts);
            && Consistent(c, w)
            && (w.mode == Closed ==> n <= w.failCount)
            && (w.mode != Closed && n > 0 ==>
                  && Span(n - c.failMax, c.resetTimeout) <= w.openedAt - from
                  && w.openedAt <= attempts[|attempts| - 1].end)
            && (n <= c.failMax || Span(n - c.failMax, c.resetTimeout) <= width)
  {
    hide Span;
    if attempts != [] {
      var k := |attempts| - 1;
      var before, last := attempts[..k], attempts[k];
      AdmissionsAreSpaced(c, v, before, from, width);
      var n := Admitted(c, v, before);
      SpanStep(n - c.failMax, c.resetTimeout);
      if n + 1 <= c.failMax {
        SpanOrder(n + 1 - c.failMax, 0, c.resetTimeout);
      }
    }
  }

  /** In any window of length `width`, from any state a breaker can be in, at most
      fail_max + floor(width / reset_timeout) calls reach a dependency that always fails. */
  lemma LoadBound(c: Settings, v: View, attempts: seq<Attempt>, from: real, width: real)
    requires Consistent(c, v) && c.resetTimeout > 0.0 && width >= 0.0 && SerialWithin(attempts, from, width)
    ensures Admitted(c, v, attempts) <= c.failMax + (width / c.resetTimeout).Floor
  {
    hide SerialWithin, Admitted;
    AdmissionsAreSpaced(c, v, attempts, from, width);
    WholeTimeouts(Admitted(c, v, attempts) - c.failMax, c.resetTimeout, width);
  }

  lemma WholeTimeouts(k: int, timeout: real, width: real)
    requires timeout > 0.0 && width >= 0.0 && (k <= 0 || Span(k, timeout) <= width)
    ensures k <= (width / timeout).Floor
  {
    var quotient := width / timeout;
    assert quotient * timeout == width;
    if k > 0 {
      assert (k as real - quotient) * timeout <= 0.0;
      assert k as real <= quotient;
    }
  }

  // ---- The bound is reached: fail_max calls at once, then one per timeout ----

  function BurstTime(c: Settings, i: nat): real {
    Span(if i < c.failMax then 0 else i + 1 - c.failMax, c.resetTimeout)
  }

  function Burst(c: Settings, n: nat): seq<Attempt> {
    seq(n, (i: nat) => Attempt(BurstTime(c, i), BurstTime(c, i)))
  }

  lemma BoundIsReached(c: Settings, trials: nat)
    requires c.resetTimeout > 0.0
    ensures SerialWithin(Burst(c, c.failMax + trials), 0.0, Span(trials, c.resetTimeout))
    ensures Admitted(c, FRESH, Burst(c, c.failMax + trials)) == c.failMax + trials
  {
    BurstTimes(c, c.failMax + trials);
    BurstAdmitted(c, c.failMax + trials);
  }

  lemma BurstTimes(c: Settings, n: nat)
    requires c.resetTimeout > 0.0 && n >= c.failMax
    ensures SerialWithin(Burst(c, n), 0.0, Span(n - c.failMax, c.resetTimeout))
  {
    hide Span;
    forall i, j | 0 <= i <= j < n
      ensures 0.0 <= BurstTime(c, i) <= BurstTime(c, j) <= Span(n - c.failMax, c.resetTimeout)
    {
      var a, b := if i < c.failMax then 0 else i + 1 - c.failMax, if j < c.failMax then 0 else j + 1 - c.failMax;
      SpanOrder(0, a, c.resetTimeout);
      SpanOrder(a, b, c.resetTimeout);
      SpanOrder(b, n - c.failMax, c.resetTimeout);
    }
  }

  lemma {:induction false} BurstAdmitted(c: Settings, n: nat)
    requires c.resetTimeout > 0.0
    ensures Admitted(c, FRESH, Burst(c, n)) == n
    ensures var w := AfterAll(c, FRESH, Burst(c, n));
            if n < c.failMax then w.mode == Closed && w.failCount == n
            else w.mode == Open && w.failCount >= c.failMax && w.openedAt == BurstTime(c, n - 1)
  {
    hide Span;
    if n > 0 {
      BurstAdmitted(c, n - 1);
      assert Burst(c, n)[..n - 1] == Burst(c, n - 1);
      SpanStep(n - 1 - c.failMax, c.resetTimeout);
      SpanOrder(0, 0, c.resetTimeout);
    }
  }
}
