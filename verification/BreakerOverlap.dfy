/** The breaker under overlapping callers: which calls become trials, and when a timeout lets more than
    one through. */
module BreakerOverlap {
  import opened CircuitBreaker

  /** The two critical sections of a call, by call id, and a read of the public state. */
  datatype Act = Start(id: nat, at: real) | Look(at: real) | Finish(id: nat, at: real, ok: bool)

  /** The breaker, the calls that are inside the dependency, how many were ever let through, and how
      often OPEN has turned to HALF_OPEN. */
  datatype System = System(view: View, inFlight: set<nat>, admitted: nat, episodes: nat)

  /** Every read of the state may turn a due OPEN into HALF_OPEN. */
  function Read(c: Settings, s: System, at: real): System {
    var v := Resolve(c, s.view, at);
    s.(view := v, episodes := s.episodes + if v.mode == s.view.mode then 0 else 1)
  }

  /** Only calls in flight finish. */
  function Step(c: Settings, s: System, a: Act): System {
    match a
    case Start(id, at) =>
      var read := Read(c, s, at);
      if read.view.mode == Open then read
      else read.(inFlight := s.inFlight + {id}, admitted := s.admitted + 1)
    case Look(at) => Read(c, s, at)
    case Finish(id, at, ok) =>
      if id !in s.inFlight then s
      else s.(view := if ok then OnSuccess(s.view) else OnFailure(c, s.view, at), inFlight := s.inFlight - {id})
  }

  /** From a fresh breaker. */
  function After(c: Settings, acts: seq<Act>): System {
    if acts == [] then System(FRESH, {}, 0, 0)
    else Step(c, After(c, acts[..|acts| - 1]), acts[|acts| - 1])
  }

  function At(c: Settings, acts: seq<Act>, k: nat): System
    requires k <= |acts|
  {
    After(c, acts[..k])
  }

  lemma AtStep(c: Settings, acts: seq<Act>, k: nat)
    requires k < |acts|
    ensures At(c, acts, k + 1) == Step(c, At(c, acts, k), acts[k])
  {
    assert acts[..k + 1][..k] == acts[..k];
  }

  /** Act k is a call let through in HALF_OPEN. */
  predicate Trial(c: Settings, acts: seq<Act>, k: nat) {
    k < |acts| && acts[k].Start? && At(c, acts, k + 1).view.mode == HalfOpen
  }

  /** Act k ends a call. */
  predicate Ends(c: Settings, acts: seq<Act>, k: nat) {
    k < |acts| && acts[k].Finish? && acts[k].id in At(c, acts, k).inFlight
  }

  /** One expiry of the reset timeout lets two trials through. */
  ghost predicate TwoTrials(c: Settings, acts: seq<Act>) {
    exists j, k | 0 <= j < k < |acts| ::
      Trial(c, acts, j) && Trial(c, acts, k) && At(c, acts, j + 1).episodes == At(c, acts, k + 1).episodes
  }

  /** A call starts, k, after a trial, j, and before anything has finished since. */
  predicate Joins(c: Settings, acts: seq<Act>, j: nat, k: nat) {
    && j < k < |acts| && Trial(c, acts, j) && acts[k].Start?
    && forall m | j < m < k :: !Ends(c, acts, m)
  }

  // ---- When a timeout lets two trials through ----

  /** HALF_OPEN lasts until a call ends, whoever starts. */
  lemma {:induction false} HalfOpenLasts(c: Settings, acts: seq<Act>, j: nat, k: nat)
    requires j <= k <= |acts| && At(c, acts, j).view.mode == HalfOpen
    requires forall m | j <= m < k :: !Ends(c, acts, m)
    ensures At(c, acts, k).view == At(c, acts, j).view && At(c, acts, k).episodes == At(c, acts, j).episodes
    ensures At(c, acts, j).inFlight <= At(c, acts, k).inFlight
    decreases k - j
  {
    if j < k {
      HalfOpenLasts(c, acts, j, k - 1);
      AtStep(c, acts, k - 1);
      assert !Ends(c, acts, k - 1);
    }
  }

  /** Back to HALF_OPEN takes another expiry. */
  lemma {:induction false} NewEpisode(c: Settings, acts: seq<Act>, n: nat, k: nat)
    requires n <= k <= |acts|
    ensures At(c, acts, n).episodes <= At(c, acts, k).episodes
    ensures At(c, acts, n).view.mode != HalfOpen && At(c, acts, k).view.mode == HalfOpen ==>
              At(c, acts, n).episodes < At(c, acts, k).episodes
    decreases k - n
  {
    hide At;
    if n < k {
      NewEpisode(c, acts, n, k - 1);
      AtStep(c, acts, k - 1);
    }
  }

  /** A call that ends in HALF_OPEN closes or opens the breaker. */
  lemma EndLeavesHalfOpen(c: Settings, acts: seq<Act>, m: nat)
    requires Ends(c, acts, m) && At(c, acts, m).view.mode == HalfOpen
    ensures At(c, acts, m + 1).view.mode != HalfOpen && At(c, acts, m + 1).episodes == At(c, acts, m).episodes
  {
    AtStep(c, acts, m);
    hide At;
  }

  /** One timeout lets two trials through exactly when a call starts after a trial before any call has
      finished since. */
  lemma TwoTrialsExactlyWhenJoined(c: Settings, acts: seq<Act>)
    ensures TwoTrials(c, acts) <==> exists j: nat, k: nat :: Joins(c, acts, j, k)
  {
    hide At, Ends;
    forall j: nat, k: nat | Joins(c, acts, j, k) ensures TwoTrials(c, acts) {
      HalfOpenLasts(c, acts, j + 1, k);
      AtStep(c, acts, k);
      assert Trial(c, acts, k);
    }
    forall j, k | 0 <= j < k < |acts| && Trial(c, acts, j) && Trial(c, acts, k)
                  && At(c, acts, j + 1).episodes == At(c, acts, k + 1).episodes
      ensures Joins(c, acts, j, k)
    {
      if exists m :: j < m < k && Ends(c, acts, m) {
        var m := FirstEnd(c, acts, j, k);
        HalfOpenLasts(c, acts, j + 1, m);
        EndLeavesHalfOpen(c, acts, m);
        NewEpisode(c, acts, m + 1, k + 1);
      }
    }
  }

  lemma FirstEnd(c: Settings, acts: seq<Act>, j: nat, k: nat) returns (m: nat)
    requires exists n :: j < n < k && Ends(c, acts, n)
    ensures j < m < k && Ends(c, acts, m) && forall n | j < n < m :: !Ends(c, acts, n)
    decreases k
  {
    var n :| j < n < k && Ends(c, acts, n);
    if exists n' :: j < n' < n && Ends(c, acts, n') {
      m := FirstEnd(c, acts, j, n);
    } else {
      m := n;
    }
  }

  // ---- What callers can see to ----

  /** Every call has an id of its own. */
  predicate FreshIds(acts: seq<Act>) {
    forall i, j | 0 <= i < j < |acts| && acts[i].Start? && acts[j].Start? :: acts[i].id != acts[j].id
  }

  /** Act k finds the timeout expired. */
  predicate Expires(c: Settings, acts: seq<Act>, k: nat) {
    k < |acts| && At(c, acts, k).view.mode == Open && At(c, acts, k + 1).view.mode == HalfOpen
  }

  /** When a timeout is found expired no earlier call is still running. */
  predicate Drained(c: Settings, acts: seq<Act>) {
    forall k | 0 <= k < |acts| && Expires(c, acts, k) :: At(c, acts, k).inFlight == {}
  }

  /** Call k starts while trial j is running. */
  predicate StartsDuring(c: Settings, acts: seq<Act>, j: nat, k: nat) {
    j < k < |acts| && Trial(c, acts, j) && acts[k].Start? && acts[j].id in At(c, acts, k).inFlight
  }

  /** A call that runs in HALF_OPEN has a trial of that time beside it, or is one. */
  lemma {:induction false} HalfOpenHasTrial(c: Settings, acts: seq<Act>, k: nat) returns (j: nat)
    requires Drained(c, acts) && k <= |acts| && At(c, acts, k).view.mode == HalfOpen && At(c, acts, k).inFlight != {}
    ensures j < k && Trial(c, acts, j) && At(c, acts, j + 1).episodes == At(c, acts, k).episodes
    decreases k
  {
    hide At;
    FreshStart(c, acts);
    AtStep(c, acts, k - 1);
    if acts[k - 1].Start? {
      j := k - 1;
    } else {
      assert !Expires(c, acts, k - 1);
      j := HalfOpenHasTrial(c, acts, k - 1);
    }
  }

  lemma FreshStart(c: Settings, acts: seq<Act>)
    ensures At(c, acts, 0) == System(FRESH, {}, 0, 0)
  {
  }

  /** A call in flight at k was in flight at n, or started between. */
  lemma {:induction false} StartedOrThere(c: Settings, acts: seq<Act>, n: nat, k: nat, id: nat)
    requires n <= k <= |acts| && id in At(c, acts, k).inFlight
    ensures id in At(c, acts, n).inFlight || exists m | n <= m < k :: acts[m].Start? && acts[m].id == id
    decreases k - n
  {
    hide At;
    if n < k {
      AtStep(c, acts, k - 1);
      if !(acts[k - 1].Start? && acts[k - 1].id == id) {
        StartedOrThere(c, acts, n, k - 1, id);
      }
    }
  }

  /** Once ended, a call stays ended. */
  lemma EndedStaysEnded(c: Settings, acts: seq<Act>, j: nat, m: nat, k: nat)
    requires FreshIds(acts) && j < m < k <= |acts| && acts[j].Start? && acts[m].Finish? && acts[m].id == acts[j].id
    ensures acts[j].id !in At(c, acts, k).inFlight
  {
    hide At;
    AtStep(c, acts, m);
    if acts[j].id in At(c, acts, k).inFlight {
      StartedOrThere(c, acts, m + 1, k, acts[j].id);
    }
  }

  /** With calls of an earlier time out of the way, the comment's "exactly this trial" holds if and only
      if no call starts while a trial is running. */
  lemma OneTrialExactlyWhenNoOverlap(c: Settings, acts: seq<Act>)
    requires FreshIds(acts) && Drained(c, acts)
    ensures TwoTrials(c, acts) <==> exists j: nat, k: nat :: StartsDuring(c, acts, j, k)
  {
    hide At, Ends, TwoTrials;
    TwoTrialsExactlyWhenJoined(c, acts);
    forall j: nat, k: nat | Joins(c, acts, j, k) ensures StartsDuring(c, acts, j, k) {
      AtStep(c, acts, j);
      HalfOpenLasts(c, acts, j + 1, k);
    }
    forall j: nat, k: nat | StartsDuring(c, acts, j, k) ensures TwoTrials(c, acts) {
      OverlapMakesTwo(c, acts, j, k);
    }
  }

  lemma OverlapMakesTwo(c: Settings, acts: seq<Act>, j: nat, k: nat)
    requires FreshIds(acts) && Drained(c, acts) && StartsDuring(c, acts, j, k)
    ensures TwoTrials(c, acts)
  {
    hide At, Ends, TwoTrials, FreshIds, Drained;
    TwoTrialsExactlyWhenJoined(c, acts);
    if exists m :: j < m < k && Ends(c, acts, m) {
      var m := FirstEnd(c, acts, j, k);
      LateEndMakesTwo(c, acts, j, m, k);
    } else {
      assert Joins(c, acts, j, k);
    }
  }

  /** The first call that ends after trial j is not j's: it joined j, or j itself joined a trial. */
  lemma LateEndMakesTwo(c: Settings, acts: seq<Act>, j: nat, m: nat, k: nat)
    requires FreshIds(acts) && Drained(c, acts) && StartsDuring(c, acts, j, k) && j < m < k && Ends(c, acts, m)
    requires forall n | j < n < m :: !Ends(c, acts, n)
    ensures TwoTrials(c, acts)
  {
    var id := acts[m].id;
    assert id in At(c, acts, m).inFlight;
    hide At, Ends;
    if id == acts[j].id {
      EndedStaysEnded(c, acts, j, m, k);
    }
    StartedOrThere(c, acts, j + 1, m, id);
    AtStep(c, acts, j);
    if exists n | j + 1 <= n < m :: acts[n].Start? && acts[n].id == id {
      var n :| j + 1 <= n < m && acts[n].Start? && acts[n].id == id;
      assert Joins(c, acts, j, n);
      TwoTrialsExactlyWhenJoined(c, acts);
    } else {
      assert id in At(c, acts, j).inFlight;
      assert At(c, acts, j).view.mode == HalfOpen by {
        assert Trial(c, acts, j) && !Expires(c, acts, j);
      }
      var i := HalfOpenHasTrial(c, acts, j);
      assert Trial(c, acts, i) && Trial(c, acts, j);
    }
  }

  // ---- Overlapping trials from a fresh breaker ----

  function Starts(from: nat, n: nat, at: real): seq<Act> {
    seq(n, (i: nat) => Start(from + i, at))
  }

  /** fail_max calls that fail at once, then n callers when the timeout is due. */
  function Crowd(c: Settings, k: nat): seq<Act> {
    if k == 0 then [] else Crowd(c, k - 1) + [Start(k - 1, 0.0), Finish(k - 1, 0.0, false)]
  }

  lemma AfterTwo(c: Settings, acts: seq<Act>, a: Act, b: Act)
    ensures After(c, acts + [a, b]) == Step(c, Step(c, After(c, acts), a), b)
  {
    hide After, Step;
    AfterSnoc(c, acts, a);
    AfterSnoc(c, acts + [a], b);
    assert acts + [a, b] == acts + [a] + [b];
  }

  lemma AfterSnoc(c: Settings, acts: seq<Act>, a: Act)
    ensures After(c, acts + [a]) == Step(c, After(c, acts), a)
  {
    assert (acts + [a])[..|acts|] == acts;
  }

  lemma {:induction false} CrowdOpens(c: Settings, k: nat)
    requires k <= c.failMax
    ensures After(c, Crowd(c, k))
            == System(View(if k < c.failMax then Closed else Open, k, 0.0), {}, k, 0)
  {
    if k > 0 {
      hide Step;
      CrowdOpens(c, k - 1);
      AfterTwo(c, Crowd(c, k - 1), Start(k - 1, 0.0), Finish(k - 1, 0.0, false));
      assert Step(c, Step(c, After(c, Crowd(c, k - 1)), Start(k - 1, 0.0)), Finish(k - 1, 0.0, false))
             == System(View(if k < c.failMax then Closed else Open, k, 0.0), {}, k, 0) by {
        OneFailure(c, k);
      }
    }
  }

  lemma OneFailure(c: Settings, k: nat)
    requires 1 <= k <= c.failMax
    ensures var s := System(View(Closed, k - 1, 0.0), {}, k - 1, 0);
            Step(c, Step(c, s, Start(k - 1, 0.0)), Finish(k - 1, 0.0, false))
            == System(View(if k < c.failMax then Closed else Open, k, 0.0), {}, k, 0)
  {
  }

  /** From OPEN with the timeout due, every caller who comes before a call ends is let through: the
      breaker counts one expiry and admits them all. */
  lemma {:induction false} EveryCallerIsAdmitted(c: Settings, acts: seq<Act>, callers: seq<Act>)
    requires After(c, acts).view.mode == Open && callers != []
    requires (forall i | 0 <= i < |callers| :: callers[i].Start?)
             && callers[0].at - After(c, acts).view.openedAt >= c.resetTimeout
    ensures var s, t := After(c, acts), After(c, acts + callers);
            && t.admitted == s.admitted + |callers| && t.episodes == s.episodes + 1
            && t.view == s.view.(mode := HalfOpen)
  {
    var front, last := callers[..|callers| - 1], callers[|callers| - 1];
    assert acts + callers == acts + front + [last];
    AfterSnoc(c, acts + front, last);
    if front == [] {
      assert acts + front == acts;
    } else {
      EveryCallerIsAdmitted(c, acts, front);
    }
  }

  /** For every fail_max, reset timeout and number n of callers: fail_max failures, and after the timeout
      all n of them are trials at once. The comment in the code expects one. */
  lemma ExactlyThisTrialFails(c: Settings, n: nat)
    requires n >= 2
    ensures var acts := Crowd(c, c.failMax) + Starts(c.failMax, n, c.resetTimeout);
            && TwoTrials(c, acts) && After(c, acts).admitted == c.failMax + n && After(c, acts).episodes == 1
  {
    var early, late := Crowd(c, c.failMax), Starts(c.failMax, n, c.resetTimeout);
    var acts := early + late;
    CrowdOpens(c, c.failMax);
    EveryCallerIsAdmitted(c, early, late);
    var k := |early|;
    assert acts[..k + 1] == early + late[..1] && acts[..k + 2] == early + late[..2];
    EveryCallerIsAdmitted(c, early, late[..1]);
    EveryCallerIsAdmitted(c, early, late[..2]);
    assert Trial(c, acts, k) && Trial(c, acts, k + 1);
  }
}
