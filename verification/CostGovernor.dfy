/** The daily token budget when checks overlap.

    A check reads the day's total from the log, decides, and appends a row in a second
    transaction; both may fail silently. The state is one day's log and the checks that have
    read it but not yet written. */
module CostGovernor {
  import opened Wrappers

  datatype Limits = Limits(daily: int, request: int)

  const ROUTE_ESTIMATES: map<string, nat> := map[
    "full_legal_pipeline" := 4000,
    "full_legal_pipeline_plus_human_review" := 5000,
    "rag_plus_rules" := 1000,
    "rules_engine_only" := 200,
    "lite_llm_plus_glossary" := 500]

  const MAX_ESTIMATE: nat := 5000

  function Estimate(route: string): (e: nat)
    ensures e <= MAX_ESTIMATE
  {
    if route in ROUTE_ESTIMATES then ROUTE_ESTIMATES[route] else 3000
  }

  datatype Decision = Decision(allowed: bool, downgraded: bool, tokens: nat)

  /** The branches of the check, on what it believes was used today. */
  function Decide(limits: Limits, used: int, estimated: nat): Decision {
    if used + estimated > limits.daily then Decision(false, false, estimated)
    else if estimated > limits.request then Decision(true, true, Estimate("rag_plus_rules"))
    else Decision(true, false, estimated)
  }

  /** A log row carries the original estimate, whether the request was allowed or not. */
  datatype Row = Row(user: Option<string>, tokens: nat, allowed: bool)

  function Usage(log: seq<Row>, user: string): nat {
    if log == [] then 0
    else Usage(log[1..], user) + if log[0].user == Some(user) then log[0].tokens else 0
  }

  /** The read of today's total: 0 for an anonymous caller and on any failure. */
  function DailyUsage(log: seq<Row>, user: Option<string>, readFails: bool): nat {
    if user == None || readFails then 0 else Usage(log, user.value)
  }

  class Log {
    var rows: seq<Row>

    method GetDailyUsage(user: Option<string>, readFails: bool) returns (used: nat)
      ensures used == DailyUsage(rows, user, readFails)
    {
      if user == None || readFails {
        return 0;
      }
      used := 0;
      var i := |rows|;
      while i > 0
        invariant 0 <= i <= |rows|
        invariant used == Usage(rows[i..], user.value)
      {
        i := i - 1;
        if rows[i].user == user {
          used := used + rows[i].tokens;
        }
      }
    }

    method WriteLog(row: Row, writeFails: bool)
      modifies this
      ensures rows == old(rows) + if writeFails then [] else [row]
      ensures forall user :: Usage(rows, user) - Usage(old(rows), user)
                             == if !writeFails && row.user == Some(user) then row.tokens else 0
    {
      if !writeFails {
        forall user
          ensures Usage(rows + [row], user) == Usage(rows, user) + if row.user == Some(user) then row.tokens else 0
        {
          UsageAppend(rows, row, user);
        }
        rows := rows + [row];
      }
    }

    /** An undisturbed check. */
    method Check(limits: Limits, user: Option<string>, route: string, readFails: bool, writeFails: bool)
      returns (decision: Decision)
      modifies this
      ensures decision == Decide(limits, DailyUsage(old(rows), user, readFails), Estimate(route))
      ensures rows == old(rows) + if writeFails then [] else [Row(user, Estimate(route), decision.allowed)]
    {
      var used := GetDailyUsage(user, readFails);
      decision := Decide(limits, used, Estimate(route));
      WriteLog(Row(user, Estimate(route), decision.allowed), writeFails);
    }
  }

  // ---- Overlapping checks ----

  datatype Pending = Pending(user: Option<string>, estimated: nat, allowed: bool)

  datatype Action =
    | Begin(user: Option<string>, route: string, readFails: bool)
    | End(job: nat, writeFails: bool)

  /** `granted` adds up, per user, the estimates of requests that were let through;
      `faults` counts that user's failed reads and writes. Both only observe. */
  datatype State = State(log: seq<Row>, jobs: seq<Pending>, granted: map<string, nat>, faults: map<string, nat>)

  function Count(m: map<string, nat>, user: string): nat {
    if user in m then m[user] else 0
  }

  function Add(m: map<string, nat>, user: Option<string>, n: nat): map<string, nat> {
    if user == None then m else m[user.value := Count(m, user.value) + n]
  }

  function Step(limits: Limits, s: State, a: Action): State {
    match a
    case Begin(user, route, readFails) =>
      var allowed := Decide(limits, DailyUsage(s.log, user, readFails), Estimate(route)).allowed;
      s.(jobs := s.jobs + [Pending(user, Estimate(route), allowed)],
         granted := Add(s.granted, user, if allowed then Estimate(route) else 0),
         faults := Add(s.faults, user, if readFails then 1 else 0))
    case End(job, writeFails) =>
      if job >= |s.jobs| then s
      else
        var p := s.jobs[job];
        State(if writeFails then s.log else s.log + [Row(p.user, p.estimated, p.allowed)],
              s.jobs[..job] + s.jobs[job + 1..],
              s.granted,
              Add(s.faults, p.user, if writeFails then 1 else 0))
  }

  function Run(limits: Limits, s: State, actions: seq<Action>): State
    decreases |actions|
  {
    if actions == [] then s else Run(limits, Step(limits, s, actions[0]), actions[1..])
  }

  const START := State([], [], map[], map[])

  /** One user's checks in flight, and what they will add to the log. */
  function Flights(jobs: seq<Pending>, user: string): nat {
    if jobs == [] then 0 else Flights(jobs[1..], user) + if jobs[0].user == Some(user) then 1 else 0
  }

  function Charge(jobs: seq<Pending>, user: string): nat {
    if jobs == [] then 0 else Charge(jobs[1..], user) + if jobs[0].user == Some(user) then jobs[0].estimated else 0
  }

  /** At most k checks of this user are in flight at once. */
  ghost predicate AtMost(limits: Limits, s: State, actions: seq<Action>, user: string, k: nat)
    decreases |actions|
  {
    Flights(s.jobs, user) <= k
    && (actions == [] || AtMost(limits, Step(limits, s, actions[0]), actions[1..], user, k))
  }

  lemma {:induction false} UsageAppend(log: seq<Row>, row: Row, user: string)
    ensures Usage(log + [row], user) == Usage(log, user) + if row.user == Some(user) then row.tokens else 0
  {
    if log != [] {
      UsageAppend(log[1..], row, user);
      assert (log + [row])[1..] == log[1..] + [row];
    }
  }

  lemma {:induction false} FlightsSplit(a: seq<Pending>, b: seq<Pending>, user: string)
    ensures Flights(a + b, user) == Flights(a, user) + Flights(b, user)
    ensures Charge(a + b, user) == Charge(a, user) + Charge(b, user)
  {
    if a == [] {
      assert a + b == b;
    } else {
      FlightsSplit(a[1..], b, user);
      assert (a + b)[1..] == a[1..] + b;
    }
  }

  lemma {:induction false} ChargeBound(jobs: seq<Pending>, user: string)
    requires forall i | 0 <= i < |jobs| :: jobs[i].estimated <= MAX_ESTIMATE
    ensures Charge(jobs, user) <= MAX_ESTIMATE * Flights(jobs, user)
  {
    if jobs != [] {
      ChargeBound(jobs[1..], user);
    }
  }

  /** What is granted but not yet in the log sits in a check in flight or was lost to a fault. */
  ghost predicate Accounted(s: State, user: string) {
    && Count(s.granted, user) <= Usage(s.log, user) + Charge(s.jobs, user) + MAX_ESTIMATE * Count(s.faults, user)
    && forall i | 0 <= i < |s.jobs| :: s.jobs[i].estimated <= MAX_ESTIMATE
  }

  lemma EndAccounts(limits: Limits, s: State, job: nat, writeFails: bool, user: string)
    requires Accounted(s, user) && job < |s.jobs|
    ensures Accounted(Step(limits, s, End(job, writeFails)), user)
  {
    hide Estimate, Decide;
    var p := s.jobs[job];
    var before, after := s.jobs[..job], s.jobs[job + 1..];
    assert s.jobs == before + ([p] + after);
    FlightsSplit(before, [p] + after, user);
    FlightsSplit([p], after, user);
    FlightsSplit(before, after, user);
    UsageAppend(s.log, Row(p.user, p.estimated, p.allowed), user);
  }

  lemma StepAccounts(limits: Limits, s: State, a: Action, user: string)
    requires Accounted(s, user)
    ensures Accounted(Step(limits, s, a), user)
  {
    hide Estimate, Decide;
    match a
    case Begin(u, route, readFails) =>
      FlightsSplit(s.jobs, [Step(limits, s, a).jobs[|s.jobs|]], user);
    case End(job, writeFails) =>
      if job < |s.jobs| {
        EndAccounts(limits, s, job, writeFails, user);
      }
  }

  ghost predicate WithinBudget(limits: Limits, s: State, user: string, k: nat) {
    || Count(s.granted, user) <= MAX_ESTIMATE * Count(s.faults, user)
    || Count(s.granted, user) <= limits.daily + MAX_ESTIMATE * (k - 1) + MAX_ESTIMATE * Count(s.faults, user)
  }

  lemma BeginStaysWithin(limits: Limits, s: State, a: Action, user: string, k: nat)
    requires a.Begin? && Accounted(s, user) && WithinBudget(limits, s, user, k)
    requires Flights(Step(limits, s, a).jobs, user) <= k
    ensures WithinBudget(limits, Step(limits, s, a), user, k)
  {
    if a.user == Some(user) {
      FlightsSplit(s.jobs, [Step(limits, s, a).jobs[|s.jobs|]], user);
      ChargeBound(s.jobs, user);
      assert Flights(s.jobs, user) <= k - 1;
    }
  }

  /** The budget with k checks in flight: every overlap and every silently swallowed database
      failure can let at most one more request of maximal size through. */
  lemma {:induction false} BudgetBound(limits: Limits, s: State, actions: seq<Action>, user: string, k: nat)
    requires Accounted(s, user) && WithinBudget(limits, s, user, k) && AtMost(limits, s, actions, user, k)
    ensures Accounted(Run(limits, s, actions), user) && WithinBudget(limits, Run(limits, s, actions), user, k)
    decreases |actions|
  {
    if actions != [] {
      var t := Step(limits, s, actions[0]);
      StepAccounts(limits, s, actions[0], user);
      if actions[0].Begin? {
        BeginStaysWithin(limits, s, actions[0], user, k);
      }
      BudgetBound(limits, t, actions[1..], user, k);
    }
  }

  /** From an empty day, while the log works: at most daily + (k-1) maximal requests, and with
      one check at a time never more than the daily limit itself. */
  lemma DailyLimitHolds(limits: Limits, actions: seq<Action>, user: string, k: nat)
    requires AtMost(limits, START, actions, user, k)
    requires Count(Run(limits, START, actions).faults, user) == 0
    ensures var granted := Count(Run(limits, START, actions).granted, user);
            && (granted == 0 || granted <= limits.daily + MAX_ESTIMATE * (k - 1))
            && (k == 1 && granted > 0 ==> granted <= limits.daily)
  {
    BudgetBound(limits, START, actions, user, k);
  }

  // ---- The bound is met: a day of serial requests, then k checks that all read the same log ----

  const FULL := "full_legal_pipeline_plus_human_review"

  function Burst(user: string, k: nat): seq<Action> {
    if k == 0 then [] else [Begin(Some(user), FULL, false)] + Burst(user, k - 1)
  }

  function OneByOne(user: string, n: nat): seq<Action> {
    if n == 0 then [] else [Begin(Some(user), FULL, false), End(0, false)] + OneByOne(user, n - 1)
  }

  lemma {:induction false} RunAppend(limits: Limits, s: State, a: seq<Action>, b: seq<Action>, user: string, k: nat)
    ensures Run(limits, s, a + b) == Run(limits, Run(limits, s, a), b)
    ensures AtMost(limits, s, a, user, k) && AtMost(limits, Run(limits, s, a), b, user, k) ==>
              AtMost(limits, s, a + b, user, k)
    decreases |a|
  {
    hide Step;
    if a == [] {
      assert a + b == b;
    } else {
      RunAppend(limits, Step(limits, s, a[0]), a[1..], b, user, k);
      assert (a + b)[1..] == a[1..] + b;
    }
  }

  /** From any log that leaves room for one more maximal request, k overlapping checks all pass. */
  lemma {:induction false} BurstIsGranted(limits: Limits, s: State, user: string, k: nat, most: nat)
    requires Usage(s.log, user) + MAX_ESTIMATE <= limits.daily && Flights(s.jobs, user) + k <= most
    ensures var t := Run(limits, s, Burst(user, k));
            && t.log == s.log && Count(t.granted, user) == Count(s.granted, user) + MAX_ESTIMATE * k
            && Count(t.faults, user) == Count(s.faults, user)
    ensures AtMost(limits, s, Burst(user, k), user, most)
    decreases k
  {
    if k > 0 {
      var a := Begin(Some(user), FULL, false);
      var t := Step(limits, s, a);
      assert Estimate(FULL) == MAX_ESTIMATE;
      FlightsSplit(s.jobs, [t.jobs[|s.jobs|]], user);
      BurstIsGranted(limits, t, user, k - 1, most);
      assert Burst(user, k)[1..] == Burst(user, k - 1);
    }
  }

  lemma OneCheck(limits: Limits, s: State, user: string)
    requires s.jobs == [] && Usage(s.log, user) + MAX_ESTIMATE <= limits.daily
    ensures var t := Step(limits, s, Begin(Some(user), FULL, false));
            var u := Step(limits, t, End(0, false));
            && Flights(t.jobs, user) == 1 && u.jobs == []
            && Usage(u.log, user) == Usage(s.log, user) + MAX_ESTIMATE
            && Count(u.granted, user) == Count(s.granted, user) + MAX_ESTIMATE
            && Count(u.faults, user) == Count(s.faults, user)
  {
    assert Estimate(FULL) == MAX_ESTIMATE;
    UsageAppend(s.log, Row(Some(user), MAX_ESTIMATE, true), user);
  }

  lemma {:induction false} SerialIsGranted(limits: Limits, s: State, user: string, n: nat, most: nat)
    requires s.jobs == [] && Usage(s.log, user) + MAX_ESTIMATE * n <= limits.daily && most >= 1
    ensures var t := Run(limits, s, OneByOne(user, n));
            && t.jobs == [] && Usage(t.log, user) == Usage(s.log, user) + MAX_ESTIMATE * n
            && Count(t.granted, user) == Count(s.granted, user) + MAX_ESTIMATE * n
            && Count(t.faults, user) == Count(s.faults, user)
    ensures AtMost(limits, s, OneByOne(user, n), user, most)
    decreases n
  {
    if n > 0 {
      hide Step, Usage, Count, Run, OneByOne;
      var t := Step(limits, s, Begin(Some(user), FULL, false));
      var u := Step(limits, t, End(0, false));
      OneCheck(limits, s, user);
      SerialIsGranted(limits, u, user, n - 1, most);
      FirstCheck(limits, s, user, n, most);
    }
  }

  /** The first of n serial checks, peeled off. */
  lemma FirstCheck(limits: Limits, s: State, user: string, n: nat, most: nat)
    requires n >= 1
    ensures var t := Step(limits, s, Begin(Some(user), FULL, false));
            var u := Step(limits, t, End(0, false));
            && Run(limits, s, OneByOne(user, n)) == Run(limits, u, OneByOne(user, n - 1))
            && (AtMost(limits, s, OneByOne(user, n), user, most) <==>
                  Flights(s.jobs, user) <= most && Flights(t.jobs, user) <= most
                    && AtMost(limits, u, OneByOne(user, n - 1), user, most))
  {
    hide Step, Flights;
    var rest := OneByOne(user, n - 1);
    assert OneByOne(user, n)[1..] == [End(0, false)] + rest && ([End(0, false)] + rest)[1..] == rest;
  }

  /** For every number k of overlapping checks and every daily limit that is a positive multiple of the
      largest estimate (the shipped 50,000 is ten of them), a day without faults attains the bound. */
  lemma BoundIsReached(user: string, n: nat, request: int, k: nat)
    requires n >= 1 && k >= 1
    ensures var limits := Limits(MAX_ESTIMATE * n, request);
            var run := OneByOne(user, n - 1) + Burst(user, k);
            && AtMost(limits, START, run, user, k)
            && Count(Run(limits, START, run).faults, user) == 0
            && Count(Run(limits, START, run).granted, user) == limits.daily + MAX_ESTIMATE * (k - 1)
  {
    var limits := Limits(MAX_ESTIMATE * n, request);
    SerialIsGranted(limits, START, user, n - 1, k);
    var t := Run(limits, START, OneByOne(user, n - 1));
    BurstIsGranted(limits, t, user, k, k);
    RunAppend(limits, START, OneByOne(user, n - 1), Burst(user, k), user, k);
  }

  // ---- Refusals ----

  lemma {:induction false} UsageGrows(limits: Limits, s: State, actions: seq<Action>, user: string)
    ensures Usage(s.log, user) <= Usage(Run(limits, s, actions).log, user)
    decreases |actions|
  {
    if actions != [] {
      if actions[0].End? && actions[0].job < |s.jobs| {
        var p := s.jobs[actions[0].job];
        UsageAppend(s.log, Row(p.user, p.estimated, p.allowed), user);
      }
      UsageGrows(limits, Step(limits, s, actions[0]), actions[1..], user);
    }
  }

  /** Under every interleaving, once a request has been refused every later check of the
      same user that day with an equal or larger estimate is refused too. */
  lemma RefusalsPersist(limits: Limits, s: State, actions: seq<Action>, user: string, first: nat, second: nat)
    requires !Decide(limits, DailyUsage(s.log, Some(user), false), first).allowed && first <= second
    ensures !Decide(limits, DailyUsage(Run(limits, s, actions).log, Some(user), false), second).allowed
  {
    UsageGrows(limits, s, actions, user);
  }

  /** A refused request is logged with its estimate like any other, so once its row is
      written the user is over the limit: every later check that day is refused, however
      small. */
  lemma RefusalEndsTheDay(limits: Limits, s: State, job: nat, actions: seq<Action>, user: string, next: nat)
    requires job < |s.jobs| && s.jobs[job].user == Some(user)
    requires !Decide(limits, Usage(s.log, user), s.jobs[job].estimated).allowed
    ensures var t := Run(limits, Step(limits, s, End(job, false)), actions);
            !Decide(limits, DailyUsage(t.log, Some(user), false), next).allowed
  {
    var p := s.jobs[job];
    UsageAppend(s.log, Row(p.user, p.estimated, p.allowed), user);
    UsageGrows(limits, Step(limits, s, End(job, false)), actions, user);
  }
}
