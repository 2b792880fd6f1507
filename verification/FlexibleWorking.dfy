/** Flexible-working requests: the decision is late exactly when its day is past the due day, although
    the code compares the dates as text. */
module FlexibleWorking {
  import opened Wrappers
  import opened Calendar
  import opened IsoText
  import opened Deadlines

  /** Dates as given; "" is an absent one. */
  datatype Facts = Facts(requests: int, refused: bool, consulted: bool, requested: string, decided: string)

  datatype Rules = Rules(maxRequests: int, decisionMonths: nat)

  datatype Breach = RefusedWithoutConsultation | DecisionOutsidePeriod

  /** Raised is the error of a due date beyond the calendar. */
  datatype Outcome =
    | InvalidFacts
    | Raised
    | Assessed(viable: bool, eligible: bool, due: string, breaches: seq<Breach>)

  predicate Readable(s: string) {
    s == "" || ParseIso(s).Some?
  }

  function Due(f: Facts, r: Rules): Option<Date>
    requires ParseIso(f.requested).Some?
  {
    PrintParse(f.requested);
    LimitationDate(ParseIso(f.requested).value, r.decisionMonths)
  }

  /** The decision is made on a later day than the due day. */
  predicate DecidedLate(f: Facts, r: Rules)
    requires Readable(f.requested) && Readable(f.decided)
  {
    && f.requested != "" && f.decided != "" && Due(f, r).Some?
    && (
         PrintParse(f.decided);
         DueIsValid(f, r);
         Ordinal(ParseIso(f.decided).value) > Ordinal(Due(f, r).value)
       )
  }

  lemma DueIsValid(f: Facts, r: Rules)
    requires ParseIso(f.requested).Some? && Due(f, r).Some?
    ensures Valid(Due(f, r).value)
  {
    PrintParse(f.requested);
    var event := ParseIso(f.requested).value;
    AddMonthsLands(event, r.decisionMonths);
    DayBeforeIsOneLess(AddMonths(event, r.decisionMonths).value);
  }

  /** The due date in ISO form ("" without a request date) and whether the decision is late; None
      when the due date cannot be computed. */
  method DecisionTiming(f: Facts, r: Rules) returns (t: Option<(string, bool)>)
    requires Readable(f.requested) && Readable(f.decided)
    ensures t == None <==> f.requested != "" && Due(f, r) == None
    ensures t.Some? ==>
              && t.value.1 == DecidedLate(f, r)
              && (f.requested == "" ==> t.value.0 == "")
              && (f.requested != "" ==> ParseIso(t.value.0) == Due(f, r))
  {
    hide Iso, LexLess, ParseIso, Ordinal, LimitationDate, Valid;
    if f.requested == "" {
      return Some(("", false));
    }
    var limit := Due(f, r);
    if limit == None {
      return None;
    }
    DueIsValid(f, r);
    var due := Iso(limit.value);
    ParsePrint(limit.value);
    if f.decided == "" {
      return Some((due, false));
    }
    PrintParse(f.decided);
    StringOrderIsDateOrder(limit.value, ParseIso(f.decided).value);
    t := Some((due, LexLess(due, Iso(ParseIso(f.decided).value))));
  }

  method Assess(f: Facts, r: Rules) returns (o: Outcome)
    ensures o == InvalidFacts <==> !Readable(f.requested) || !Readable(f.decided)
    ensures o == Raised
            <==> Readable(f.requested) && Readable(f.decided) && f.requested != "" && Due(f, r) == None
    ensures o.Assessed? ==>
              && (o.eligible <==> f.requests < r.maxRequests)
              && (o.viable <==> (f.refused && !f.consulted) || DecidedLate(f, r))
              && o.breaches == (if f.refused && !f.consulted then [RefusedWithoutConsultation] else [])
                              + (if DecidedLate(f, r) then [DecisionOutsidePeriod] else [])
              && (f.requested == "" ==> o.due == "")
              && (f.requested != "" ==> ParseIso(o.due) == Due(f, r))
  {
    hide DecidedLate, ParseIso, Due;
    if !Readable(f.requested) || !Readable(f.decided) {
      return InvalidFacts;
    }
    var eligible := f.requests < r.maxRequests;
    var timing := DecisionTiming(f, r);
    if timing == None {
      return Raised;
    }
    var breaches: seq<Breach> := [];
    if f.refused && !f.consulted {
      breaches := breaches + [RefusedWithoutConsultation];
    }
    if timing.value.1 {
      breaches := breaches + [DecisionOutsidePeriod];
    }
    o := Assessed(breaches != [], eligible, timing.value.0, breaches);
  }

  /** Whatever the calendar does, m months leave at least 28m - 1 days to decide and at most 31m - 1. */
  lemma LatenessInDays(f: Facts, r: Rules)
    requires ParseIso(f.requested).Some? && ParseIso(f.decided).Some? && r.decisionMonths >= 1
    requires Due(f, r).Some?
    ensures Valid(ParseIso(f.requested).value) && Valid(ParseIso(f.decided).value)
    ensures var days := Ordinal(ParseIso(f.decided).value) - Ordinal(ParseIso(f.requested).value);
            && (days <= 28 * r.decisionMonths - 1 ==> !DecidedLate(f, r))
            && (days > 31 * r.decisionMonths - 1 ==> DecidedLate(f, r))
  {
    PrintParse(f.requested);
    PrintParse(f.decided);
    DeadlineBounds(ParseIso(f.requested).value, r.decisionMonths);
  }
}
