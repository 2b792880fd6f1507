/** The bundle's chronology: the recorded dates of a case in order, then what has no date. */
module Chronology {
  import opened Wrappers
  import opened Calendar
  import opened IsoText
  import opened StableSort

  datatype What = Commenced | Terminated | DayA | DayB | DayBPending | Limitation

  datatype Event = Event(date: string, what: What)

  /** key_dates and the confirmed facts the chronology reads; "" is an absent value. */
  datatype Recorded = Recorded(edt: string, start: string, confirmedStart: string, deadline: string,
                               dayA: string, dayB: string)

  const NOT_CONFIRMED := "[DATE NOT CONFIRMED]"
  const PENDING := "[PENDING]"

  /** d.startswith("[") */
  predicate Bracketed(e: Event) {
    e.date != "" && e.date[0] == '['
  }

  const UNDATED := "0000-00-00"

  function SortKey(e: Event): string {
    match ParseIso(e.date)
    case None => UNDATED
    case Some(d) => PrintParse(e.date); Iso(d)
  }

  predicate Earlier(x: Event, y: Event) {
    LexLess(SortKey(x), SortKey(y))
  }

  function Optional(date: string, what: What): seq<Event> {
    if date != "" then [Event(date, what)] else []
  }

  function StartDate(r: Recorded): string {
    if r.start != "" then r.start else r.confirmedStart
  }

  function Required(date: string, what: What): seq<Event> {
    [Event(if date != "" then date else NOT_CONFIRMED, what)]
  }

  function Certificate(r: Recorded): seq<Event> {
    if r.dayB != "" then [Event(r.dayB, DayB)] else if r.dayA != "" then [Event(PENDING, DayBPending)] else []
  }

  /** The events in the order the code lists them. */
  function Listed(r: Recorded): seq<Event> {
    Required(StartDate(r), Commenced) + Required(r.edt, Terminated) + Optional(r.dayA, DayA) + Certificate(r)
    + Optional(r.deadline, Limitation)
  }

  function Keep(events: seq<Event>, bracketed: bool): (kept: seq<Event>)
    ensures forall e | e in kept :: e in events && Bracketed(e) == bracketed
  {
    if events == [] then []
    else (if Bracketed(events[0]) == bracketed then [events[0]] else []) + Keep(events[1..], bracketed)
  }

  function Chronological(r: Recorded): seq<Event> {
    Sort(Earlier, Keep(Listed(r), false)) + Keep(Listed(r), true)
  }

  method ListEvents(r: Recorded) returns (events: seq<Event>)
    ensures events == Listed(r)
  {
    events := [];
    if StartDate(r) != "" {
      events := events + [Event(StartDate(r), Commenced)];
    } else {
      events := events + [Event(NOT_CONFIRMED, Commenced)];
    }
    assert events == Required(StartDate(r), Commenced);
    ghost var one := events;
    if r.edt != "" {
      events := events + [Event(r.edt, Terminated)];
    } else {
      events := events + [Event(NOT_CONFIRMED, Terminated)];
    }
    assert events == one + Required(r.edt, Terminated);
    ghost var two := events;
    if r.dayA != "" {
      events := events + [Event(r.dayA, DayA)];
    }
    assert events == two + Optional(r.dayA, DayA);
    ghost var three := events;
    if r.dayB != "" {
      events := events + [Event(r.dayB, DayB)];
    } else if r.dayA != "" {
      events := events + [Event(PENDING, DayBPending)];
    }
    assert events == three + Certificate(r);
    ghost var four := events;
    if r.deadline != "" {
      events := events + [Event(r.deadline, Limitation)];
    }
    assert events == four + Optional(r.deadline, Limitation);
  }

  // ---- The order of the keys ----

  /** 0 for a text that is no date, else the day. */
  function Rank(e: Event): int {
    match ParseIso(e.date)
    case None => 0
    case Some(d) => Ordinal(d)
  }

  lemma UndatedIsLeast(d: Date)
    requires Valid(d)
    ensures LexLess(UNDATED, Iso(d)) && !LexLess(Iso(d), UNDATED) && Ordinal(d) > 0
  {
    Widths();
    var zero := Pad(0, 2);
    var tail := "-" + (zero + ("-" + zero));
    assert zero == Pad(0, 1) + ['0'] && Pad(0, 1) == Pad(0, 0) + ['0'];
    assert Pad(0, 3) == Pad(0, 2) + ['0'] && Pad(0, 4) == Pad(0, 3) + ['0'];
    assert UNDATED == Pad(0, 4) + tail;
    PadOrder(0, d.year, 4);
    PadOrder(d.year, 0, 4);
    var rest := "-" + (Pad(d.month, 2) + ("-" + Pad(d.day, 2)));
    LexConcat(Pad(0, 4), tail, Pad(d.year, 4), rest);
    LexConcat(Pad(d.year, 4), rest, Pad(0, 4), tail);
    BeforeIsSmallerOrdinal(d, Date(1, 1, 1));
  }

  /** The string keys order events as their days do, with texts that are no date first. */
  lemma EarlierIsSmallerRank(x: Event, y: Event)
    ensures Earlier(x, y) <==> Rank(x) < Rank(y)
  {
    hide Iso, Ordinal, ParseIso, LexLess;
    if ParseIso(x.date).Some? {
      PrintParse(x.date);
      UndatedIsLeast(ParseIso(x.date).value);
    }
    if ParseIso(y.date).Some? {
      PrintParse(y.date);
      UndatedIsLeast(ParseIso(y.date).value);
    }
    if ParseIso(x.date).Some? && ParseIso(y.date).Some? {
      StringOrderIsDateOrder(ParseIso(x.date).value, ParseIso(y.date).value);
    }
    NotLessThanItself(UNDATED);
  }

  lemma {:induction false} NotLessThanItself(s: string)
    ensures !LexLess(s, s)
    decreases |s|
  {
    if s != "" {
      NotLessThanItself(s[1..]);
    }
  }

  lemma EarlierIsWeakOrder()
    ensures StrictWeak(Earlier)
  {
    hide Earlier, Rank;
    forall x, y ensures Earlier(x, y) <==> Rank(x) < Rank(y) {
      EarlierIsSmallerRank(x, y);
    }
  }

  // ---- What the chronology promises ----

  lemma {:induction false} KeepMultiset(events: seq<Event>)
    ensures multiset(Keep(events, false)) + multiset(Keep(events, true)) == multiset(events)
  {
    if events != [] {
      KeepMultiset(events[1..]);
      assert events == [events[0]] + events[1..];
    }
  }

  /** No event is lost or added. */
  lemma ChronologyIsPermutation(r: Recorded)
    ensures multiset(Chronological(r)) == multiset(Listed(r))
  {
    KeepMultiset(Listed(r));
    SortMultiset(Earlier, Keep(Listed(r), false));
  }

  lemma SplitAtDated(r: Recorded, k: nat)
    requires k < |Chronological(r)|
    ensures var n := |Keep(Listed(r), false)|; var out := Chronological(r);
            n <= |out| && (Bracketed(out[k]) <==> n <= k)
  {
    hide Listed, Earlier, Bracketed;
    var dated, undated := Keep(Listed(r), false), Keep(Listed(r), true);
    var sorted := Sort(Earlier, dated);
    SortMultiset(Earlier, dated);
    if k < |dated| {
      SameItems(sorted, dated, sorted[k]);
      assert sorted[k] in dated;
    } else {
      assert undated[k - |dated|] in undated;
    }
  }

  lemma DatedInOrder(r: Recorded, i: nat, j: nat)
    requires i < j < |Keep(Listed(r), false)|
    ensures j < |Chronological(r)| && Rank(Chronological(r)[i]) <= Rank(Chronological(r)[j])
  {
    hide Listed, Earlier, Rank;
    var dated := Keep(Listed(r), false);
    var sorted := Sort(Earlier, dated);
    EarlierIsWeakOrder();
    SortIsStable(Earlier, dated);
    assert !Earlier(sorted[j], sorted[i]);
    EarlierIsSmallerRank(sorted[j], sorted[i]);
  }

  /** Events in date order, ties in the order listed, the bracketed ones last. */
  lemma ChronologyIsInOrder(r: Recorded)
    ensures var dated := Keep(Listed(r), false); var n := |dated|; var out := Chronological(r);
            && n <= |out|
            && (forall k | 0 <= k < |out| :: Bracketed(out[k]) <==> n <= k)
            && (forall i, j | 0 <= i < j < n :: Rank(out[i]) <= Rank(out[j]))
            && (forall x :: Ties(Earlier, out[..n], x) == Ties(Earlier, dated, x))
            && out[n..] == Keep(Listed(r), true)
  {
    hide Listed, Earlier, Rank, Bracketed, Ties;
    var dated := Keep(Listed(r), false);
    var n := |dated|;
    var out := Chronological(r);
    EarlierIsWeakOrder();
    SortIsStable(Earlier, dated);
    assert out[..n] == Sort(Earlier, dated) && out[n..] == Keep(Listed(r), true);
    hide Chronological, StablySorts;
    forall k | 0 <= k < |out| ensures Bracketed(out[k]) <==> n <= k { SplitAtDated(r, k); }
    forall i, j | 0 <= i < j < n ensures Rank(out[i]) <= Rank(out[j]) { DatedInOrder(r, i, j); }
    forall x ensures Ties(Earlier, out[..n], x) == Ties(Earlier, dated, x) { TiesKept(dated, x); }
  }

  lemma TiesKept(dated: seq<Event>, x: Event)
    ensures Ties(Earlier, Sort(Earlier, dated), x) == Ties(Earlier, dated, x)
  {
    hide Earlier, Ties;
    EarlierIsWeakOrder();
    SortIsStable(Earlier, dated);
  }

  /** What is shown under each heading: the recorded date, or the placeholder for a missing one; a
      certificate is pending only while conciliation has started and no certificate is recorded.
      So no date is invented. */
  predicate Belongs(r: Recorded, e: Event) {
    match e.what
    case Commenced => e.date == if StartDate(r) != "" then StartDate(r) else NOT_CONFIRMED
    case Terminated => e.date == if r.edt != "" then r.edt else NOT_CONFIRMED
    case DayA => r.dayA != "" && e.date == r.dayA
    case DayB => r.dayB != "" && e.date == r.dayB
    case DayBPending => r.dayB == "" && r.dayA != "" && e.date == PENDING
    case Limitation => r.deadline != "" && e.date == r.deadline
  }

  lemma InParts(r: Recorded, e: Event)
    ensures e in Listed(r)
            <==> || e in Required(StartDate(r), Commenced)
                 || e in Required(r.edt, Terminated)
                 || e in Optional(r.dayA, DayA)
                 || e in Certificate(r)
                 || e in Optional(r.deadline, Limitation)
  {
    hide Required, Optional, Certificate, StartDate;
  }

  lemma InRequired(date: string, what: What, e: Event)
    ensures e in Required(date, what) <==> e.what == what && e.date == if date != "" then date else NOT_CONFIRMED
  {
    hide NOT_CONFIRMED;
  }

  lemma InOptional(date: string, what: What, e: Event)
    ensures e in Optional(date, what) <==> e.what == what && date != "" && e.date == date
  {
  }

  lemma InCertificate(r: Recorded, e: Event)
    ensures e in Certificate(r)
            <==> (r.dayB != "" && e.what == DayB && e.date == r.dayB)
                 || (r.dayB == "" && r.dayA != "" && e.what == DayBPending && e.date == PENDING)
  {
    hide PENDING;
  }

  lemma ListedExactlyWhatBelongs(r: Recorded, e: Event)
    ensures e in Listed(r) <==> Belongs(r, e)
  {
    hide Listed, Required, Optional, Certificate, NOT_CONFIRMED, PENDING, StartDate;
    InParts(r, e);
    InRequired(StartDate(r), Commenced, e);
    InRequired(r.edt, Terminated, e);
    InOptional(r.dayA, DayA, e);
    InOptional(r.deadline, Limitation, e);
    InCertificate(r, e);
  }

  lemma ShownExactlyWhatBelongs(r: Recorded, e: Event)
    ensures e in Chronological(r) <==> Belongs(r, e)
  {
    hide Chronological, Listed, Belongs;
    ChronologyIsPermutation(r);
    SameItems(Chronological(r), Listed(r), e);
    ListedExactlyWhatBelongs(r, e);
  }

  lemma SameItems(s: seq<Event>, t: seq<Event>, e: Event)
    requires multiset(s) == multiset(t)
    ensures e in s <==> e in t
  {
    assert e in s <==> e in multiset(s);
    assert e in t <==> e in multiset(t);
  }

  lemma OrderedPairs(r: Recorded, i: nat, j: nat)
    requires i < j < |Chronological(r)|
    ensures var out := Chronological(r);
            && (Bracketed(out[i]) ==> Bracketed(out[j]))
            && (!Bracketed(out[j]) ==> Rank(out[i]) <= Rank(out[j]))
  {
    SplitAtDated(r, i);
    SplitAtDated(r, j);
    hide Chronological, Bracketed, Rank, Listed;
    if j < |Keep(Listed(r), false)| {
      DatedInOrder(r, i, j);
    }
  }

  /** Exactly the events that belong, each as often as it was listed: the dated ones by day, and after
      them the bracketed ones. */
  method GenerateChronology(r: Recorded) returns (events: seq<Event>)
    ensures events == Chronological(r)
    ensures multiset(events) == multiset(Listed(r)) && forall e :: e in events <==> Belongs(r, e)
    ensures forall i, j | 0 <= i < j < |events| ::
              && (Bracketed(events[i]) ==> Bracketed(events[j]))
              && (!Bracketed(events[j]) ==> Rank(events[i]) <= Rank(events[j]))
  {
    hide Belongs, Bracketed, Rank, Listed;
    events := ListEvents(r);
    var dated := Keep(events, false);
    var undated := Keep(events, true);
    dated := Sort(Earlier, dated);
    events := dated + undated;
    hide Chronological;
    ChronologyIsPermutation(r);
    forall e ensures e in events <==> Belongs(r, e) { ShownExactlyWhatBelongs(r, e); }
    forall i, j | 0 <= i < j < |events|
      ensures Bracketed(events[i]) ==> Bracketed(events[j])
      ensures !Bracketed(events[j]) ==> Rank(events[i]) <= Rank(events[j])
    {
      OrderedPairs(r, i, j);
    }
  }
}
