/** Every run of the two endpoints that take answers and the two paths that apply them, with the
    requests interleaved statement by statement. */
module FactRuns {
  import opened Facts

  type Id = string
  type FactMap = map<Field, Fact>
  type Dates = map<Key, string>

  datatype Upload = Upload(caseId: Id, owner: Id, facts: FactMap, reviewed: bool)

  /** What a request in flight has read or computed. */
  datatype Job =
    | Patching(doc: Id, facts: FactMap)
    | Applying(caseId: Id, facts: FactMap)
    | Confirming(doc: Id, caseId: Id, facts: FactMap)
    | ReadyToApply(caseId: Id, dates: Dates)
    | ReadyToConfirm(doc: Id, caseId: Id, facts: FactMap, dates: Dates)

  datatype State = State(uploads: map<Id, Upload>, cases: map<Id, Dates>, jobs: map<nat, Job>)

  /** One statement of a request; Abort is any failure, which rolls the request back. */
  datatype Action =
    | ReadForPatch(j: nat, doc: Id, caseId: Id, updates: map<Field, Update>)
    | ReadForApply(j: nat, doc: Id, caseId: Id)
    | ReadForConfirm(j: nat, doc: Id, user: Id, updates: map<Field, Update>)
    | ReadKeyDates(j: nat)
    | Commit(j: nat)
    | Abort(j: nat)

  /** WHERE id = doc AND case_id = caseId */
  predicate Found(s: State, doc: Id, caseId: Id) {
    doc in s.uploads && s.uploads[doc].caseId == caseId
  }

  predicate Owned(s: State, doc: Id, user: Id) {
    doc in s.uploads && s.uploads[doc].owner == user
  }

  function StoreFacts(uploads: map<Id, Upload>, doc: Id, facts: FactMap): map<Id, Upload> {
    if doc in uploads then uploads[doc := uploads[doc].(facts := facts, reviewed := true)] else uploads
  }

  function StoreDates(cases: map<Id, Dates>, c: Id, dates: Dates): map<Id, Dates> {
    if c in cases then cases[c := dates] else cases
  }

  function Committed(s: State, j: nat): State {
    if j !in s.jobs then s
    else
      match s.jobs[j]
      case Patching(doc, facts) => State(StoreFacts(s.uploads, doc, facts), s.cases, s.jobs - {j})
      case ReadyToApply(c, dates) => State(s.uploads, StoreDates(s.cases, c, dates), s.jobs - {j})
      case ReadyToConfirm(doc, c, facts, dates) =>
        State(StoreFacts(s.uploads, doc, facts), StoreDates(s.cases, c, dates), s.jobs - {j})
      case _ => s
  }

  /** A missing case ends the request with a 404 and nothing written. */
  function DatesRead(s: State, j: nat): State {
    if j !in s.jobs then s
    else
      match s.jobs[j]
      case Applying(c, facts) =>
        if c in s.cases then s.(jobs := s.jobs[j := ReadyToApply(c, Applied(facts, s.cases[c]))])
        else s.(jobs := s.jobs - {j})
      case Confirming(doc, c, facts) =>
        if c in s.cases then s.(jobs := s.jobs[j := ReadyToConfirm(doc, c, facts, Applied(facts, s.cases[c]))])
        else s.(jobs := s.jobs - {j})
      case _ => s
  }

  /** Requests that are refused, and statements out of turn, change nothing. */
  function Step(s: State, a: Action): State {
    match a
    case ReadForPatch(j, doc, c, updates) =>
      if j !in s.jobs && Found(s, doc, c) then
        s.(jobs := s.jobs[j := Patching(doc, Patched(s.uploads[doc].facts, updates))])
      else s
    case ReadForApply(j, doc, c) =>
      if j !in s.jobs && Found(s, doc, c) then s.(jobs := s.jobs[j := Applying(c, s.uploads[doc].facts)]) else s
    case ReadForConfirm(j, doc, user, updates) =>
      if j !in s.jobs && Owned(s, doc, user) then
        var facts := Answered(s.uploads[doc].facts, updates);
        s.(jobs := s.jobs[j := Confirming(doc, s.uploads[doc].caseId, facts)])
      else s
    case ReadKeyDates(j) => DatesRead(s, j)
    case Commit(j) => Committed(s, j)
    case Abort(j) => s.(jobs := s.jobs - {j})
  }

  function Run(s: State, run: seq<Action>): State {
    if run == [] then s else Step(Run(s, run[..|run| - 1]), run[|run| - 1])
  }

  // ---- Where applied values come from ----

  /** The action reads, or itself makes, a confirmed or corrected fact of the case with this value. */
  predicate Carries(s: State, a: Action, c: Id, f: Field, v: string) {
    match a
    case ReadForApply(j, doc, caseId) =>
      && Found(s, doc, caseId) && c == caseId
      && Applicable(s.uploads[doc].facts, f) && s.uploads[doc].facts[f].value == v
    case ReadForConfirm(j, doc, user, updates) =>
      && Owned(s, doc, user) && s.uploads[doc].caseId == c
      && var facts := Answered(s.uploads[doc].facts, updates);
         Applicable(facts, f) && facts[f].value == v
    case _ => false
  }

  predicate HadValue(s: State, c: Id, f: Field, v: string) {
    c in s.cases && Extracted(f) in s.cases[c] && s.cases[c][Extracted(f)] == v
  }

  /** The value was there at the start, or some earlier apply of the run carried it. */
  ghost predicate Evidenced(s: State, run: seq<Action>, c: Id, f: Field, v: string) {
    || HadValue(s, c, f, v)
    || exists k | 0 <= k < |run| :: Carries(Run(s, run[..k]), run[k], c, f, v)
  }

  predicate MayChange(k: Key) {
    k.Extracted? && Safe(k.field)
  }

  predicate SameElsewhere(before: Dates, after: Dates) {
    forall k | k in before.Keys + after.Keys ::
      !MayChange(k) ==> k in before && k in after && before[k] == after[k]
  }

  ghost predicate Sound(s: State, run: seq<Action>, c: Id, dates: Dates) {
    && c in s.cases && SameElsewhere(s.cases[c], dates)
    && forall f | Extracted(f) in dates && Safe(f) :: Evidenced(s, run, c, f, dates[Extracted(f)])
  }

  ghost predicate SoundFacts(s: State, run: seq<Action>, c: Id, facts: FactMap) {
    forall f | f in facts && Applicable(facts, f) :: Evidenced(s, run, c, f, facts[f].value)
  }

  ghost predicate SoundJob(s: State, run: seq<Action>, job: Job) {
    match job
    case Patching(_, _) => true
    case Applying(c, facts) => SoundFacts(s, run, c, facts)
    case Confirming(_, c, facts) => SoundFacts(s, run, c, facts)
    case ReadyToApply(c, dates) => Sound(s, run, c, dates)
    case ReadyToConfirm(_, c, _, dates) => Sound(s, run, c, dates)
  }

  ghost predicate Inv(s: State, run: seq<Action>, now: State) {
    && now.cases.Keys == s.cases.Keys
    && (forall c | c in now.cases :: Sound(s, run, c, now.cases[c]))
    && (forall j | j in now.jobs :: SoundJob(s, run, now.jobs[j]))
  }

  lemma EvidenceStays(s: State, run: seq<Action>, a: Action, c: Id, f: Field, v: string)
    requires Evidenced(s, run, c, f, v)
    ensures Evidenced(s, run + [a], c, f, v)
  {
    if !HadValue(s, c, f, v) {
      var k :| 0 <= k < |run| && Carries(Run(s, run[..k]), run[k], c, f, v);
      assert (run + [a])[..k] == run[..k] && (run + [a])[k] == run[k];
    }
  }

  lemma CarriedIsEvidenced(s: State, run: seq<Action>, a: Action, c: Id, f: Field, v: string)
    requires Carries(Run(s, run), a, c, f, v)
    ensures Evidenced(s, run + [a], c, f, v)
  {
    var k := |run|;
    assert (run + [a])[..k] == run && (run + [a])[k] == a;
  }

  lemma SoundStays(s: State, run: seq<Action>, a: Action, c: Id, dates: Dates)
    requires Sound(s, run, c, dates)
    ensures Sound(s, run + [a], c, dates)
  {
    hide Evidenced, SameElsewhere, Safe;
    forall f | Extracted(f) in dates && Safe(f) ensures Evidenced(s, run + [a], c, f, dates[Extracted(f)]) {
      EvidenceStays(s, run, a, c, f, dates[Extracted(f)]);
    }
  }

  lemma SoundJobStays(s: State, run: seq<Action>, a: Action, job: Job)
    requires SoundJob(s, run, job)
    ensures SoundJob(s, run + [a], job)
  {
    hide Evidenced, Sound, Applicable;
    match job
    case Patching(_, _) =>
    case ReadyToApply(c, dates) => SoundStays(s, run, a, c, dates);
    case ReadyToConfirm(_, c, _, dates) => SoundStays(s, run, a, c, dates);
    case Applying(c, facts) =>
      forall f | f in facts && Applicable(facts, f) ensures Evidenced(s, run + [a], c, f, facts[f].value) {
        EvidenceStays(s, run, a, c, f, facts[f].value);
      }
    case Confirming(_, c, facts) =>
      forall f | f in facts && Applicable(facts, f) ensures Evidenced(s, run + [a], c, f, facts[f].value) {
        EvidenceStays(s, run, a, c, f, facts[f].value);
      }
  }

  /** Applying sound facts to sound key_dates. */
  lemma AppliedIsSound(s: State, run: seq<Action>, c: Id, facts: FactMap, dates: Dates)
    requires Sound(s, run, c, dates) && SoundFacts(s, run, c, facts)
    ensures Sound(s, run, c, Applied(facts, dates))
  {
    hide Evidenced, Applied, Safe, Accepted;
    forall k: Key
      ensures k in Applied(facts, dates) <==> k in dates || (k.Extracted? && Applicable(facts, k.field))
      ensures k in Applied(facts, dates) ==>
                Applied(facts, dates)[k]
                == if k.Extracted? && Applicable(facts, k.field) then facts[k.field].value else dates[k]
    {
      AppliedAt(facts, dates, k);
    }
  }

  lemma InvHolds(s: State, run: seq<Action>, now: State, a: Action)
    requires Inv(s, run, now)
    ensures Inv(s, run + [a], now)
  {
    hide Sound, SoundJob;
    forall c | c in now.cases ensures Sound(s, run + [a], c, now.cases[c]) {
      SoundStays(s, run, a, c, now.cases[c]);
    }
    forall j | j in now.jobs ensures SoundJob(s, run + [a], now.jobs[j]) {
      SoundJobStays(s, run, a, now.jobs[j]);
    }
  }

  lemma ReadIsSound(s: State, run: seq<Action>, a: Action)
    requires a.ReadForApply? || a.ReadForConfirm?
    ensures var now := Run(s, run);
            && (a.ReadForApply? && Found(now, a.doc, a.caseId)
                ==> SoundFacts(s, run + [a], a.caseId, now.uploads[a.doc].facts))
            && (a.ReadForConfirm? && Owned(now, a.doc, a.user)
                ==> SoundFacts(s, run + [a], now.uploads[a.doc].caseId, Answered(now.uploads[a.doc].facts, a.updates)))
  {
    hide Evidenced, Run, Applicable, Answered;
    var now := Run(s, run);
    if a.ReadForApply? && Found(now, a.doc, a.caseId) {
      var facts := now.uploads[a.doc].facts;
      forall f | f in facts && Applicable(facts, f) ensures Evidenced(s, run + [a], a.caseId, f, facts[f].value) {
        CarriedIsEvidenced(s, run, a, a.caseId, f, facts[f].value);
      }
    }
    if a.ReadForConfirm? && Owned(now, a.doc, a.user) {
      var c := now.uploads[a.doc].caseId;
      var facts := Answered(now.uploads[a.doc].facts, a.updates);
      forall f | f in facts && Applicable(facts, f) ensures Evidenced(s, run + [a], c, f, facts[f].value) {
        CarriedIsEvidenced(s, run, a, c, f, facts[f].value);
      }
    }
  }

  lemma StepKeeps(s: State, run: seq<Action>, a: Action)
    requires Inv(s, run, Run(s, run))
    ensures Inv(s, run + [a], Step(Run(s, run), a))
  {
    hide Run, Sound, SoundFacts, Applied, Answered, Patched, StoreFacts;
    var now := Run(s, run);
    InvHolds(s, run, now, a);
    match a
    case ReadForApply(_, _, _) => ReadIsSound(s, run, a);
    case ReadForConfirm(_, _, _, _) => ReadIsSound(s, run, a);
    case ReadKeyDates(j) =>
      if j in now.jobs {
        match now.jobs[j]
        case Applying(c, facts) =>
          if c in now.cases { AppliedIsSound(s, run + [a], c, facts, now.cases[c]); }
        case Confirming(_, c, facts) =>
          if c in now.cases { AppliedIsSound(s, run + [a], c, facts, now.cases[c]); }
        case _ =>
      }
    case _ =>
  }

  lemma {:induction false} RunKeeps(s: State, run: seq<Action>)
    requires s.jobs == map[]
    ensures Inv(s, run, Run(s, run))
  {
    if run == [] {
    } else {
      var front, last := run[..|run| - 1], run[|run| - 1];
      RunKeeps(s, front);
      StepKeeps(s, front, last);
      assert run == front + [last];
    }
  }

  // ---- What every run promises ----

  /** No run changes an entry of key_dates other than extracted_<safe field>: personal data stays out
      even when the user confirms it. */
  lemma OnlySafeFieldsChange(s: State, run: seq<Action>, c: Id, k: Key)
    requires s.jobs == map[] && c in s.cases && !MayChange(k)
    ensures c in Run(s, run).cases
    ensures k in Run(s, run).cases[c] <==> k in s.cases[c]
    ensures k in s.cases[c] ==> Run(s, run).cases[c][k] == s.cases[c][k]
  {
    RunKeeps(s, run);
    hide Run;
    assert Sound(s, run, c, Run(s, run).cases[c]);
    assert k in s.cases[c].Keys + Run(s, run).cases[c].Keys
           <==> k in s.cases[c] || k in Run(s, run).cases[c];
  }

  lemma PersonalDataStaysOut(s: State, run: seq<Action>, c: Id, f: Field)
    requires s.jobs == map[] && c in s.cases && Pii(f) && Extracted(f) !in s.cases[c]
    ensures c in Run(s, run).cases && Extracted(f) !in Run(s, run).cases[c]
  {
    OnlySafeFieldsChange(s, run, c, Extracted(f));
  }

  /** Every value a run leaves in key_dates was there before it, or was the value of a confirmed or
      corrected safe fact of that case when one of its applies read it. */
  lemma AppliedValuesAreEvidenced(s: State, run: seq<Action>, c: Id, f: Field)
    requires s.jobs == map[] && c in Run(s, run).cases && Safe(f) && Extracted(f) in Run(s, run).cases[c]
    ensures Evidenced(s, run, c, f, Run(s, run).cases[c][Extracted(f)])
  {
    RunKeeps(s, run);
    hide Run, Evidenced;
    assert Sound(s, run, c, Run(s, run).cases[c]);
  }

  function ApplyRequest(j: nat, doc: Id, c: Id): seq<Action> {
    [ReadForApply(j, doc, c), ReadKeyDates(j), Commit(j)]
  }

  lemma {:induction false} RunAppend(s: State, one: seq<Action>, two: seq<Action>)
    ensures Run(s, one + two) == Run(Run(s, one), two)
  {
    if two == [] {
      assert one + two == one;
    } else {
      var front, last := two[..|two| - 1], two[|two| - 1];
      RunAppend(s, one, front);
      assert (one + two)[..|one + two| - 1] == one + front;
    }
  }

  lemma ApplyRequestDoes(s: State, j: nat, doc: Id, c: Id)
    requires j !in s.jobs
    ensures Run(s, ApplyRequest(j, doc, c))
            == if Found(s, doc, c) && c in s.cases
               then s.(cases := s.cases[c := Applied(s.uploads[doc].facts, s.cases[c])]) else s
  {
    hide Applied;
    var run := ApplyRequest(j, doc, c);
    assert run[..2] == [ReadForApply(j, doc, c), ReadKeyDates(j)];
    assert run[..2][..1] == [ReadForApply(j, doc, c)] && run[..2][..1][..0] == [];
    var s1 := Step(s, run[0]);
    var s2 := Step(s1, run[1]);
    assert Run(s, run[..2][..1]) == s1;
    assert Run(s, run[..2]) == s2;
    assert Step(s2, run[2]).jobs == s.jobs;
  }

  /** Applying again, with no answers in between, leaves the whole state as it is. */
  lemma ReapplyingIsNoOp(s: State, i: nat, j: nat, doc: Id, c: Id)
    requires i !in s.jobs && j !in s.jobs
    ensures Run(s, ApplyRequest(i, doc, c) + ApplyRequest(j, doc, c)) == Run(s, ApplyRequest(i, doc, c))
  {
    hide Run, Applied, ApplyRequest;
    var s1 := Run(s, ApplyRequest(i, doc, c));
    RunAppend(s, ApplyRequest(i, doc, c), ApplyRequest(j, doc, c));
    ApplyRequestDoes(s, i, doc, c);
    ApplyRequestDoes(s1, j, doc, c);
    if Found(s, doc, c) && c in s.cases {
      ApplyingAgainChangesNothing(s.uploads[doc].facts, s.cases[c]);
      assert s1.cases[c := s1.cases[c]] == s1.cases;
    }
  }
}
