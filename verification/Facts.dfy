/** Facts extracted from an uploaded document: the user's answers, and what of them reaches the case. */
module Facts {
  import opened Wrappers

  /** The extractor's field names; any other name is Other. */
  datatype Field =
    | EdtCandidate | EmploymentStartDate | GrossPay | DismissalReason | NoticePeriod | ProcedureConcerns
    | EmployerName | EmployeeName
    | Other(name: string)

  /** SAFE_TO_APPLY_FIELDS */
  predicate Safe(f: Field) {
    match f
    case EdtCandidate | EmploymentStartDate | GrossPay | DismissalReason | NoticePeriod | ProcedureConcerns => true
    case _ => false
  }

  /** PII_FIELDS */
  predicate Pii(f: Field) {
    f == EmployerName || f == EmployeeName
  }

  /** Unreviewed is any other status text. */
  datatype Status = Unreviewed | Confirmed | Corrected | Rejected

  /** A fact's value; "" stands for every value Python takes as false. */
  datatype Fact = Fact(status: Status, value: string)

  /** One entry of a request. No status means that the entry has none (a null one is Unreviewed); no
      value means that it is absent or null. */
  datatype Update = Update(status: Option<Status>, value: Option<string>)

  /** The names in key_dates: f"extracted_{field}", and all others. */
  datatype Key = Extracted(field: Field) | Plain(name: string)

  predicate IsAnswer(s: Status) {
    s == Confirmed || s == Corrected || s == Rejected
  }

  predicate Accepted(fact: Fact) {
    fact.status == Confirmed || fact.status == Corrected
  }

  // ---- The two endpoints that take answers ----

  /** What PATCH makes of one fact: a value counts only as a correction. */
  function PatchedFact(fact: Fact, u: Update): Fact {
    if u.status == None || !IsAnswer(u.status.value) then fact
    else Fact(u.status.value, if u.status.value == Corrected && u.value.Some? then u.value.value else fact.value)
  }

  /** What the upload route makes of it: silence confirms, and a value counts whatever the status. */
  function ConfirmedFact(fact: Fact, u: Update): Fact {
    var status := if u.status.Some? then u.status.value else Confirmed;
    if !IsAnswer(status) then fact
    else Fact(status, if u.value.Some? then u.value.value else fact.value)
  }

  function Patched(facts: map<Field, Fact>, updates: map<Field, Update>): map<Field, Fact> {
    map f | f in facts :: if f in updates then PatchedFact(facts[f], updates[f]) else facts[f]
  }

  /** No updates at all confirm everything. */
  function WithDefault(facts: map<Field, Fact>, updates: map<Field, Update>): map<Field, Update> {
    if updates != map[] then updates else map f | f in facts :: Update(Some(Confirmed), None)
  }

  function Answered(facts: map<Field, Fact>, updates: map<Field, Update>): map<Field, Fact> {
    var updates := WithDefault(facts, updates);
    map f | f in facts :: if f in updates then ConfirmedFact(facts[f], updates[f]) else facts[f]
  }

  method UpdateExtractedFacts(facts: map<Field, Fact>, updates: map<Field, Update>)
    returns (current: map<Field, Fact>)
    ensures current == Patched(facts, updates)
  {
    current := facts;
    var todo := updates.Keys;
    while todo != {}
      invariant todo <= updates.Keys && current.Keys == facts.Keys
      invariant forall f | f in facts ::
                  current[f] == if f in updates && f !in todo then PatchedFact(facts[f], updates[f]) else facts[f]
    {
      var f :| f in todo;
      todo := todo - {f};
      if f in current {
        var u := updates[f];
        if u.status.Some? && IsAnswer(u.status.value) {
          current := current[f := current[f].(status := u.status.value)];
          if u.status.value == Corrected && u.value.Some? {
            current := current[f := current[f].(value := u.value.value)];
          }
        }
      }
    }
  }

  method ConfirmUploadFacts(facts: map<Field, Fact>, given: map<Field, Update>)
    returns (current: map<Field, Fact>)
    ensures current == Answered(facts, given)
  {
    current := facts;
    var updates := given;
    if updates == map[] {
      updates := map f | f in facts :: Update(Some(Confirmed), None);
    }
    var todo := updates.Keys;
    while todo != {}
      invariant todo <= updates.Keys && current.Keys == facts.Keys
      invariant forall f | f in facts ::
                  current[f] == if f in updates && f !in todo then ConfirmedFact(facts[f], updates[f]) else facts[f]
    {
      var f :| f in todo;
      todo := todo - {f};
      if f in current {
        var u := updates[f];
        var status := if u.status.Some? then u.status.value else Confirmed;
        if IsAnswer(status) {
          current := current[f := current[f].(status := status)];
          if u.value.Some? {
            current := current[f := current[f].(value := u.value.value)];
          }
        }
      }
    }
  }

  /** On these entries the two endpoints do the same. */
  predicate SameMeaning(fact: Fact, u: Update) {
    match u.status
    case None => fact.status == Confirmed && (u.value == None || u.value == Some(fact.value))
    case Some(status) => !IsAnswer(status) || status == Corrected || u.value == None || u.value == Some(fact.value)
  }

  /** The endpoints agree on a request with entries exactly when no entry leaves the status out (unless
      the fact is confirmed already) or changes the value without saying corrected. */
  lemma EndpointsAgreeExactlyWhen(facts: map<Field, Fact>, updates: map<Field, Update>)
    requires updates != map[]
    ensures Patched(facts, updates) == Answered(facts, updates)
            <==> forall f | f in facts && f in updates :: SameMeaning(facts[f], updates[f])
  {
    forall f | f in facts && f in updates
      ensures PatchedFact(facts[f], updates[f]) == ConfirmedFact(facts[f], updates[f])
              <==> SameMeaning(facts[f], updates[f])
    {
    }
    var p, a := Patched(facts, updates), Answered(facts, updates);
    if p == a {
      forall f | f in facts && f in updates ensures SameMeaning(facts[f], updates[f]) {
        assert p[f] == a[f];
      }
    }
  }

  // ---- Applying to the case ----

  predicate Applicable(facts: map<Field, Fact>, f: Field) {
    Safe(f) && f in facts && Accepted(facts[f]) && facts[f].value != ""
  }

  function AppliedFields(facts: map<Field, Fact>): set<Field> {
    set f | f in facts && Applicable(facts, f)
  }

  function KeysOf(fields: set<Field>): (keys: set<Key>)
    ensures forall k :: k in keys <==> k.Extracted? && k.field in fields
  {
    set f | f in fields :: Extracted(f)
  }

  function WithFields(facts: map<Field, Fact>, fields: set<Field>, dates: map<Key, string>): map<Key, string>
    requires fields <= facts.Keys
  {
    dates + map k | k in KeysOf(fields) :: facts[k.field].value
  }

  function Applied(facts: map<Field, Fact>, dates: map<Key, string>): map<Key, string> {
    WithFields(facts, AppliedFields(facts), dates)
  }

  lemma OneFieldMore(facts: map<Field, Fact>, fields: set<Field>, f: Field, dates: map<Key, string>)
    requires fields <= facts.Keys && f in facts
    ensures WithFields(facts, fields + {f}, dates) == WithFields(facts, fields, dates)[Extracted(f) := facts[f].value]
  {
  }

  lemma OneFieldLess(facts: map<Field, Fact>, todo: set<Field>, f: Field)
    requires f in todo && todo <= facts.Keys
    ensures AppliedFields(facts) - (todo - {f})
            == AppliedFields(facts) - todo + if Applicable(facts, f) then {f} else {}
  {
    hide Applicable;
  }

  method ApplyConfirmedToKeyDates(facts: map<Field, Fact>, dates: map<Key, string>)
    returns (updated: map<Key, string>, applied: set<Field>)
    ensures updated == Applied(facts, dates)
    ensures applied == AppliedFields(facts)
  {
    hide AppliedFields, WithFields, Safe;
    updated := dates;
    applied := {};
    var todo := facts.Keys;
    NothingAppliedYet(facts, dates);
    while todo != {}
      invariant todo <= facts.Keys && applied <= facts.Keys
      invariant applied == AppliedFields(facts) - todo
      invariant updated == WithFields(facts, applied, dates)
    {
      var f :| f in todo;
      OneFieldLess(facts, todo, f);
      OneFieldMore(facts, applied, f, dates);
      todo := todo - {f};
      if Safe(f) && Accepted(facts[f]) && facts[f].value != "" {
        updated := updated[Extracted(f) := facts[f].value];
        applied := applied + {f};
      }
    }
    assert AppliedFields(facts) - {} == AppliedFields(facts);
  }

  lemma NothingAppliedYet(facts: map<Field, Fact>, dates: map<Key, string>)
    ensures AppliedFields(facts) - facts.Keys == {} && WithFields(facts, {}, dates) == dates
  {
  }

  /** Entry by entry: an applicable fact overrides, everything else stays, also what an earlier
      answer put there and a later one rejected. */
  lemma AppliedAt(facts: map<Field, Fact>, dates: map<Key, string>, k: Key)
    ensures k in Applied(facts, dates)
            <==> k in dates || (k.Extracted? && Applicable(facts, k.field))
    ensures k in Applied(facts, dates) ==>
              Applied(facts, dates)[k]
              == if k.Extracted? && Applicable(facts, k.field) then facts[k.field].value else dates[k]
  {
  }

  /** No personal data is ever applied, confirmed or not. */
  lemma PersonalDataStays(facts: map<Field, Fact>, dates: map<Key, string>, f: Field)
    requires Pii(f)
    ensures Extracted(f) in Applied(facts, dates) <==> Extracted(f) in dates
    ensures Extracted(f) in dates ==> Applied(facts, dates)[Extracted(f)] == dates[Extracted(f)]
  {
    AppliedAt(facts, dates, Extracted(f));
  }

  lemma ApplyingAgainChangesNothing(facts: map<Field, Fact>, dates: map<Key, string>)
    ensures Applied(facts, Applied(facts, dates)) == Applied(facts, dates)
  {
  }

  /** Of two overlapping applications that read the same key_dates, the first is lost unless what it
      applied was there already or is applied by the second as well. */
  lemma OverlappingAppliesLoseNothingExactlyWhen(one: map<Field, Fact>, two: map<Field, Fact>, dates: map<Key, string>)
    ensures Applied(two, dates) == Applied(two, Applied(one, dates))
            <==> forall f | Applicable(one, f) && !Applicable(two, f) ::
                   Extracted(f) in dates && dates[Extracted(f)] == one[f].value
  {
    var lost, serial := Applied(two, dates), Applied(two, Applied(one, dates));
    if lost == serial {
      forall f | Applicable(one, f) && !Applicable(two, f)
        ensures Extracted(f) in dates && dates[Extracted(f)] == one[f].value
      {
        AppliedAt(one, dates, Extracted(f));
        AppliedAt(two, dates, Extracted(f));
        AppliedAt(two, Applied(one, dates), Extracted(f));
      }
    }
    if forall f | Applicable(one, f) && !Applicable(two, f) ::
         Extracted(f) in dates && dates[Extracted(f)] == one[f].value
    {
      forall k ensures (k in lost <==> k in serial) && (k in lost ==> lost[k] == serial[k]) {
        AppliedAt(one, dates, k);
        AppliedAt(two, dates, k);
        AppliedAt(two, Applied(one, dates), k);
      }
      assert lost == serial;
    }
  }

  // ---- The facts of a bundle ----

  /** A placeholder starts with "[Extracted". */
  const PLACEHOLDER_MARK := "[Extracted"

  predicate Usable(fact: Fact) {
    Accepted(fact) && fact.value != "" && !(PLACEHOLDER_MARK <= fact.value)
  }

  predicate Provides(uploads: seq<map<Field, Fact>>, i: nat, f: Field) {
    i < |uploads| && f in uploads[i] && Usable(uploads[i][f])
  }

  /** i is the last upload that provides f. */
  predicate LastProvider(uploads: seq<map<Field, Fact>>, i: nat, f: Field) {
    Provides(uploads, i, f) && forall j | i < j < |uploads| :: !Provides(uploads, j, f)
  }

  /** Every usable field of any upload, with the value of the last upload that provides it. */
  method GetConfirmedFacts(uploads: seq<map<Field, Fact>>) returns (result: map<Field, string>)
    ensures forall f :: f in result <==> exists i: nat :: Provides(uploads, i, f)
    ensures forall f, i: nat | LastProvider(uploads, i, f) :: f in result && result[f] == uploads[i][f].value
  {
    result := map[];
    for i := 0 to |uploads|
      invariant forall f :: f in result <==> exists k: nat :: k < i && Provides(uploads, k, f)
      invariant forall f, k: nat | k < i && Provides(uploads, k, f)
                                   && forall j | k < j < i :: !Provides(uploads, j, f) ::
                  f in result && result[f] == uploads[k][f].value
    {
      var usable := OneUpload(uploads[i]);
      forall f ensures f in result + usable <==> exists k: nat :: k < i + 1 && Provides(uploads, k, f) {
        if f in usable {
          assert Provides(uploads, i, f);
        }
      }
      forall f, k: nat | k < i + 1 && Provides(uploads, k, f) && forall j | k < j < i + 1 :: !Provides(uploads, j, f)
        ensures f in result + usable && (result + usable)[f] == uploads[k][f].value
      {
        assert k < i ==> !Provides(uploads, i, f);
        assert f in usable <==> k == i;
      }
      result := result + usable;
    }
    forall f, k: nat | LastProvider(uploads, k, f) ensures f in result && result[f] == uploads[k][f].value {
      assert k < |uploads|;
    }
  }

  method OneUpload(facts: map<Field, Fact>) returns (usable: map<Field, string>)
    ensures forall f :: f in usable <==> f in facts && Usable(facts[f])
    ensures forall f | f in usable :: usable[f] == facts[f].value
  {
    usable := map[];
    var todo := facts.Keys;
    while todo != {}
      invariant todo <= facts.Keys
      invariant forall f :: f in usable <==> f in facts && f !in todo && Usable(facts[f])
      invariant forall f | f in usable :: usable[f] == facts[f].value
    {
      var f :| f in todo;
      todo := todo - {f};
      if Accepted(facts[f]) && facts[f].value != "" && !(PLACEHOLDER_MARK <= facts[f].value) {
        usable := usable[f := facts[f].value];
      }
    }
  }
}
