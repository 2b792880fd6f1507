/** The legal evaluation rubric and its bookkeeping. */
module Evaluator {
  import opened Wrappers
  import opened Text

  /** A value under a key: absent or falsy, a non-empty mapping with or without a "source"
      key, or anything else that is truthy. */
  datatype Field = Falsy | Mapping(source: Option<string>) | Opaque

  /** A citation is a mapping or plain text. */
  datatype Citation = Record(cite: string) | Plain(cite: string)

  datatype Status = Ok | InsufficientGrounding | NotSupported | MissingEdt | LowConfidence | Error | OtherStatus

  /** The parts of a draft assessment the checks read; `weaknesses` is key_weaknesses as text. */
  datatype Assessment = Assessment(
    reasoningSummary: string, nextStep: string, message: string, weaknesses: string, statesWeaknesses: bool,
    deadlineInfo: Field, deadline: Field, jurisdiction: string, status: Status,
    citations: seq<Citation>, viable: bool, leaksPii: bool)

  datatype Severity = Low | Medium | High | Critical

  datatype CheckName =
    | CitationValidity | Jurisdiction | DeadlineSource | NoOverconfidentAdvice | DeadlineStatementAccuracy
    | HonestyWeaknessesPresent | EvidenceGapsAcknowledged | NoPiiInOutput
    | NoGuaranteeLanguage | NoReservedActivity | DeadlineFromRules | JurisdictionValid | CriticCitationIntegrity

  datatype Check = Check(name: CheckName, passed: bool, severity: Severity)

  datatype Failure =
    | LowPassRate | NoCitations | JurisdictionMismatch | DeadlineNotFromRules | GuaranteeLanguage | ReservedActivity
    | IncorrectDeadline | MissingWeaknesses | MissingFacts | PiiInOutput | InvalidJurisdiction | CitationUnresolved

  datatype Evaluation = Evaluation(passed: bool, checks: seq<Check>, failures: seq<Failure>,
                                   criticalFailures: nat, highFailures: nat)

  const GUARANTEE_PHRASES: seq<string> := [
    "guaranteed to win", "you will win", "you will receive", "you are entitled to",
    "definite outcome", "certain to succeed", "will definitely", "100% chance"]

  const RESERVED_ACTIVITY_PHRASES: seq<string> := [
    "we will file", "we will represent", "we will conduct", "we will litigate",
    "lawapp will file", "lawapp will represent"]

  const INCORRECT_DEADLINES: seq<string> := [
    "6 months to bring unfair dismissal", "12 months to claim", "1 year to bring", "two years to claim"]

  function EvaluatedText(a: Assessment): string {
    Lower(a.reasoningSummary + " " + a.nextStep + " " + a.message)
  }

  predicate NoneOccurs(phrases: seq<string>, text: string) {
    forall p | p in phrases :: !Contains(text, p)
  }

  predicate FromRules(source: Option<string>) {
    source == Some("rules") || source == Some("rules_engine")
  }

  predicate Grounded(status: Status) {
    status == InsufficientGrounding || status == NotSupported || status == MissingEdt || status == LowConfidence
  }

  predicate OutOfReach(status: Status) {
    status == NotSupported || status == InsufficientGrounding
  }

  // ---- What each check asks ----

  predicate CitationsOk(a: Assessment, verified: bool) {
    if a.citations != [] then verified else Grounded(a.status)
  }

  predicate JurisdictionOk(a: Assessment, requested: string) {
    Lower(a.jurisdiction) == Lower(requested) || OutOfReach(a.status)
  }

  predicate DeadlineSourceOk(a: Assessment) {
    a.deadlineInfo == Falsy || (a.deadlineInfo.Mapping? && FromRules(a.deadlineInfo.source))
  }

  predicate NoGuarantees(a: Assessment) {
    NoneOccurs(GUARANTEE_PHRASES, EvaluatedText(a))
  }

  predicate NothingReserved(a: Assessment) {
    NoneOccurs(RESERVED_ACTIVITY_PHRASES, EvaluatedText(a))
  }

  predicate AdviceOk(a: Assessment) {
    NoGuarantees(a) && NothingReserved(a)
  }

  predicate StatementsOk(a: Assessment) {
    NoneOccurs(INCORRECT_DEADLINES, EvaluatedText(a))
  }

  predicate HonestyOk(a: Assessment) {
    a.viable ==> a.statesWeaknesses
  }

  predicate OnlyRecommended(gaps: seq<string>) {
    forall i | 0 <= i < |gaps| :: "recommended:" <= gaps[i]
  }

  predicate GapsOk(a: Assessment, gaps: seq<string>) {
    OnlyRecommended(gaps) || OutOfReach(a.status)
  }

  predicate PassesAll(a: Assessment, verified: bool, requested: string, gaps: seq<string>) {
    && CitationsOk(a, verified) && JurisdictionOk(a, requested) && DeadlineSourceOk(a) && AdviceOk(a)
    && StatementsOk(a) && HonestyOk(a) && GapsOk(a, gaps) && !a.leaksPii
  }

  function FailingFrom(checks: seq<Check>, i: nat): nat
    decreases |checks| - i
  {
    if i >= |checks| then 0 else FailingFrom(checks, i + 1) + if checks[i].passed then 0 else 1
  }

  function Failing(checks: seq<Check>): nat {
    FailingFrom(checks, 0)
  }

  function FailingAt(checks: seq<Check>, severity: Severity): nat {
    if checks == [] then 0
    else FailingAt(checks[1..], severity) + if !checks[0].passed && checks[0].severity == severity then 1 else 0
  }

  /** The first phrase of the list that occurs in the text. */
  method FindPhrase(phrases: seq<string>, text: string) returns (found: Option<string>)
    ensures found == None <==> NoneOccurs(phrases, text)
    ensures found.Some? ==> exists i :: 0 <= i < |phrases| && phrases[i] == found.value && Contains(text, found.value)
                                        && NoneOccurs(phrases[..i], text)
  {
    for i := 0 to |phrases|
      invariant NoneOccurs(phrases[..i], text)
    {
      if Contains(text, phrases[i]) {
        return Some(phrases[i]);
      }
    }
    assert phrases[..|phrases|] == phrases;
    return None;
  }

  method FindBlockedPhrases(a: Assessment)
    returns (guarantee: Option<string>, reserved: Option<string>, incorrect: Option<string>)
    ensures guarantee == None <==> NoGuarantees(a)
    ensures reserved == None <==> NothingReserved(a)
    ensures incorrect == None <==> StatementsOk(a)
  {
    var text := EvaluatedText(a);
    guarantee := FindPhrase(GUARANTEE_PHRASES, text);
    reserved := FindPhrase(RESERVED_ACTIVITY_PHRASES, text);
    incorrect := FindPhrase(INCORRECT_DEADLINES, text);
  }

  method RequiredGaps(gaps: seq<string>) returns (required: seq<string>)
    ensures required == [] <==> OnlyRecommended(gaps)
  {
    required := [];
    for i := 0 to |gaps|
      invariant required == [] <==> forall j | 0 <= j < i :: "recommended:" <= gaps[j]
    {
      if !("recommended:" <= gaps[i]) {
        required := required + [gaps[i]];
      }
    }
  }

  /** `verified` is the citation verifier's verdict (true when it is unavailable). A deadline that is
      truthy but no mapping has no `.get`: the evaluation raises. */
  method EvaluateAssessment(a: Assessment, verified: bool, requested: string, gaps: seq<string>)
    returns (result: Option<Evaluation>)
    ensures result == None <==> a.deadlineInfo == Opaque
    ensures result.Some? ==>
              var r := result.value;
              && |r.checks| == 8
              && (r.passed <==> PassesAll(a, verified, requested, gaps))
              && (r.passed <==> forall i | 0 <= i < 8 :: r.checks[i].passed)
              && (r.passed <==> r.failures == [])
              && (r.checks[2].passed <==> DeadlineSourceOk(a))
              && (r.checks[3].passed <==> AdviceOk(a)) && r.checks[3].severity == Critical
              && r.criticalFailures == FailingAt(r.checks, Critical) && r.highFailures == FailingAt(r.checks, High)
    // One line per failing check, except that a text with both kinds of phrase gets two.
    ensures result.Some? ==>
              |result.value.failures|
              == Failing(result.value.checks) + if NoGuarantees(a) || NothingReserved(a) then 0 else 1
  {
    hide NoGuarantees, NothingReserved, StatementsOk, FailingAt, FailingFrom, JurisdictionOk;
    if a.deadlineInfo == Opaque {
      return None;
    }
    var checks, failures := CheckSources(a, verified, requested);
    var more, moreFailures := CheckContent(a, gaps);
    checks, failures := checks + more, failures + moreFailures;
    FailingOfEight(checks);
    var critical := CountFailing(checks, Critical);
    var high := CountFailing(checks, High);
    result := Some(Evaluation(failures == [], checks, failures, critical, high));
  }

  /** Checks 1 to 3. */
  method CheckSources(a: Assessment, verified: bool, requested: string)
    returns (checks: seq<Check>, failures: seq<Failure>)
    requires a.deadlineInfo != Opaque
    ensures |checks| == 3
    ensures checks[0].passed <==> CitationsOk(a, verified)
    ensures checks[1].passed <==> JurisdictionOk(a, requested)
    ensures checks[2].passed <==> DeadlineSourceOk(a)
    ensures |failures| == One(!checks[0].passed) + One(!checks[1].passed) + One(!checks[2].passed)
  {
    hide JurisdictionOk;
    checks, failures := [], [];
    if a.citations != [] {
      checks, failures := Note(checks, failures, Check(CitationValidity, verified, High), LowPassRate);
    } else {
      checks, failures := Note(checks, failures, Check(CitationValidity, Grounded(a.status), Medium), NoCitations);
    }

    checks, failures := Note(checks, failures,
      Check(Jurisdiction, JurisdictionOk(a, requested), Critical), JurisdictionMismatch);

    if a.deadlineInfo.Mapping? {
      checks, failures := Note(checks, failures,
        Check(DeadlineSource, FromRules(a.deadlineInfo.source), Critical), DeadlineNotFromRules);
    } else {
      checks := checks + [Check(DeadlineSource, true, Low)];
    }
  }

  /** Checks 4 to 8. */
  method CheckContent(a: Assessment, gaps: seq<string>) returns (checks: seq<Check>, failures: seq<Failure>)
    ensures |checks| == 5 && checks[0].severity == Critical
    ensures checks[0].passed <==> AdviceOk(a)
    ensures checks[1].passed <==> StatementsOk(a)
    ensures checks[2].passed <==> HonestyOk(a)
    ensures checks[3].passed <==> GapsOk(a, gaps)
    ensures checks[4].passed <==> !a.leaksPii
    ensures |failures| == One(!NoGuarantees(a)) + One(!NothingReserved(a)) + One(!checks[1].passed)
                          + One(!checks[2].passed) + One(!checks[3].passed) + One(!checks[4].passed)
  {
    hide AdviceOk, StatementsOk, HonestyOk, GapsOk, NoGuarantees, NothingReserved, One;
    var ofText, textFailures := CheckText(a);
    var ofFacts, factFailures := CheckFacts(a, gaps);
    checks, failures := ofText + ofFacts, textFailures + factFailures;
  }

  /** Checks 4 and 5. */
  method CheckText(a: Assessment) returns (checks: seq<Check>, failures: seq<Failure>)
    ensures |checks| == 2 && checks[0].severity == Critical
    ensures checks[0].passed <==> AdviceOk(a)
    ensures checks[1].passed <==> StatementsOk(a)
    ensures |failures| == One(!NoGuarantees(a)) + One(!NothingReserved(a)) + One(!checks[1].passed)
  {
    hide NoGuarantees, NothingReserved, StatementsOk;
    var guarantee, reserved, incorrect := FindBlockedPhrases(a);
    checks, failures := NoteAdvice([], [], guarantee, reserved);

    checks, failures := Note(checks, failures,
      Check(DeadlineStatementAccuracy, incorrect == None, if incorrect.Some? then Critical else Medium),
      IncorrectDeadline);
  }

  /** Checks 6 to 8. */
  method CheckFacts(a: Assessment, gaps: seq<string>) returns (checks: seq<Check>, failures: seq<Failure>)
    ensures |checks| == 3
    ensures checks[0].passed <==> HonestyOk(a)
    ensures checks[1].passed <==> GapsOk(a, gaps)
    ensures checks[2].passed <==> !a.leaksPii
    ensures |failures| == One(!checks[0].passed) + One(!checks[1].passed) + One(!checks[2].passed)
  {
    hide OnlyRecommended;
    checks, failures := Note([], [],
      Check(HonestyWeaknessesPresent, !a.viable || a.statesWeaknesses, High), MissingWeaknesses);

    var required := RequiredGaps(gaps);
    var ignored := required != [] && !OutOfReach(a.status);
    checks, failures := Note(checks, failures,
      Check(EvidenceGapsAcknowledged, !ignored, if ignored then High else Medium), MissingFacts);

    checks, failures := Note(checks, failures, Check(NoPiiInOutput, !a.leaksPii, Critical), PiiInOutput);
  }

  /** Append a check, and its failure line when it failed. */
  method Note(checks: seq<Check>, failures: seq<Failure>, check: Check, failure: Failure)
    returns (checks': seq<Check>, failures': seq<Failure>)
    ensures checks' == checks + [check]
    ensures |failures'| == |failures| + One(!check.passed)
    ensures failures' == [] <==> failures == [] && check.passed
  {
    checks', failures' := checks + [check], failures;
    if !check.passed {
      failures' := failures' + [failure];
    }
  }

  /** The advice check alone can add two lines. */
  method NoteAdvice(checks: seq<Check>, failures: seq<Failure>, guarantee: Option<string>, reserved: Option<string>)
    returns (checks': seq<Check>, failures': seq<Failure>)
    ensures checks' == checks + [Check(NoOverconfidentAdvice, guarantee == None && reserved == None, Critical)]
    ensures |failures'| == |failures| + One(guarantee.Some?) + One(reserved.Some?)
  {
    checks' := checks + [Check(NoOverconfidentAdvice, guarantee == None && reserved == None, Critical)];
    failures' := failures;
    if guarantee.Some? {
      failures' := failures' + [GuaranteeLanguage];
    }
    if reserved.Some? {
      failures' := failures' + [ReservedActivity];
    }
  }

  method CountFailing(checks: seq<Check>, severity: Severity) returns (n: nat)
    ensures n == FailingAt(checks, severity)
    ensures n == 0 <==> forall i | 0 <= i < |checks| && checks[i].severity == severity :: checks[i].passed
  {
    n := 0;
    var i := |checks|;
    while i > 0
      invariant 0 <= i <= |checks|
      invariant n == FailingAt(checks[i..], severity)
      invariant n == 0 <==> forall j | i <= j < |checks| && checks[j].severity == severity :: checks[j].passed
    {
      i := i - 1;
      if !checks[i].passed && checks[i].severity == severity {
        n := n + 1;
      }
    }
  }

  function One(failing: bool): nat {
    if failing then 1 else 0
  }

  lemma FailingOfEight(c: seq<Check>)
    requires |c| == 8
    ensures Failing(c) == One(!c[0].passed) + One(!c[1].passed) + One(!c[2].passed) + One(!c[3].passed)
                          + One(!c[4].passed) + One(!c[5].passed) + One(!c[6].passed) + One(!c[7].passed)
  {
    assert FailingFrom(c, 7) == One(!c[7].passed);
    assert FailingFrom(c, 5) == One(!c[5].passed) + One(!c[6].passed) + FailingFrom(c, 7);
    assert FailingFrom(c, 3) == One(!c[3].passed) + One(!c[4].passed) + FailingFrom(c, 5);
    assert FailingFrom(c, 1) == One(!c[1].passed) + One(!c[2].passed) + FailingFrom(c, 3);
  }
}
