/** The safety policy applied to every draft, and how it relates to the evaluator. */
module SafetyGate {
  import opened Wrappers
  import opened Text
  import opened Evaluator

  const SAFETY_GUARANTEE_PHRASES: seq<string> := [
    "guaranteed to win", "you will win", "you will receive", "you are entitled to",
    "definite outcome", "certain to succeed", "will definitely", "100% chance"]

  const SAFETY_RESERVED_PHRASES: seq<string> := [
    "we will file", "we will represent", "we will conduct", "we will litigate",
    "lawapp will file", "lawapp will represent", "we are your solicitor", "we are your lawyer"]

  /** One field more than the evaluator reads. */
  function GateText(a: Assessment): string {
    Lower(a.reasoningSummary + " " + a.nextStep + " " + a.message + " " + a.weaknesses)
  }

  predicate Clean(a: Assessment, phrases: seq<string>) {
    NoneOccurs(phrases, GateText(a))
  }

  /** deadline_info or deadline or {} */
  function ChosenDeadline(a: Assessment): Field {
    if a.deadlineInfo != Falsy then a.deadlineInfo else a.deadline
  }

  predicate DeadlineTrusted(a: Assessment) {
    ChosenDeadline(a).Mapping? ==> FromRules(ChosenDeadline(a).source)
  }

  datatype CriticVerdict = Resolves | DoesNotResolve | CriticRaises

  /** The critic is asked about the citations that are mappings, and only if there are any. */
  predicate CitesRecord(a: Assessment) {
    exists c | c in a.citations :: c.Record?
  }

  predicate CriticPasses(a: Assessment, critic: CriticVerdict) {
    CitesRecord(a) ==> critic == Resolves
  }

  /** What the gate blocks on; the jurisdiction check is recorded but blocks nothing. */
  predicate Safe(a: Assessment, critic: CriticVerdict) {
    && Clean(a, SAFETY_GUARANTEE_PHRASES) && Clean(a, SAFETY_RESERVED_PHRASES)
    && DeadlineTrusted(a)
    && CriticPasses(a, critic)
  }

  predicate JurisdictionKnown(a: Assessment, supported: set<string>) {
    a.jurisdiction in supported || a.status == NotSupported
  }

  datatype SafetyResult = SafetyResult(passed: bool, blocked: bool, failures: seq<Failure>, checks: seq<Check>)

  method RunSafetyChecks(a: Assessment, critic: CriticVerdict, supported: set<string>) returns (r: SafetyResult)
    ensures r.blocked <==> !Safe(a, critic)
    ensures r.passed <==> !r.blocked
    ensures r.failures == [] <==> Safe(a, critic) && JurisdictionKnown(a, supported)
    ensures |r.checks| == 5 && (forall i | 0 <= i < 5 :: r.checks[i].severity == if i == 3 then High else Critical)
  {
    hide Clean, DeadlineTrusted, CriticPasses, JurisdictionKnown, FailingAt;
    var language, phrases, forbidden := CheckLanguage(a);
    var sources, unsourced, untrusted := CheckSources(a, critic, supported);
    var checks := language + sources;
    var criticalFailures := CountFailing(checks, Critical);
    assert checks[0].passed && checks[1].passed && checks[2].passed && checks[4].passed <==> !forbidden && !untrusted;
    r := SafetyResult(criticalFailures == 0, forbidden || untrusted, phrases + unsourced, checks);
  }

  /** Checks 1 and 2. */
  method CheckLanguage(a: Assessment) returns (checks: seq<Check>, failures: seq<Failure>, blocked: bool)
    ensures blocked <==> !(Clean(a, SAFETY_GUARANTEE_PHRASES) && Clean(a, SAFETY_RESERVED_PHRASES))
    ensures failures == [] <==> !blocked
    ensures |checks| == 2 && checks[0].severity == checks[1].severity == Critical
    ensures blocked <==> !checks[0].passed || !checks[1].passed
  {
    hide Clean;
    var guarantee, reserved := FindForbidden(a);
    checks, failures := Note([], [], Check(NoGuaranteeLanguage, guarantee == None, Critical), GuaranteeLanguage);
    blocked := guarantee.Some?;

    checks, failures := Note(checks, failures, Check(NoReservedActivity, reserved == None, Critical), ReservedActivity);
    if reserved.Some? {
      blocked := true;
    }
  }

  /** Checks 3 to 5. */
  method CheckSources(a: Assessment, critic: CriticVerdict, supported: set<string>)
    returns (checks: seq<Check>, failures: seq<Failure>, blocked: bool)
    ensures blocked <==> !(DeadlineTrusted(a) && CriticPasses(a, critic))
    ensures failures == [] <==> !blocked && JurisdictionKnown(a, supported)
    ensures |checks| == 3 && checks[0].severity == checks[2].severity == Critical && checks[1].severity == High
    ensures blocked <==> !checks[0].passed || !checks[2].passed
  {
    var deadline := ChosenDeadline(a);
    var fromRules := if deadline.Mapping? then FromRules(deadline.source) else true;
    checks, failures := Note([], [], Check(Evaluator.DeadlineFromRules, fromRules, Critical), DeadlineNotFromRules);
    blocked := !fromRules;

    var known := JurisdictionKnown(a, supported);
    checks, failures := Note(checks, failures, Check(Evaluator.JurisdictionValid, known, High), InvalidJurisdiction);

    var resolved := if CitesRecord(a) then critic == Resolves else true;
    checks, failures := Note(checks, failures, Check(CriticCitationIntegrity, resolved, Critical), CitationUnresolved);
    if !resolved {
      blocked := true;
    }
  }

  method FindForbidden(a: Assessment) returns (guarantee: Option<string>, reserved: Option<string>)
    ensures guarantee == None <==> Clean(a, SAFETY_GUARANTEE_PHRASES)
    ensures reserved == None <==> Clean(a, SAFETY_RESERVED_PHRASES)
  {
    var text := GateText(a);
    guarantee := FindPhrase(SAFETY_GUARANTEE_PHRASES, text);
    reserved := FindPhrase(SAFETY_RESERVED_PHRASES, text);
  }

  /** Phrase lists and text of the evaluator are contained in those of the gate. */
  lemma PhrasesAreCovered(phrase: string)
    ensures phrase in GUARANTEE_PHRASES ==> phrase in SAFETY_GUARANTEE_PHRASES
    ensures phrase in RESERVED_ACTIVITY_PHRASES ==> phrase in SAFETY_RESERVED_PHRASES
  {
    assert RESERVED_ACTIVITY_PHRASES == SAFETY_RESERVED_PHRASES[..6];
  }

  lemma EvaluatedTextIsPrefix(a: Assessment)
    ensures EvaluatedText(a) <= GateText(a)
  {
    var shorter := a.reasoningSummary + " " + a.nextStep + " " + a.message;
    var longer := a.reasoningSummary + " " + a.nextStep + " " + a.message + " " + a.weaknesses;
    assert longer == shorter + (" " + a.weaknesses);
    LowerOfLonger(shorter, longer);
  }

  /** What the gate lets through also passes the evaluator's advice-language check, and its
      deadline-source check unless the deadline is not a mapping, where the evaluator raises. */
  lemma GateSubsumesEvaluator(a: Assessment, critic: CriticVerdict)
    requires Safe(a, critic)
    ensures AdviceOk(a)
    ensures a.deadlineInfo != Opaque ==> DeadlineSourceOk(a)
  {
    EvaluatedTextIsPrefix(a);
    forall phrase | phrase in GUARANTEE_PHRASES || phrase in RESERVED_ACTIVITY_PHRASES
      ensures !Contains(EvaluatedText(a), phrase)
    {
      PhrasesAreCovered(phrase);
      if Contains(EvaluatedText(a), phrase) {
        ContainsInLonger(EvaluatedText(a), GateText(a), phrase);
      }
    }
  }

  /** Not every cited authority has to resolve: a draft whose citations the critic rejects, or cannot check,
      passes the gate if and only if all of them are plain text. */
  lemma UnresolvedPassesExactlyWhenPlain(a: Assessment, critic: CriticVerdict)
    requires Safe(a, Resolves) && critic != Resolves
    ensures Safe(a, critic) <==> forall c | c in a.citations :: c.Plain?
  {
    hide Clean;
    assert CitesRecord(a) <==> exists c :: c in a.citations && !c.Plain?;
  }

  // ---- What the gate adds ----

  /** The reserved-activity phrases only the gate knows. */
  const GATE_ONLY_PHRASES: seq<string> := ["we are your solicitor", "we are your lawyer"]

  predicate NoneOccursPast(phrases: seq<string>, text: string, n: nat) {
    forall p | p in phrases :: !OccursPast(text, p, n)
  }

  /** What is left to ask of a draft the evaluator has passed: no phrase of the gate touches the
      weaknesses, none of its own two occurs before them, a deadline under the other key comes from
      the rules, and the critic resolves the citations that are mappings. */
  predicate GateExtras(a: Assessment, critic: CriticVerdict) {
    && NoneOccursPast(SAFETY_GUARANTEE_PHRASES, GateText(a), |EvaluatedText(a)|)
    && NoneOccursPast(SAFETY_RESERVED_PHRASES, GateText(a), |EvaluatedText(a)|)
    && NoneOccurs(GATE_ONLY_PHRASES, EvaluatedText(a))
    && (a.deadlineInfo == Falsy && a.deadline.Mapping? ==> FromRules(a.deadline.source))
    && CriticPasses(a, critic)
  }

  lemma NoneOccursInLonger(phrases: seq<string>, prefix: string, text: string)
    requires prefix <= text
    ensures NoneOccurs(phrases, text) <==> NoneOccurs(phrases, prefix) && NoneOccursPast(phrases, text, |prefix|)
  {
    forall p | p in phrases
      ensures Contains(text, p) <==> Contains(prefix, p) || OccursPast(text, p, |prefix|)
    {
      OccurrencesSplit(prefix, text, p);
    }
  }

  lemma NoneOccursInBoth(one: seq<string>, two: seq<string>, text: string)
    ensures NoneOccurs(one + two, text) <==> NoneOccurs(one, text) && NoneOccurs(two, text)
  {
    assert forall p :: p in one + two <==> p in one || p in two;
  }

  lemma PhraseLists()
    ensures SAFETY_GUARANTEE_PHRASES == GUARANTEE_PHRASES
    ensures SAFETY_RESERVED_PHRASES == RESERVED_ACTIVITY_PHRASES + GATE_ONLY_PHRASES
  {
  }

  /** A draft that passes the evaluation passes the gate exactly when it meets the gate's extras. */
  lemma EvaluatorCoversGateExactlyWhen(a: Assessment, critic: CriticVerdict, verified: bool, requested: string,
                                       gaps: seq<string>)
    requires PassesAll(a, verified, requested, gaps)
    ensures Safe(a, critic) <==> GateExtras(a, critic)
  {
    PhraseLists();
    EvaluatedTextIsPrefix(a);
    hide NoneOccurs, NoneOccursPast, GateText, EvaluatedText, StatementsOk, GUARANTEE_PHRASES,
      RESERVED_ACTIVITY_PHRASES, SAFETY_GUARANTEE_PHRASES, SAFETY_RESERVED_PHRASES, GATE_ONLY_PHRASES;
    NoneOccursInLonger(SAFETY_GUARANTEE_PHRASES, EvaluatedText(a), GateText(a));
    NoneOccursInLonger(SAFETY_RESERVED_PHRASES, EvaluatedText(a), GateText(a));
    NoneOccursInBoth(RESERVED_ACTIVITY_PHRASES, GATE_ONLY_PHRASES, EvaluatedText(a));
  }

  /** The evaluator does not read the weaknesses: whatever they promise, its verdict stands, and the
      gate blocks the draft. */
  lemma WeaknessesAreLeftToTheGate(a: Assessment, weaknesses: string, phrase: string, critic: CriticVerdict,
                                   verified: bool, requested: string, gaps: seq<string>)
    requires phrase in SAFETY_GUARANTEE_PHRASES || phrase in SAFETY_RESERVED_PHRASES
    requires Contains(Lower(weaknesses), phrase)
    ensures var draft := a.(weaknesses := weaknesses);
            && PassesAll(draft, verified, requested, gaps) == PassesAll(a, verified, requested, gaps)
            && !Safe(draft, critic)
  {
    var draft := a.(weaknesses := weaknesses);
    hide NoneOccurs, PassesAll;
    assert PassesAll(draft, verified, requested, gaps) == PassesAll(a, verified, requested, gaps) by {
      SameVerdict(a, draft, verified, requested, gaps);
    }
    var front := a.reasoningSummary + " " + a.nextStep + " " + a.message + " ";
    assert GateText(draft) == Lower(front) + Lower(weaknesses);
    ContainsInSuffix(Lower(front), Lower(weaknesses), phrase);
    hide GateText, Contains, SAFETY_GUARANTEE_PHRASES, SAFETY_RESERVED_PHRASES;
    PhraseBlocks(SAFETY_GUARANTEE_PHRASES, phrase, GateText(draft));
    PhraseBlocks(SAFETY_RESERVED_PHRASES, phrase, GateText(draft));
  }

  lemma PhraseBlocks(phrases: seq<string>, phrase: string, text: string)
    ensures phrase in phrases && Contains(text, phrase) ==> !NoneOccurs(phrases, text)
  {
  }

  lemma SameVerdict(a: Assessment, b: Assessment, verified: bool, requested: string, gaps: seq<string>)
    requires b == a.(weaknesses := b.weaknesses) || (a.deadlineInfo == Falsy && b == a.(deadline := b.deadline))
    ensures PassesAll(b, verified, requested, gaps) == PassesAll(a, verified, requested, gaps)
  {
    hide NoneOccurs;
  }

  /** Nor does it read the deadline under the other key. */
  lemma OtherDeadlineIsLeftToTheGate(a: Assessment, source: Option<string>, critic: CriticVerdict, verified: bool,
                                     requested: string, gaps: seq<string>)
    requires a.deadlineInfo == Falsy && !FromRules(source)
    ensures var draft := a.(deadline := Mapping(source));
            && PassesAll(draft, verified, requested, gaps) == PassesAll(a, verified, requested, gaps)
            && !Safe(draft, critic)
  {
    hide NoneOccurs, PassesAll, Clean;
    SameVerdict(a, a.(deadline := Mapping(source)), verified, requested, gaps);
  }

  /** Two drafts that pass the whole evaluation and are blocked: weaknesses that promise a win, and an
      estimate as the only deadline. */
  lemma EvaluatorDoesNotSubsumeGate(critic: CriticVerdict)
    ensures var blank := Assessment("", "", "", "", false, Falsy, Falsy, "EW", NotSupported, [], false, false);
            var promising, estimated := blank.(weaknesses := "you will win"), blank.(deadline := Mapping(None));
            && PassesAll(promising, true, "EW", []) && !Safe(promising, critic)
            && PassesAll(estimated, true, "EW", []) && !Safe(estimated, critic)
  {
    var blank := Assessment("", "", "", "", false, Falsy, Falsy, "EW", NotSupported, [], false, false);
    var promise := "you will win";
    NothingInBlanks(blank);
    assert PassesAll(blank, true, "EW", []) by { hide NoneOccurs; }
    assert Lower(promise) == promise && OccursAt(promise, promise, 0);
    assert SAFETY_GUARANTEE_PHRASES[1] == promise;
    hide PassesAll, Safe, SAFETY_GUARANTEE_PHRASES, SAFETY_RESERVED_PHRASES;
    WeaknessesAreLeftToTheGate(blank, promise, promise, critic, true, "EW", []);
    OtherDeadlineIsLeftToTheGate(blank, None, critic, true, "EW", []);
  }

  lemma NothingInBlanks(a: Assessment)
    requires a.reasoningSummary == "" && a.nextStep == "" && a.message == ""
    ensures AdviceOk(a) && StatementsOk(a)
  {
    assert |EvaluatedText(a)| == 2;
  }
}
