/** What the controller releases although its evaluation has failed it. */
module BrainRelease {
  import opened Text
  import opened Evaluator
  import opened SafetyGate
  import opened Brain

  /** The eight checks of the evaluation, by name. */
  predicate OfRubric(n: CheckName) {
    match n
    case NoGuaranteeLanguage | NoReservedActivity | DeadlineFromRules => false
    case JurisdictionValid | CriticCitationIntegrity => false
    case _ => true
  }

  predicate Meets(n: CheckName, a: Assessment, verified: bool, requested: string, gaps: seq<string>)
    requires OfRubric(n)
  {
    match n
    case CitationValidity => CitationsOk(a, verified)
    case Jurisdiction => JurisdictionOk(a, requested)
    case DeadlineSource => DeadlineSourceOk(a)
    case NoOverconfidentAdvice => AdviceOk(a)
    case DeadlineStatementAccuracy => StatementsOk(a)
    case HonestyWeaknessesPresent => HonestyOk(a)
    case EvidenceGapsAcknowledged => GapsOk(a, gaps)
    case NoPiiInOutput => !a.leaksPii
  }

  /** Check n in the evaluation of a run. */
  predicate RunMeets(n: CheckName, r: Request, o: Oracles)
    requires OfRubric(n)
  {
    Meets(n, FinalDraft(o), o.citationsVerified, r.jurisdiction, Gaps(o))
  }

  /** The run is answered, and its evaluation ran to its end and failed check n. */
  predicate AnsweredFailing(n: CheckName, r: Request, o: Oracles)
    requires OfRubric(n)
  {
    FateOf(o) == Ends(Answered) && FinalDraft(o).deadlineInfo != Opaque && !EvaluationPasses(r, o) && !RunMeets(n, r, o)
  }

  ghost predicate MeetsTheRest(n: CheckName, r: Request, o: Oracles) {
    forall m | OfRubric(m) && m != n :: RunMeets(m, r, o)
  }

  lemma RubricIsAll(a: Assessment, verified: bool, requested: string, gaps: seq<string>)
    ensures PassesAll(a, verified, requested, gaps)
            <==> forall n | OfRubric(n) :: Meets(n, a, verified, requested, gaps)
  {
    hide CitationsOk, JurisdictionOk, DeadlineSourceOk, AdviceOk, StatementsOk, HonestyOk, GapsOk;
    if forall n | OfRubric(n) :: Meets(n, a, verified, requested, gaps) {
      assert Meets(CitationValidity, a, verified, requested, gaps);
      assert Meets(Jurisdiction, a, verified, requested, gaps);
      assert Meets(DeadlineSource, a, verified, requested, gaps);
      assert Meets(NoOverconfidentAdvice, a, verified, requested, gaps);
      assert Meets(DeadlineStatementAccuracy, a, verified, requested, gaps);
      assert Meets(HonestyWeaknessesPresent, a, verified, requested, gaps);
      assert Meets(EvidenceGapsAcknowledged, a, verified, requested, gaps);
      assert Meets(NoPiiInOutput, a, verified, requested, gaps);
    }
  }

  // ---- A run for every safe draft ----

  /** Nothing raises, nothing blocks before the gates, and the critic resolves what it is asked. */
  function Quiet(a: Assessment, verified: bool, gaps: seq<string>): Oracles {
    Oracles(GateRaises, false, Value(true), false, Value(gaps), false, false, false, Value((0, 0)), GateRaises,
            Value(a), ValidatorRaises, verified, Resolves, false, Value(true), false, false, {"EW"})
  }

  lemma SafeDraftsAreAnswered(a: Assessment, verified: bool, gaps: seq<string>)
    requires Safe(a, Resolves)
    ensures var o := Quiet(a, verified, gaps);
            FateOf(o) == Ends(Answered) && FinalDraft(o) == a && Gaps(o) == gaps && o.citationsVerified == verified
  {
    hide Safe;
  }

  // ---- One draft for each check ----

  const CAUTIOUS := Assessment("", "", "", "", false, Falsy, Falsy, "EW", LowConfidence, [], false, false)

  const MISSTATED := "12 months to claim"

  /** A draft, the verifier's verdict, the requested jurisdiction and the gaps that fail check n alone. */
  function FailingInput(n: CheckName): (Assessment, bool, string, seq<string>) {
    match n
    case CitationValidity => (CAUTIOUS.(citations := [Record("ERA 1996 s.999")]), false, "EW", [])
    case Jurisdiction => (CAUTIOUS, true, "SC", [])
    case DeadlineStatementAccuracy => (CAUTIOUS.(message := MISSTATED), true, "EW", [])
    case HonestyWeaknessesPresent => (CAUTIOUS.(viable := true), true, "EW", [])
    case EvidenceGapsAcknowledged => (CAUTIOUS, true, "EW", ["contract"])
    case NoPiiInOutput => (CAUTIOUS.(leaksPii := true), true, "EW", [])
    case _ => (CAUTIOUS, true, "EW", [])
  }

  /** A text has every letter of a phrase that occurs in it. */
  lemma LettersOccur(text: string, phrase: string, k: nat)
    requires Contains(text, phrase) && k < |phrase|
    ensures phrase[k] in text
  {
    var i: nat :| 0 <= i <= |text| && OccursAt(text, phrase, i);
    assert text[i..i + |phrase|][k] == text[i + k];
  }

  /** Every phrase of the gate has one of four letters. */
  function Telling(phrase: string): nat {
    if phrase == "guaranteed to win" then 9
    else if phrase == "certain to succeed" then 17
    else if phrase == "100% chance" then 1
    else if phrase == "lawapp will file" || phrase == "lawapp will represent" then 2
    else 0
  }

  lemma PhrasesTell(phrase: string)
    requires phrase in SAFETY_GUARANTEE_PHRASES || phrase in SAFETY_RESERVED_PHRASES
    ensures Telling(phrase) < |phrase| && phrase[Telling(phrase)] in "wyd0"
  {
  }

  /** A text without those letters has none of the phrases. */
  lemma NoneTold(a: Assessment)
    requires forall c | c in "wyd0" :: c !in GateText(a)
    ensures Clean(a, SAFETY_GUARANTEE_PHRASES) && Clean(a, SAFETY_RESERVED_PHRASES)
  {
    hide GateText, Contains, SAFETY_GUARANTEE_PHRASES, SAFETY_RESERVED_PHRASES;
    forall p | p in SAFETY_GUARANTEE_PHRASES || p in SAFETY_RESERVED_PHRASES ensures !Contains(GateText(a), p) {
      PhrasesTell(p);
      if Contains(GateText(a), p) {
        LettersOccur(GateText(a), p, Telling(p));
      }
    }
  }

  /** Only the message is filled in. */
  lemma MessageAlone(a: Assessment)
    requires a.reasoningSummary == a.nextStep == a.weaknesses == ""
    ensures EvaluatedText(a) == "  " + Lower(a.message) && GateText(a) == "  " + Lower(a.message) + " "
  {
    var text := "  " + a.message;
    assert a.reasoningSummary + " " + a.nextStep + " " + a.message == text;
    assert a.reasoningSummary + " " + a.nextStep + " " + a.message + " " + a.weaknesses == text + " ";
    assert Lower(text) == "  " + Lower(a.message) && Lower(text + " ") == Lower(text) + " ";
  }

  lemma MisstatedLetters(c: char)
    requires c in "wyd0"
    ensures c !in MISSTATED && c != ' '
  {
  }

  lemma MisstatedIsLower()
    ensures Lower(MISSTATED) == MISSTATED
  {
  }

  lemma MisstatedText(a: Assessment)
    requires a.reasoningSummary == a.nextStep == a.weaknesses == "" && a.message == MISSTATED
    ensures (forall c | c in "wyd0" :: c !in GateText(a)) && !StatementsOk(a)
  {
    MessageAlone(a);
    MisstatedIsLower();
    assert MISSTATED in INCORRECT_DEADLINES by { assert INCORRECT_DEADLINES[1] == MISSTATED; }
    hide GateText, EvaluatedText, MISSTATED, INCORRECT_DEADLINES;
    assert OccursAt("  " + MISSTATED, MISSTATED, 2) && Contains(EvaluatedText(a), MISSTATED);
    forall c | c in "wyd0" ensures c !in GateText(a) {
      MisstatedLetters(c);
    }
  }

  lemma BlankText(a: Assessment)
    requires a.reasoningSummary == a.nextStep == a.message == a.weaknesses == ""
    ensures (forall c | c in "wyd0" :: c !in GateText(a)) && StatementsOk(a)
  {
    NothingInBlanks(a);
    MessageAlone(a);
    hide StatementsOk, GateText, EvaluatedText;
  }

  lemma FailingTexts(n: CheckName)
    ensures var a := FailingInput(n).0;
            && (forall c | c in "wyd0" :: c !in GateText(a))
            && (StatementsOk(a) <==> n != DeadlineStatementAccuracy)
  {
    hide GateText, StatementsOk;
    if n == DeadlineStatementAccuracy {
      MisstatedText(FailingInput(n).0);
    } else {
      BlankText(FailingInput(n).0);
    }
  }

  lemma FailingInputIsSafe(n: CheckName)
    ensures Safe(FailingInput(n).0, Resolves)
  {
    FailingTexts(n);
    hide GateText, Clean;
    NoneTold(FailingInput(n).0);
  }

  /** The checks the gate leaves open. */
  predicate LeftOpen(n: CheckName) {
    OfRubric(n) && n != DeadlineSource && n != NoOverconfidentAdvice
  }

  lemma FailsAlone(n: CheckName, m: CheckName)
    requires LeftOpen(n) && OfRubric(m)
    ensures var (a, verified, requested, gaps) := FailingInput(n);
            Meets(m, a, verified, requested, gaps) <==> m != n
  {
    hide Safe;
    FailingTexts(n);
    FailingInputIsSafe(n);
    var (a, verified, requested, gaps) := FailingInput(n);
    GateSubsumesEvaluator(a, Resolves);
    assert Lower("EW")[0] == 'e' && Lower("SC")[0] == 's';
    var contract := ["contract"];
    assert !("recommended:" <= contract[0]) && !OnlyRecommended(contract);
    hide StatementsOk, AdviceOk, Lower, OnlyRecommended;
  }

  /** The evaluation alone stops nothing. Of its eight checks the gate enforces two, the source of the
      deadline and the language of the advice: an answered run can fail check n if and only if it is one
      of the other six, and it can fail that one alone. */
  lemma EvaluationAloneStopsNothing(n: CheckName)
    requires OfRubric(n)
    ensures (exists r, o :: AnsweredFailing(n, r, o)) <==> LeftOpen(n)
    ensures LeftOpen(n) ==> exists r, o :: AnsweredFailing(n, r, o) && MeetsTheRest(n, r, o)
  {
    hide AnsweredFailing, MeetsTheRest;
    if LeftOpen(n) {
      var (a, verified, requested, gaps) := FailingInput(n);
      AnsweredAlone(n, Request(false, false, false, requested), Quiet(a, verified, gaps));
    } else {
      forall r, o ensures !AnsweredFailing(n, r, o) {
        EnforcedByGate(n, r, o);
      }
    }
  }

  lemma AnsweredAlone(n: CheckName, r: Request, o: Oracles)
    requires LeftOpen(n)
    requires var (a, verified, requested, gaps) := FailingInput(n);
             r.jurisdiction == requested && o == Quiet(a, verified, gaps)
    ensures AnsweredFailing(n, r, o) && MeetsTheRest(n, r, o)
  {
    var (a, verified, requested, gaps) := FailingInput(n);
    assert a.deadlineInfo == Falsy;
    hide FateOf, FinalDraft, Gaps, Quiet, FailingInput, Meets, PassesAll, Safe;
    FailingInputIsSafe(n);
    SafeDraftsAreAnswered(a, verified, gaps);
    RubricIsAll(a, verified, requested, gaps);
    forall m | OfRubric(m) ensures RunMeets(m, r, o) <==> m != n {
      FailsAlone(n, m);
    }
  }

  lemma EnforcedByGate(n: CheckName, r: Request, o: Oracles)
    requires n == DeadlineSource || n == NoOverconfidentAdvice
    ensures !AnsweredFailing(n, r, o)
  {
    if FateOf(o) == Ends(Answered) {
      ReleasedAnswersAreSafe(o);
    }
    hide FateOf, FinalDraft, EvaluationPasses, AdviceOk;
  }

  /** Nor does the critic stop every citation it rejects: an answered run would be answered with the critic's
      refusal if and only if all its citations are plain text. */
  lemma RejectedCitationsAreReleasedExactlyWhenPlain(o: Oracles)
    requires FateOf(o) == Ends(Answered)
    ensures FateOf(o.(critic := DoesNotResolve)) == Ends(Answered)
            <==> forall c | c in FinalDraft(o).citations :: c.Plain?
  {
    var a := FinalDraft(o);
    assert FinalDraft(o.(critic := DoesNotResolve)) == a;
    assert Safe(a, Resolves) by { hide Clean; }
    UnresolvedPassesExactlyWhenPlain(a, DoesNotResolve);
    hide Safe;
  }

  // ---- The citation verifier ----

  /** Whatever the evaluation's citation verifier says, the run ends the same way; and every released answer
      with citations is released when it says no, for every request. */
  lemma VerifierStopsNothing(o: Oracles, verified: bool)
    ensures FateOf(o.(citationsVerified := verified)) == FateOf(o)
    ensures FateOf(o) == Ends(Answered) && FinalDraft(o).citations != [] && FinalDraft(o).deadlineInfo != Opaque ==>
              forall r: Request :: !EvaluationPasses(r, o.(citationsVerified := false))
  {
    SameDraft(o, verified);
    hide FateOf, FinalDraft, EvaluationPasses;
    if FinalDraft(o).citations != [] && FinalDraft(o).deadlineInfo != Opaque {
      forall r: Request ensures !EvaluationPasses(r, o.(citationsVerified := false)) {
        UnverifiedEvaluation(r, o);
      }
    }
  }

  lemma SameDraft(o: Oracles, verified: bool)
    ensures FinalDraft(o.(citationsVerified := verified)) == FinalDraft(o)
    ensures FateOf(o.(citationsVerified := verified)) == FateOf(o)
  {
    hide Safe;
  }

  lemma UnverifiedEvaluation(r: Request, o: Oracles)
    requires FinalDraft(o).citations != [] && FinalDraft(o).deadlineInfo != Opaque
    ensures !EvaluationPasses(r, o.(citationsVerified := false))
  {
    SameDraft(o, false);
    hide FinalDraft, PassesAll;
    UnverifiedFails(FinalDraft(o), r.jurisdiction, Gaps(o));
  }

  lemma UnverifiedFails(a: Assessment, requested: string, gaps: seq<string>)
    requires a.citations != []
    ensures !PassesAll(a, false, requested, gaps)
  {
  }
}
