/** The controller every request passes through: its trace, its early exits and what it releases.

    Every external call is an oracle. A guarded call that raises is caught and the run goes on;
    an unguarded one that raises ends the run without a result. */
module Brain {
  import opened Wrappers
  import opened Evaluator
  import opened SafetyGate

  datatype StepName =
    | Authenticate | LoadContext | DetectJurisdiction | DetectLegalArea | DetectClaimType | DetectUrgency
    | DetectMissingFacts | SelectAgents | SelectRagSource | RunRulesEngine | RetrieveLegalEvidence
    | VerifyCitations | CompressContext | GenerateDraft | EvaluateDraft | ApplySafetyPolicy
    | SaveCaseMemory | StoreAuditLog | ReturnAnswer
    // recorded beside the numbered steps
    | InjectionGuard | HumanReviewCheck | OrchestrateAgents | CostGovernorCheck | LegalTruthValidation
    | KnowledgeProposalCreated | PublishOutboxEvent

  const BRAIN_STEPS: seq<StepName> := [
    Authenticate, LoadContext, DetectJurisdiction, DetectLegalArea, DetectClaimType, DetectUrgency,
    DetectMissingFacts, SelectAgents, SelectRagSource, RunRulesEngine, RetrieveLegalEvidence,
    VerifyCitations, CompressContext, GenerateDraft, EvaluateDraft, ApplySafetyPolicy,
    SaveCaseMemory, StoreAuditLog, ReturnAnswer]

  datatype Mark = Done | Skipped | Blocked | Passed | Failed | Partial

  datatype TraceStep = TraceStep(step: StepName, mark: Mark)

  /** A numbered step's position, or -1 for the steps recorded beside them. */
  function StepIndex(name: StepName): int {
    match name
    case Authenticate => 0
    case LoadContext => 1
    case DetectJurisdiction => 2
    case DetectLegalArea => 3
    case DetectClaimType => 4
    case DetectUrgency => 5
    case DetectMissingFacts => 6
    case SelectAgents => 7
    case SelectRagSource => 8
    case RunRulesEngine => 9
    case RetrieveLegalEvidence => 10
    case VerifyCitations => 11
    case CompressContext => 12
    case GenerateDraft => 13
    case EvaluateDraft => 14
    case ApplySafetyPolicy => 15
    case SaveCaseMemory => 16
    case StoreAuditLog => 17
    case ReturnAnswer => 18
    case _ => -1
  }

  /** The trace filtered to the numbered steps. */
  function BrainOnly(steps: seq<TraceStep>): seq<StepName> {
    if steps == [] then []
    else
      var last := steps[|steps| - 1].step;
      BrainOnly(steps[..|steps| - 1]) + if StepIndex(last) >= 0 then [last] else []
  }

  /** Exactly the first k numbered steps have been recorded, in order and once each. */
  predicate At(steps: seq<TraceStep>, k: nat) {
    |BrainOnly(steps)| == k && forall i | 0 <= i < k :: StepIndex(BrainOnly(steps)[i]) == i
  }

  class BrainTrace {
    var steps: seq<TraceStep>
    ghost var done: nat

    /** The numbered steps so far are the first `done` ones. */
    ghost predicate OnTrack()
      reads this
    {
      At(steps, done)
    }

    constructor ()
      ensures steps == [] && done == 0 && OnTrack()
    {
      steps := [];
      done := 0;
    }

    ghost method Restart()
      requires steps == []
      modifies `done
      ensures done == 0 && OnTrack()
    {
      done := 0;
    }

    method RecordStep(name: StepName, mark: Mark)
      modifies this
      ensures steps == old(steps) + [TraceStep(name, mark)]
      ensures old(OnTrack()) && StepIndex(name) < 0 ==> OnTrack() && done == old(done)
      ensures old(OnTrack()) && StepIndex(name) == old(done) ==> OnTrack() && done == old(done) + 1
    {
      steps := steps + [TraceStep(name, mark)];
      assert steps[..|steps| - 1] == old(steps);
      if StepIndex(name) >= 0 {
        done := done + 1;
      }
    }
  }

  // ---- Oracles ----

  datatype Guarded<T> = Raises | Value(value: T)

  /** A check that may end the run: it can raise before it is recorded, or after it was recorded
      as blocked, while the refusal is being put together. */
  datatype Gate = GateRaises | Recorded(blocks: bool, refusalRaises: bool)

  datatype LegalTruth =
    | ValidatorRaises
    | Validated(passed: bool, corrected: Guarded<Assessment>, gaps: bool, proposal: Guarded<bool>)

  datatype Request = Request(hasUser: bool, hasCase: bool, memoryConsent: bool, jurisdiction: string)

  datatype Oracles = Oracles(
    injection: Gate,
    jurisdictionRaises: bool,
    inScope: Guarded<bool>,
    humanReviewRaises: bool,
    missingFacts: Guarded<seq<string>>,
    routingRaises: bool,
    retrievalReportRaises: bool,
    orchestrationRaises: bool,
    citations: Guarded<(nat, nat)>,
    cost: Gate,
    draft: Guarded<Assessment>,
    legalTruth: LegalTruth,
    citationsVerified: bool,
    critic: CriticVerdict,
    safetyRaises: bool,
    governance: Guarded<bool>,
    memoryRaises: bool,
    outboxRaises: bool,
    supported: set<string>)

  const ERROR_DRAFT := Assessment("", "", "Internal assessment error. Please try again.", "", false,
                                  Falsy, Falsy, "EW", Error, [], false, false)

  datatype Verdict = BlockedSafety | BlockedEvaluation | Pass | BlockedGovernance | Conditional

  datatype Ending = InjectionBlocked | OutOfScope | QuotaExceeded | SafetyBlocked | Answered

  datatype Fate = Raised | Ends(ending: Ending)

  datatype Outcome = Outcome(fate: Fate, answer: Option<Assessment>, evaluationPassed: Option<bool>,
                             verdict: Option<Verdict>, memorySaved: bool)

  // ---- What a run comes to ----

  predicate Stops(gate: Gate) {
    gate.Recorded? && gate.blocks && !gate.refusalRaises
  }

  function FirstDraft(o: Oracles): Assessment {
    if o.draft.Raises? then ERROR_DRAFT else o.draft.value
  }

  /** The draft the gates see: replaced when the validator rejected it and the replacement
      could be built. */
  function FinalDraft(o: Oracles): Assessment {
    if o.legalTruth.Validated? && !o.legalTruth.passed && o.legalTruth.corrected.Value?
    then o.legalTruth.corrected.value else FirstDraft(o)
  }

  function Gaps(o: Oracles): seq<string> {
    if o.missingFacts.Raises? then [] else o.missingFacts.value
  }

  predicate EvaluationPasses(r: Request, o: Oracles) {
    var a := FinalDraft(o);
    if a.deadlineInfo == Opaque then a.status != Error
    else PassesAll(a, o.citationsVerified, r.jurisdiction, Gaps(o))
  }

  function FateOf(o: Oracles): Fate {
    if Stops(o.injection) then Ends(InjectionBlocked)
    else if o.jurisdictionRaises || o.inScope.Raises? then Raised
    else if !o.inScope.value then Ends(OutOfScope)
    else if o.routingRaises || o.retrievalReportRaises then Raised
    else if Stops(o.cost) then Ends(QuotaExceeded)
    else if o.safetyRaises || o.governance.Raises? then Raised
    else if Safe(FinalDraft(o), o.critic) then Ends(Answered)
    else Ends(SafetyBlocked)
  }

  function VerdictOf(a: Assessment, counts: (nat, nat), safe: bool, evaluated: bool, governed: bool): Verdict {
    if !safe then BlockedSafety
    else if !evaluated then BlockedEvaluation
    else if a.status == Ok && counts.1 == 0 && counts.0 > 0 then Pass
    else if !governed then BlockedGovernance
    else Conditional
  }

  /** How far the trace gets, for each way a run can end. */
  ghost predicate TraceFits(trace: BrainTrace, fate: Fate)
    reads trace
  {
    && trace.OnTrack()
    && (fate == Ends(InjectionBlocked) ==> trace.done == 0)
    && (fate == Ends(QuotaExceeded) ==> trace.done == 13)
    && (fate == Ends(OutOfScope) || fate == Ends(SafetyBlocked) || fate == Ends(Answered) ==> trace.done == 19)
  }

  // ---- The run, in the order of the source ----

  /** The injection guard. */
  method GuardInjection(trace: BrainTrace, o: Oracles) returns (blocks: bool)
    requires trace.OnTrack() && trace.done == 0
    modifies trace
    ensures trace.OnTrack() && trace.done == 0
    ensures blocks <==> Stops(o.injection)
  {
    hide BrainTrace.OnTrack;
    if o.injection.Recorded? {
      trace.RecordStep(InjectionGuard, if o.injection.blocks then Blocked else Done);
      if o.injection.blocks && !o.injection.refusalRaises {
        return true;
      }
    }
    return false;
  }

  /** Steps 1 to 6 and the human review; true when an unguarded call raised. */
  method DetectMatter(trace: BrainTrace, o: Oracles) returns (raised: bool)
    requires trace.OnTrack() && trace.done == 0
    modifies trace
    ensures trace.OnTrack() && (!raised ==> trace.done == 6)
    ensures raised <==> o.jurisdictionRaises || o.inScope.Raises?
  {
    hide BrainTrace.OnTrack;
    trace.RecordStep(Authenticate, Done);
    trace.RecordStep(LoadContext, Done);
    if o.jurisdictionRaises {
      return true;
    }
    trace.RecordStep(DetectJurisdiction, Done);
    if o.inScope.Raises? {
      return true;
    }
    trace.RecordStep(DetectLegalArea, if o.inScope.value then Done else Failed);
    trace.RecordStep(DetectClaimType, Done);
    trace.RecordStep(DetectUrgency, Done);
    if !o.humanReviewRaises {
      trace.RecordStep(HumanReviewCheck, Done);
    }
    return false;
  }

  /** The injection guard and steps 1 to 6. */
  method DetectContext(trace: BrainTrace, o: Oracles) returns (fate: Option<Fate>)
    requires trace.OnTrack() && trace.done == 0
    modifies trace
    ensures fate == None ==> trace.OnTrack() && trace.done == 6 && FateOf(o) != Ends(InjectionBlocked)
                             && !o.jurisdictionRaises && o.inScope.Value? && !Stops(o.injection)
    ensures fate.Some? ==> fate.value == FateOf(o) && TraceFits(trace, fate.value)
    ensures fate.Some? ==> fate.value == Raised || fate.value == Ends(InjectionBlocked)
  {
    hide BrainTrace.OnTrack, Safe, FinalDraft, Stops;
    var blocks := GuardInjection(trace, o);
    if blocks {
      return Some(Ends(InjectionBlocked));
    }
    var raised := DetectMatter(trace, o);
    return if raised then Some(Raised) else None;
  }

  /** An out-of-scope request: the remaining steps are recorded as skipped. */
  method SkipRest(trace: BrainTrace)
    requires trace.OnTrack() && trace.done == 6
    modifies trace
    ensures trace.OnTrack() && trace.done == 19
  {
    var i := 6;
    while i < 19
      invariant 6 <= i <= 19 && trace.OnTrack() && trace.done == i
    {
      StepsAreNumbered(i);
      trace.RecordStep(BRAIN_STEPS[i], Skipped);
      i := i + 1;
    }
  }

  /** Steps 7 to 11; false when an unguarded call raised. */
  method Plan(trace: BrainTrace, o: Oracles) returns (proceeds: bool)
    requires trace.OnTrack() && trace.done == 6
    modifies trace
    ensures trace.OnTrack() && (proceeds ==> trace.done == 11)
    ensures proceeds <==> !o.routingRaises && !o.retrievalReportRaises
  {
    hide BrainTrace.OnTrack;
    trace.RecordStep(DetectMissingFacts, if Gaps(o) == [] then Done else Partial);
    trace.RecordStep(SelectAgents, Done);
    if o.routingRaises {
      return false;
    }
    trace.RecordStep(SelectRagSource, Done);
    trace.RecordStep(RunRulesEngine, Done);
    if o.retrievalReportRaises {
      return false;
    }
    trace.RecordStep(RetrieveLegalEvidence, Done);
    return true;
  }

  function Counts(o: Oracles): (nat, nat) {
    if o.citations.Value? then o.citations.value else (0, 0)
  }

  /** Agent orchestration, steps 12 and 13 and the cost governor; false when the quota is used up. */
  method VerifyAndBudget(trace: BrainTrace, o: Oracles) returns (proceeds: bool, counts: (nat, nat))
    requires trace.OnTrack() && trace.done == 11
    modifies trace
    ensures trace.OnTrack() && trace.done == 13
    ensures proceeds <==> !Stops(o.cost)
    ensures counts == Counts(o)
  {
    hide BrainTrace.OnTrack;
    trace.RecordStep(OrchestrateAgents, if o.orchestrationRaises then Skipped else Done);
    counts := (0, 0);
    if o.citations.Value? {
      counts := o.citations.value;
    }
    trace.RecordStep(VerifyCitations, if counts.1 == 0 then Done else Partial);
    trace.RecordStep(CompressContext, Done);
    if o.cost.Recorded? {
      trace.RecordStep(CostGovernorCheck, if o.cost.blocks then Blocked else Done);
      if o.cost.blocks && !o.cost.refusalRaises {
        return false, counts;
      }
    }
    return true, counts;
  }

  /** Step 14 and the legal truth validator, which may record itself twice. */
  method Draft(trace: BrainTrace, o: Oracles) returns (a: Assessment)
    requires trace.OnTrack() && trace.done == 13
    modifies trace
    ensures trace.OnTrack() && trace.done == 14
    ensures a == FinalDraft(o)
  {
    hide BrainTrace.OnTrack;
    a := ERROR_DRAFT;
    if o.draft.Value? {
      a := o.draft.value;
    }
    trace.RecordStep(GenerateDraft, Done);

    if o.legalTruth.ValidatorRaises? {
      trace.RecordStep(LegalTruthValidation, Skipped);
      return;
    }
    trace.RecordStep(LegalTruthValidation, if o.legalTruth.passed then Passed else Failed);
    if !o.legalTruth.passed {
      if o.legalTruth.corrected.Raises? {
        trace.RecordStep(LegalTruthValidation, Skipped);
        return;
      }
      a := o.legalTruth.corrected.value;
    }
    if o.legalTruth.gaps {
      if o.legalTruth.proposal.Raises? {
        trace.RecordStep(LegalTruthValidation, Skipped);
      } else {
        trace.RecordStep(KnowledgeProposalCreated, if o.legalTruth.proposal.value then Done else Skipped);
      }
    }
  }

  /** Step 15; a raising evaluation counts as passed unless the draft is the error one. */
  method Evaluate(trace: BrainTrace, r: Request, o: Oracles, a: Assessment) returns (passed: bool)
    requires trace.OnTrack() && trace.done == 14 && a == FinalDraft(o)
    modifies trace
    ensures trace.OnTrack() && trace.done == 15
    ensures passed <==> EvaluationPasses(r, o)
  {
    hide BrainTrace.OnTrack, PassesAll;
    var evaluation := EvaluateAssessment(a, o.citationsVerified, r.jurisdiction, Gaps(o));
    passed := if evaluation.Some? then evaluation.value.passed else a.status != Error;
    trace.RecordStep(EvaluateDraft, if passed then Passed else Failed);
  }

  /** Steps 17 to 19 of a released answer. */
  method Release(trace: BrainTrace, r: Request, o: Oracles, a: Assessment) returns (memorySaved: bool)
    requires trace.OnTrack() && trace.done == 16
    modifies trace
    ensures trace.OnTrack() && trace.done == 19
    ensures memorySaved <==> r.hasUser && r.hasCase && r.memoryConsent && a.status == Ok && !o.memoryRaises
  {
    hide BrainTrace.OnTrack;
    memorySaved := false;
    if r.hasUser && r.hasCase && r.memoryConsent && a.status == Ok {
      if !o.memoryRaises {
        memorySaved := true;
      }
    }
    trace.RecordStep(SaveCaseMemory, if memorySaved then Done else Skipped);
    trace.RecordStep(StoreAuditLog, Done);
    trace.RecordStep(PublishOutboxEvent, if a.status == Ok && !o.outboxRaises then Done else Skipped);
    trace.RecordStep(ReturnAnswer, Done);
  }

  /** Steps 17 to 19 of an answer the safety gate blocked. */
  method Withhold(trace: BrainTrace)
    requires trace.OnTrack() && trace.done == 16
    modifies trace
    ensures trace.OnTrack() && trace.done == 19
  {
    hide BrainTrace.OnTrack;
    trace.RecordStep(SaveCaseMemory, Skipped);
    trace.RecordStep(StoreAuditLog, Skipped);
    trace.RecordStep(ReturnAnswer, Blocked);
  }

  /** Step 16 to the end. */
  method Conclude(trace: BrainTrace, r: Request, o: Oracles, a: Assessment, counts: (nat, nat), evaluated: bool)
    returns (out: Outcome)
    requires trace.OnTrack() && trace.done == 15
    modifies trace
    ensures TraceFits(trace, out.fate)
    ensures out.fate == if o.safetyRaises || o.governance.Raises? then Raised
                        else if Safe(a, o.critic) then Ends(Answered) else Ends(SafetyBlocked)
    ensures out.answer == if out.fate == Ends(Answered) then Some(a) else None
    ensures out.fate == Raised ==> out.verdict == None
    ensures out.fate != Raised ==>
              && out.evaluationPassed == Some(evaluated)
              && out.verdict == Some(VerdictOf(a, counts, Safe(a, o.critic), evaluated, o.governance.value))
    ensures out.memorySaved ==>
              out.fate == Ends(Answered) && r.hasUser && r.hasCase && r.memoryConsent && a.status == Ok
  {
    hide BrainTrace.OnTrack, Safe, VerdictOf;
    var nothing := Outcome(Raised, None, None, None, false);
    if o.safetyRaises {
      return nothing;
    }
    var safety := RunSafetyChecks(a, o.critic, o.supported);
    trace.RecordStep(ApplySafetyPolicy, if safety.passed then Passed else Failed);
    if o.governance.Raises? {
      return nothing;
    }
    var verdict := VerdictOf(a, counts, !safety.blocked, evaluated, o.governance.value);
    if safety.blocked {
      Withhold(trace);
      return Outcome(Ends(SafetyBlocked), None, Some(evaluated), Some(verdict), false);
    }
    var saved := Release(trace, r, o, a);
    return Outcome(Ends(Answered), Some(a), Some(evaluated), Some(verdict), saved);
  }

  lemma VerdictMeans(a: Assessment, counts: (nat, nat), safe: bool, evaluated: bool, governed: bool)
    ensures VerdictOf(a, counts, safe, evaluated, governed) == Pass
            <==> safe && evaluated && a.status == Ok && counts.0 > 0 && counts.1 == 0
    ensures VerdictOf(a, counts, safe, evaluated, governed) == BlockedSafety <==> !safe
  {
  }

  /** Only a draft the safety gate let through is ever released. */
  method RunBrain(trace: BrainTrace, r: Request, o: Oracles) returns (out: Outcome)
    requires trace.steps == []
    modifies trace
    ensures out.fate == FateOf(o)
    ensures TraceFits(trace, out.fate)
    ensures out.answer == if out.fate == Ends(Answered) then Some(FinalDraft(o)) else None
    ensures out.fate == Ends(Answered) || out.fate == Ends(SafetyBlocked) ==>
              && out.evaluationPassed == Some(EvaluationPasses(r, o))
              && out.verdict == Some(VerdictOf(FinalDraft(o), Counts(o), Safe(FinalDraft(o), o.critic),
                                               EvaluationPasses(r, o), o.governance.value))
    // A verdict is given exactly when the gates were reached; "pass" is one of an answer that was released,
    // passed its evaluation and rests on verified citations alone, and "blocked by safety" of one withheld.
    ensures out.verdict.Some? <==> out.fate == Ends(Answered) || out.fate == Ends(SafetyBlocked)
    ensures out.verdict == Some(Pass)
            <==> out.fate == Ends(Answered) && EvaluationPasses(r, o) && FinalDraft(o).status == Ok
                 && Counts(o).0 > 0 && Counts(o).1 == 0
    ensures out.verdict == Some(BlockedSafety) <==> out.fate == Ends(SafetyBlocked)
    ensures out.memorySaved ==>
              out.fate == Ends(Answered) && r.hasUser && r.hasCase && r.memoryConsent && FinalDraft(o).status == Ok
  {
    hide Safe, EvaluationPasses, FinalDraft, VerdictOf, Counts;
    var nothing := Outcome(Raised, None, None, None, false);
    trace.Restart();
    hide BrainTrace.OnTrack;
    var stopped := DetectContext(trace, o);
    if stopped.Some? {
      return nothing.(fate := stopped.value);
    }
    if !o.inScope.value {
      SkipRest(trace);
      return nothing.(fate := Ends(OutOfScope));
    }
    var proceeds := Plan(trace, o);
    if !proceeds {
      return nothing;
    }
    var counts;
    proceeds, counts := VerifyAndBudget(trace, o);
    if !proceeds {
      return nothing.(fate := Ends(QuotaExceeded));
    }
    var a := Draft(trace, o);
    var evaluated := Evaluate(trace, r, o, a);
    out := Conclude(trace, r, o, a, counts, evaluated);
    if out.fate != Raised {
      VerdictMeans(a, counts, Safe(a, o.critic), evaluated, o.governance.value);
    }
  }

  // ---- Consequences for every run ----

  lemma StepsAreNumbered(i: nat)
    requires i < |BRAIN_STEPS|
    ensures StepIndex(BRAIN_STEPS[i]) == i
  {
  }

  lemma NumberedPrefix(steps: seq<TraceStep>, k: nat)
    requires At(steps, k) && k <= 19
    ensures BrainOnly(steps) == BRAIN_STEPS[..k]
  {
    forall i | 0 <= i < k ensures BrainOnly(steps)[i] == BRAIN_STEPS[i] {
      StepsAreNumbered(i);
    }
  }

  /** Any run that returns normally recorded a prefix of the nineteen steps in order, without
      repeats; and all of them unless the injection guard or the cost governor ended it. */
  lemma TraceIsComplete(trace: BrainTrace, ending: Ending)
    requires TraceFits(trace, Ends(ending))
    ensures var steps := BrainOnly(trace.steps);
            && steps <= BRAIN_STEPS
            && (forall i, j | 0 <= i < j < |steps| :: steps[i] != steps[j])
            && (steps == BRAIN_STEPS <==> ending != InjectionBlocked && ending != QuotaExceeded)
  {
    NumberedPrefix(trace.steps, if ending == InjectionBlocked then 0 else if ending == QuotaExceeded then 13 else 19);
    assert BRAIN_STEPS[..19] == BRAIN_STEPS;
  }

  /** A released answer passes the evaluator's advice-language check, and its deadline-source check
      whenever the deadline is a mapping. */
  lemma ReleasedAnswersAreSafe(o: Oracles)
    requires FateOf(o) == Ends(Answered)
    ensures AdviceOk(FinalDraft(o))
    ensures FinalDraft(o).deadlineInfo != Opaque ==> DeadlineSourceOk(FinalDraft(o))
  {
    GateSubsumesEvaluator(FinalDraft(o), o.critic);
  }
}
