/** What the payment and document routes guarantee over whole runs, and where they do not. */
module PaymentSafety {
  import opened Wrappers
  import opened PaymentTables
  import opened PaymentProtocol

  lemma {:induction false} RunAppend(w: World, s: State, a: seq<Action>, b: seq<Action>)
    ensures Run(w, s, a + b) == Run(w, Run(w, s, a), b)
    decreases |a|
  {
    if a == [] {
      assert a + b == b;
    } else {
      RunAppend(w, Step(w, s, a[0]), a[1..], b);
      assert (a + b)[1..] == a[1..] + b;
    }
  }

  /** Both webhooks, session creation, test confirmation, case creation and deletion together:
      no later action takes a case out of "paid" or drops a paid session. */
  lemma PaidIsNeverUndone(w: World, s: State, before: seq<Action>, after: seq<Action>)
    requires Initial(s)
    ensures var t, u := Run(w, s, before).db, Run(w, s, before + after).db;
            && (forall c | c in t.cases && t.cases[c].status == PaidUp :: c in u.cases && u.cases[c].status == PaidUp)
            && (forall c | Unlocked(t, c) :: Unlocked(u, c))
            && (forall c | Entitled(t, c) :: Entitled(u, c))
  {
    var t := Run(w, s, before);
    InitialInv(w, s);
    RunKeeps(w, s, before);
    RunKeeps(w, t, after);
    RunAppend(w, s, before, after);
    forall c | Entitled(t.db, c) ensures Entitled(Run(w, s, before + after).db, c) {
      EntitledGrows(t.db, Run(w, t, after).db, c);
    }
  }

  /** Everything that unlocks premium output rests on a committed "paid" event naming the case. */
  lemma EntitlementIsEvidenced(w: World, s: State, actions: seq<Action>, caseId: Id)
    requires Initial(s)
    ensures var t := Run(w, s, actions).db; Entitled(t, caseId) ==> Evidenced(t, caseId)
  {
    var t := Run(w, s, actions).db;
    InitialInv(w, s);
    RunKeeps(w, s, actions);
    if Entitled(t, caseId) && !Unlocked(t, caseId) {
      var x :| PaidSessionFor(t, x, caseId);
      assert SessionOk(t, x);
      assert EvidenceRow(t.events[ConfirmedKey(x)], caseId);
    }
  }

  /** Confirming a test session again, at any later time, answers the same and changes nothing. */
  lemma RepeatedConfirmationChangesNothing(w: World, s: State, actions: seq<Action>, mode: Mode, sessionId: Id,
                                           userId: Id, later: seq<Action>)
    requires Initial(s)
    ensures var t := Run(w, s, actions);
            var first := ConfirmRequest(t.db, mode, sessionId, userId).1;
            var u := Run(w, Step(w, t, Confirm(mode, sessionId, userId)), later);
            first.Success? ==> ConfirmRequest(u.db, mode, sessionId, userId) == (u.db, first)
  {
    hide Inv, Grows, Initial, ConfirmTest, IsTestSession;
    var t := Run(w, s, actions);
    InitialInv(w, s);
    RunKeeps(w, s, actions);
    var confirmed := Step(w, t, Confirm(mode, sessionId, userId));
    StepKeeps(w, t, Confirm(mode, sessionId, userId));
    RunKeeps(w, confirmed, later);
    if ConfirmRequest(t.db, mode, sessionId, userId).1.Success? {
      ConfirmedStaysConfirmed(t.db, sessionId, userId, Run(w, confirmed, later).db);
    }
  }

  lemma ConfirmedStaysConfirmed(t: Tables, sessionId: Id, userId: Id, u: Tables)
    requires Grows(ConfirmTest(t, sessionId, userId).0, u)
    ensures var first := ConfirmTest(t, sessionId, userId).1;
            first.Success? ==> ConfirmTest(u, sessionId, userId) == (u, first)
  {
    ConfirmSettles(t, sessionId, userId);
    var (v, first) := ConfirmTest(t, sessionId, userId);
    if first.Success? {
      assert u.sessions[sessionId].caseId == v.sessions[sessionId].caseId by { hide ConfirmTest; }
    }
  }

  lemma ConfirmSettles(t: Tables, sessionId: Id, userId: Id)
    ensures var (v, reply) := ConfirmTest(t, sessionId, userId);
            reply.Success? ==> sessionId in v.sessions && v.sessions[sessionId].status == PaidUp
                               && v.sessions[sessionId].userId == userId
                               && reply == Success(v.sessions[sessionId].caseId)
  {
  }

  // ---- Generated documents ----

  /** A paid session pays for nothing in a case with an owner that the case's own flag does not show. */
  lemma OwnedEntitlementIsFlag(w: World, s: State, actions: seq<Action>, caseId: Id)
    requires Initial(s)
    ensures var t := Run(w, s, actions).db;
            caseId in t.cases && t.cases[caseId].owner != None ==> (Entitled(t, caseId) <==> Unlocked(t, caseId))
  {
    var t := Run(w, s, actions).db;
    InitialInv(w, s);
    RunKeeps(w, s, actions);
    if caseId in t.cases && t.cases[caseId].owner != None {
      forall x | PaidSessionFor(t, x, caseId) ensures Unlocked(t, caseId) {
        assert SessionOk(t, x);
      }
    }
  }

  /** For a live case with an owner the two tests of "paid" agree: the flag the document route reads,
      and is_case_paid. Once such a case is soft-deleted is_case_paid asks for a paid session. */
  lemma OwnedCasesAgreeOnPaid(w: World, s: State, actions: seq<Action>, caseId: Id)
    requires Initial(s)
    ensures var t := Run(w, s, actions).db;
            caseId in t.cases && t.cases[caseId].owner != None ==>
              if t.cases[caseId].deleted
              then (&& (IsCasePaid(t, caseId) <==> exists x :: PaidSessionFor(t, x, caseId))
                    && (IsCasePaid(t, caseId) ==> Unlocked(t, caseId)))
              else IsCasePaid(t, caseId) <==> Unlocked(t, caseId)
  {
    OwnedEntitlementIsFlag(w, s, actions, caseId);
  }

  /** No generated row belongs to an unpaid case, although the paid check and the insert are
      separate transactions with arbitrary steps between them. */
  lemma GeneratedDocumentsArePaidFor(w: World, s: State, actions: seq<Action>, documentId: Id)
    requires Initial(s)
    ensures var t := Run(w, s, actions).db;
            documentId in t.documents ==>
              var row := t.documents[documentId];
              && row.caseId in t.cases && Entitled(t, row.caseId)
              && (row.route == DocumentRoute ==> Unlocked(t, row.caseId))
              && (t.cases[row.caseId].owner != None ==> Unlocked(t, row.caseId))
  {
    var t := Run(w, s, actions).db;
    InitialInv(w, s);
    RunKeeps(w, s, actions);
    if documentId in t.documents {
      assert DocumentOk(t, t.documents[documentId]);
      OwnedEntitlementIsFlag(w, s, actions, t.documents[documentId].caseId);
    }
  }

  ghost predicate BundleWithoutFlag(t: Tables, caseId: Id) {
    !Unlocked(t, caseId) && exists id :: id in t.documents && t.documents[id].caseId == caseId
  }

  ghost predicate BundleReachable(w: World, s: State, caseId: Id) {
    exists actions :: BundleWithoutFlag(Run(w, s, actions).db, caseId)
  }

  /** A user who owns nothing buys a test session for the case, confirms it and asks for the bundle. */
  function OwnerlessRun(caseId: Id, userId: Id, sessionId: Id, ids: seq<Id>): seq<Action> {
    [BeginSession(0, caseId, userId, sessionId), FinishSession(0)] + [Confirm(TestMode, sessionId, userId)]
    + [BeginBundle(0, caseId), FinishBundle(0, ids)]
  }

  /** A case without an owner passes every ownership check, but confirming its test session
      updates no case row: is_case_paid then sees the paid session and the bundle is stored
      while the case's own flag still says unpaid. It takes an ownerless case, and any live one will
      do, with any user, any test session id and any ids for the four rows. */
  lemma BundlePrecedesFlagExactlyWhenOwnerless(w: World, s: State, caseId: Id, userId: Id, sessionId: Id, ids: seq<Id>)
    requires Initial(s) && caseId in s.db.cases && !s.db.cases[caseId].deleted
    requires IsTestSession(sessionId) && |ids| == |BUNDLE_COMPONENTS|
    ensures BundleReachable(w, s, caseId) <==> s.db.cases[caseId].owner == None
    ensures s.db.cases[caseId].owner == None ==>
              BundleWithoutFlag(Run(w, s, OwnerlessRun(caseId, userId, sessionId, ids)).db, caseId)
  {
    if BundleReachable(w, s, caseId) {
      var actions :| BundleWithoutFlag(Run(w, s, actions).db, caseId);
      var t := Run(w, s, actions).db;
      InitialInv(w, s);
      RunKeeps(w, s, actions);
      var id :| id in t.documents && t.documents[id].caseId == caseId;
      GeneratedDocumentsArePaidFor(w, s, actions, id);
    }
    if s.db.cases[caseId].owner == None {
      OwnerlessBundleRun(w, s, caseId, userId, sessionId, ids);
    }
  }

  lemma RunTwo(w: World, s: State, a: Action, b: Action)
    ensures Run(w, s, [a, b]) == Step(w, Step(w, s, a), b)
  {
    var t := Step(w, s, a);
    assert [a, b][1..] == [b];
    assert Run(w, t, [b]) == Run(w, Step(w, t, b), [b][1..]);
  }

  lemma OwnerlessConfirmation(w: World, s: State, caseId: Id, userId: Id, sessionId: Id)
    requires Initial(s) && caseId in s.db.cases && !s.db.cases[caseId].deleted && s.db.cases[caseId].owner == None
    requires IsTestSession(sessionId)
    ensures var t := Run(w, s, [BeginSession(0, caseId, userId, sessionId), FinishSession(0)]
                               + [Confirm(TestMode, sessionId, userId)]);
            t.jobs == map[] && t.db.cases == s.db.cases && PaidSessionFor(t.db, sessionId, caseId)
  {
    hide IsTestSession;
    var open := [BeginSession(0, caseId, userId, sessionId), FinishSession(0)];
    var s2 := Run(w, s, open);
    RunTwo(w, s, BeginSession(0, caseId, userId, sessionId), FinishSession(0));
    assert s2.db.sessions[sessionId] == Session(caseId, userId, Pending);
    RunAppend(w, s, open, [Confirm(TestMode, sessionId, userId)]);
  }

  lemma BundleStored(w: World, s: State, caseId: Id, ids: seq<Id>)
    requires s.jobs == map[] && IsCasePaid(s.db, caseId) && s.db.documents == map[] && |ids| == |BUNDLE_COMPONENTS|
    ensures var t := Run(w, s, [BeginBundle(0, caseId), FinishBundle(0, ids)]);
            t.db.cases == s.db.cases && exists id :: id in t.db.documents && t.db.documents[id].caseId == caseId
  {
    hide SaveBundle, ConfirmRequest, CommitPayment, LegacyWebhook, StoreSession;
    RunTwo(w, s, BeginBundle(0, caseId), FinishBundle(0, ids));
    FirstComponentStored(s.db, caseId, ids);
  }

  lemma FirstComponentStored(t: Tables, caseId: Id, ids: seq<Id>)
    requires |ids| == |BUNDLE_COMPONENTS| && t.documents == map[]
    ensures var u := SaveBundle(t, caseId, ids, BUNDLE_COMPONENTS);
            u.cases == t.cases && exists id :: id in u.documents && u.documents[id].caseId == caseId
  {
    var first := InsertDocument(t, ids[0], Document(caseId, "", BUNDLE_COMPONENTS[0], BundleRoute));
    SaveBundleKeeps(first, caseId, ids[1..], BUNDLE_COMPONENTS[1..]);
    assert SaveBundle(t, caseId, ids, BUNDLE_COMPONENTS) == SaveBundle(first, caseId, ids[1..], BUNDLE_COMPONENTS[1..]);
    assert ids[0] in first.documents;
  }

  lemma OwnerlessBundleRun(w: World, s: State, caseId: Id, userId: Id, sessionId: Id, ids: seq<Id>)
    requires Initial(s) && caseId in s.db.cases && !s.db.cases[caseId].deleted && s.db.cases[caseId].owner == None
    requires IsTestSession(sessionId) && |ids| == |BUNDLE_COMPONENTS|
    ensures BundleWithoutFlag(Run(w, s, OwnerlessRun(caseId, userId, sessionId, ids)).db, caseId)
  {
    hide IsTestSession;
    var pay := [BeginSession(0, caseId, userId, sessionId), FinishSession(0)] + [Confirm(TestMode, sessionId, userId)];
    var bundle := [BeginBundle(0, caseId), FinishBundle(0, ids)];
    OwnerlessConfirmation(w, s, caseId, userId, sessionId);
    ConfirmationAddsNoDocument(w, s, pay);
    BundleStored(w, Run(w, s, pay), caseId, ids);
    RunAppend(w, s, pay, bundle);
  }

  lemma {:induction false} ConfirmationAddsNoDocument(w: World, s: State, actions: seq<Action>)
    requires forall i | 0 <= i < |actions| ::
               actions[i].BeginSession? || actions[i].FinishSession? || actions[i].Confirm?
    ensures Run(w, s, actions).db.documents == s.db.documents
    decreases |actions|
  {
    if actions != [] {
      ConfirmationAddsNoDocument(w, Step(w, s, actions[0]), actions[1..]);
    }
  }

  /** The download gate never asks the user of a row from the document route to pay again,
      unless the case has been soft-deleted. */
  lemma DownloadServesPaidDocuments(w: World, s: State, actions: seq<Action>, documentId: Id, userId: Id)
    requires Initial(s)
    ensures var t := Run(w, s, actions).db;
            documentId in t.documents && t.documents[documentId].route == DocumentRoute ==>
              var row := t.documents[documentId];
              && row.caseId in t.cases
              && (Download(t, documentId, userId) == Served ==> row.userId == userId)
              && (row.userId == userId && !t.cases[row.caseId].deleted ==> Download(t, documentId, userId) == Served)
  {
    GeneratedDocumentsArePaidFor(w, s, actions, documentId);
  }

  // ---- One row per case, user and type ----

  ghost predicate OneRowPerKey(t: Tables) {
    forall i, j | i in t.documents && j in t.documents && t.documents[i].route == DocumentRoute
      && t.documents[i] == t.documents[j] :: i == j
  }

  /** No two requests for the same document are past the idempotency lookup at once. */
  ghost predicate Serial(s: State) {
    forall i, j | i in s.jobs && j in s.jobs && s.jobs[i].MayInsert? && s.jobs[i] == s.jobs[j] :: i == j
  }

  ghost predicate SerialRun(w: World, s: State, actions: seq<Action>)
    decreases |actions|
  {
    Serial(s) && (actions == [] || SerialRun(w, Step(w, s, actions[0]), actions[1..]))
  }

  ghost predicate LookupsHold(s: State) {
    forall job | job in s.jobs && s.jobs[job].MayInsert? ::
      !AlreadyGenerated(s.db, s.jobs[job].caseId, s.jobs[job].userId, s.jobs[job].docType)
  }

  lemma DocumentsStand(w: World, s: State, a: Action)
    requires !a.RecordDocument? && !a.FinishBundle?
    ensures Step(w, s, a).db.documents == s.db.documents
  {
    hide SaveBundle;
  }

  lemma DocumentsOnlyFromRoutes(w: World, s: State, a: Action)
    requires !a.RecordDocument? && !a.FinishBundle?
    ensures Step(w, s, a).db.documents == s.db.documents
    ensures forall job | job in Step(w, s, a).jobs && Step(w, s, a).jobs[job].MayInsert? ::
              (job in s.jobs && s.jobs[job] == Step(w, s, a).jobs[job])
              || (var MayInsert(c, u, d) := Step(w, s, a).jobs[job]; !AlreadyGenerated(s.db, c, u, d))
  {
    hide SaveBundle, CommitPayment, LegacyWebhook, StoreSession, ConfirmRequest;
    DocumentsStand(w, s, a);
  }

  lemma SerialRecord(w: World, s: State, job: nat, documentId: Id)
    requires Serial(s) && OneRowPerKey(s.db) && LookupsHold(s)
    ensures var t := Step(w, s, RecordDocument(job, documentId)); OneRowPerKey(t.db) && LookupsHold(t)
  {
    hide CommitPayment, LegacyWebhook, StoreSession, ConfirmRequest, SaveBundle;
  }

  lemma SerialStep(w: World, s: State, a: Action)
    requires Serial(s) && OneRowPerKey(s.db) && LookupsHold(s)
    ensures OneRowPerKey(Step(w, s, a).db) && LookupsHold(Step(w, s, a))
  {
    hide CommitPayment, LegacyWebhook, StoreSession, ConfirmRequest, SaveBundle;
    if a.FinishBundle? {
      if a.job in s.jobs && s.jobs[a.job].Premium? && |a.ids| == |BUNDLE_COMPONENTS| {
        SaveBundleKeeps(s.db, s.jobs[a.job].caseId, a.ids, BUNDLE_COMPONENTS);
      }
    } else if a.RecordDocument? {
      SerialRecord(w, s, a.job, a.documentId);
    } else {
      DocumentsOnlyFromRoutes(w, s, a);
    }
  }

  lemma {:induction false} SerialRequestsLeaveOneRow(w: World, s: State, actions: seq<Action>)
    requires OneRowPerKey(s.db) && LookupsHold(s) && SerialRun(w, s, actions)
    ensures OneRowPerKey(Run(w, s, actions).db)
    decreases |actions|
  {
    if actions != [] {
      SerialStep(w, s, actions[0]);
      SerialRequestsLeaveOneRow(w, Step(w, s, actions[0]), actions[1..]);
    }
  }

  // Without that, two overlapping requests both miss the lookup and both insert.

  lemma BothRecord(w: World, s: State, i: nat, j: nat, a: Id, b: Id)
    requires i != j && i in s.jobs && j in s.jobs && s.jobs[i].MayInsert? && s.jobs[i] == s.jobs[j]
    requires a != b && a !in s.db.documents && b !in s.db.documents
    ensures !OneRowPerKey(Run(w, s, [RecordDocument(i, a), RecordDocument(j, b)]).db)
  {
    hide SaveBundle, CommitPayment, LegacyWebhook, StoreSession, ConfirmRequest;
    RunTwo(w, s, RecordDocument(i, a), RecordDocument(j, b));
    var t := Run(w, s, [RecordDocument(i, a), RecordDocument(j, b)]).db;
    var MayInsert(caseId, userId, docType) := s.jobs[i];
    assert t.documents[a] == t.documents[b] == Document(caseId, userId, docType, DocumentRoute);
  }

  lemma SerialRecordsLeaveOneRow(w: World, s: State, i: nat, j: nat, a: Id, b: Id)
    requires OneRowPerKey(s.db) && LookupsHold(s) && Serial(s)
    ensures OneRowPerKey(Run(w, s, [RecordDocument(i, a), RecordDocument(j, b)]).db)
  {
    RunTwo(w, s, RecordDocument(i, a), RecordDocument(j, b));
    var t := Step(w, s, RecordDocument(i, a));
    SerialRecord(w, s, i, a);
    assert Serial(t) by {
      hide SaveBundle, CommitPayment, LegacyWebhook, StoreSession, ConfirmRequest, OneRowPerKey, LookupsHold;
    }
    SerialRecord(w, t, j, b);
  }

  /** Two inserts put two rows under one key exactly when two requests for it are past the lookup
      together: serial requests are not only enough but needed. */
  lemma TwoRowsExactlyWhenOverlapping(w: World, s: State, a: Id, b: Id)
    requires OneRowPerKey(s.db) && LookupsHold(s)
    requires a != b && a !in s.db.documents && b !in s.db.documents
    ensures (exists i, j :: !OneRowPerKey(Run(w, s, [RecordDocument(i, a), RecordDocument(j, b)]).db)) <==> !Serial(s)
  {
    hide OneRowPerKey, LookupsHold, Run;
    if Serial(s) {
      forall i, j ensures OneRowPerKey(Run(w, s, [RecordDocument(i, a), RecordDocument(j, b)]).db) {
        SerialRecordsLeaveOneRow(w, s, i, j, a, b);
      }
    } else {
      var i, j :| i in s.jobs && j in s.jobs && s.jobs[i].MayInsert? && s.jobs[i] == s.jobs[j] && i != j;
      BothRecord(w, s, i, j, a, b);
    }
  }

  /** And from any state two new requests of an entitled user get that far, if the document is not
      there yet. */
  lemma OverlappingRequestsLeaveTwoRows(w: World, s: State, i: nat, j: nat, caseId: Id, userId: Id, docType: Id,
                                        a: Id, b: Id)
    requires i != j && i !in s.jobs && j !in s.jobs && a != b && a !in s.db.documents && b !in s.db.documents
    requires OwnershipPasses(s.db, caseId, userId) && Unlocked(s.db, caseId)
    requires !AlreadyGenerated(s.db, caseId, userId, docType)
    ensures var begun := [BeginDocument(i, caseId, userId, docType), BeginDocument(j, caseId, userId, docType)];
            var looked := [LookForDocument(i), LookForDocument(j)];
            var recorded := [RecordDocument(i, a), RecordDocument(j, b)];
            !OneRowPerKey(Run(w, s, begun + looked + recorded).db)
  {
    hide SaveBundle, CommitPayment, LegacyWebhook, StoreSession, ConfirmRequest, OneRowPerKey;
    var begun := [BeginDocument(i, caseId, userId, docType), BeginDocument(j, caseId, userId, docType)];
    var looked := [LookForDocument(i), LookForDocument(j)];
    var recorded := [RecordDocument(i, a), RecordDocument(j, b)];
    RunAppend(w, s, begun + looked, recorded);
    RunAppend(w, s, begun, looked);
    RunTwo(w, s, begun[0], begun[1]);
    var s2 := Run(w, s, begun);
    RunTwo(w, s2, looked[0], looked[1]);
    BothRecord(w, Run(w, s2, looked), i, j, a, b);
  }

  // ---- The two webhooks compared ----

  /** The confirming transaction of the canonical webhook and the deprecated one leave the same tables
      exactly when the event is new and the case is live and owned by the user in the metadata, or the
      event is a duplicate and the deprecated one's case update changes nothing. */
  lemma WebhooksAgreeExactlyWhen(t: Tables, id: Id, e: StripeEvent)
    requires e.eventType == CheckoutCompleted && e.caseId != ""
    ensures CommitPayment(t, id, e, false).0 == LegacyWebhook(t, id, e, false)
            <==> if Stripe(id) in t.events
                 then LegacyUpdates(t, e) ==>
                        t.cases[e.caseId].status == PaidUp && t.cases[e.caseId].stripeSession == e.sessionId
                 else OwnerMatches(t, e)
  {
    if Stripe(id) in t.events {
      LegacyIgnoresDuplicatesExactlyWhen(t, id, e);
    } else {
      assert Stripe(id) in LegacyWebhook(t, id, e, false).events;
    }
  }

  /** Beyond that the deprecated one pays any live case, whoever owns it. */
  lemma LegacyPaysAnyLiveCase(t: Tables, id: Id, e: StripeEvent)
    requires LegacyUpdates(t, e) && t.cases[e.caseId].owner != Some(e.userId)
    ensures CommitPayment(t, id, e, false) == (t, Acknowledged) && Unlocked(LegacyWebhook(t, id, e, false), e.caseId)
  {
  }

  /** The deprecated webhook skips the audit row of a duplicate event but still runs the case
      update; a duplicate is silently ignored exactly when that update would change nothing. */
  lemma LegacyIgnoresDuplicatesExactlyWhen(t: Tables, id: Id, e: StripeEvent)
    requires Stripe(id) in t.events
    ensures LegacyWebhook(t, id, e, false) == t <==>
              (LegacyUpdates(t, e) ==>
                 t.cases[e.caseId].status == PaidUp && t.cases[e.caseId].stripeSession == LegacySession(e))
  {
    if LegacyUpdates(t, e) {
      var updated := t.cases[e.caseId].(status := PaidUp, stripeSession := LegacySession(e));
      assert LegacyWebhook(t, id, e, false).cases[e.caseId] == updated;
      assert t.cases[e.caseId] == updated ==> t.cases[e.caseId := updated] == t.cases;
    }
  }

  /** Such a duplicate comes about: two checkouts pay one live case, then the first is delivered again.
      It changes the tables exactly when the payments were of different sessions, and links the case
      back to the first of them. */
  lemma DuplicateRelinksExactlyWhen(w: World, s: State, first: Id, second: Id)
    requires first in w && second in w && first != second && w[first].caseId == w[second].caseId
    requires w[first].eventType == CheckoutCompleted && w[second].eventType == CheckoutCompleted
    requires LegacyUpdates(s.db, w[first])
    ensures var t := Run(w, s, [LegacyDelivery(first, false), LegacyDelivery(second, false)]).db;
            var both := Run(w, s, [LegacyDelivery(first, false), LegacyDelivery(second, false)]);
            var u := Step(w, both, LegacyDelivery(first, false)).db;
            && Stripe(first) in t.events && u.events == t.events
            && (u != t <==> w[first].sessionId != w[second].sessionId)
            && w[first].caseId in u.cases && u.cases[w[first].caseId].stripeSession == w[first].sessionId
  {
    hide SaveBundle, CommitPayment, StoreSession, ConfirmRequest;
    RunTwo(w, s, LegacyDelivery(first, false), LegacyDelivery(second, false));
    var t := Run(w, s, [LegacyDelivery(first, false), LegacyDelivery(second, false)]).db;
    assert t.cases[w[first].caseId].stripeSession == w[second].sessionId;
    LegacyIgnoresDuplicatesExactlyWhen(t, first, w[first]);
  }
}
