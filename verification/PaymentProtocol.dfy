/** Payment, session and document requests running at the same time.

    A state holds the tables and the requests that are between two of their transactions.
    `Step` performs one transaction (or one call to Stripe) of one request; what the outside
    world answers is part of the action, and an action that is not enabled changes nothing, so
    a run is any sequence of actions. */
module PaymentProtocol {
  import opened Wrappers
  import opened PaymentTables

  datatype Job =
    | Received(event: Id)
    | PastDuplicateCheck(event: Id)
    | Verified(event: Id)
    | Creating(caseId: Id, userId: Id, sessionId: Id)
    | MayGenerate(caseId: Id, userId: Id, docType: Id)
    | MayInsert(caseId: Id, userId: Id, docType: Id)
    | Premium(caseId: Id)

  datatype StripeAnswer = Unavailable | NotPaid | Paid

  datatype Action =
    | ReceiveWebhook(job: nat, event: Id)
    | CheckDuplicate(job: nat)
    | QueryStripe(job: nat, answer: StripeAnswer)
    | CommitWebhook(job: nat, fault: bool)
    | LegacyDelivery(event: Id, fault: bool)
    | BeginSession(job: nat, caseId: Id, userId: Id, sessionId: Id)
    | FinishSession(job: nat)
    | Confirm(mode: Mode, sessionId: Id, userId: Id)
    | BeginDocument(job: nat, caseId: Id, userId: Id, docType: Id)
    | LookForDocument(job: nat)
    | RecordDocument(job: nat, documentId: Id)
    | BeginBundle(job: nat, caseId: Id)
    | FinishBundle(job: nat, ids: seq<Id>)
    | CreateCase(caseId: Id, owner: Option<Id>)
    | DeleteCase(caseId: Id)
    | Abandon(job: nat)

  /** `issued`: session ids handed out so far; `acked`: events answered with a 2xx status. */
  datatype State = State(db: Tables, jobs: map<nat, Job>, issued: set<Id>, acked: set<Id>)

  type World = map<Id, StripeEvent>

  function Finish(s: State, job: nat): State {
    s.(jobs := s.jobs - {job})
  }

  function Ack(s: State, job: nat, event: Id): State {
    Finish(s, job).(acked := s.acked + {event})
  }

  function Enter(s: State, job: nat, phase: Job): State {
    s.(jobs := s.jobs[job := phase])
  }

  function Step(w: World, s: State, a: Action): State {
    match a
    case ReceiveWebhook(job, event) =>
      if job in s.jobs || event !in w then s
      else if w[event].eventType != CheckoutCompleted || w[event].sessionId == "" then Ack(s, job, event)
      else Enter(s, job, Received(event))
    case CheckDuplicate(job) =>
      if job !in s.jobs || !s.jobs[job].Received? then s
      else if Stripe(s.jobs[job].event) in s.db.events then Ack(s, job, s.jobs[job].event)
      else Enter(s, job, PastDuplicateCheck(s.jobs[job].event))
    case QueryStripe(job, answer) =>
      if job !in s.jobs || !s.jobs[job].PastDuplicateCheck? || s.jobs[job].event !in w then s
      else
        var event := s.jobs[job].event;
        if answer == Unavailable then Finish(s, job)
        else if w[event].caseId == "" || w[event].userId == "" || answer == NotPaid then Ack(s, job, event)
        else Enter(s, job, Verified(event))
    case CommitWebhook(job, fault) =>
      if job !in s.jobs || !s.jobs[job].Verified? || s.jobs[job].event !in w then s
      else
        var event := s.jobs[job].event;
        var (db, reply) := CommitPayment(s.db, event, w[event], fault);
        if reply == Acknowledged then Ack(s, job, event).(db := db) else Finish(s, job).(db := db)
    case LegacyDelivery(event, fault) =>
      if event !in w then s else s.(db := LegacyWebhook(s.db, event, w[event], fault))
    case BeginSession(job, caseId, userId, sessionId) =>
      if job in s.jobs || !OwnershipPasses(s.db, caseId, userId) || Unlocked(s.db, caseId) || sessionId in s.issued
      then s
      else Enter(s, job, Creating(caseId, userId, sessionId)).(issued := s.issued + {sessionId})
    case FinishSession(job) =>
      if job !in s.jobs || !s.jobs[job].Creating? then s
      else
        var Creating(caseId, userId, sessionId) := s.jobs[job];
        Finish(s, job).(db := StoreSession(s.db, sessionId, Session(caseId, userId, Pending)))
    case Confirm(mode, sessionId, userId) =>
      s.(db := ConfirmRequest(s.db, mode, sessionId, userId).0)
    case BeginDocument(job, caseId, userId, docType) =>
      if job in s.jobs || !OwnershipPasses(s.db, caseId, userId) || !Unlocked(s.db, caseId) then s
      else Enter(s, job, MayGenerate(caseId, userId, docType))
    case LookForDocument(job) =>
      if job !in s.jobs || !s.jobs[job].MayGenerate? then s
      else
        var MayGenerate(caseId, userId, docType) := s.jobs[job];
        if AlreadyGenerated(s.db, caseId, userId, docType) then Finish(s, job)
        else Enter(s, job, MayInsert(caseId, userId, docType))
    case RecordDocument(job, documentId) =>
      if job !in s.jobs || !s.jobs[job].MayInsert? || documentId in s.db.documents then s
      else
        var MayInsert(caseId, userId, docType) := s.jobs[job];
        Finish(s, job).(db := InsertDocument(s.db, documentId, Document(caseId, userId, docType, DocumentRoute)))
    case BeginBundle(job, caseId) =>
      if job in s.jobs || !ShowsPaid(s.db, caseId) then s else Enter(s, job, Premium(caseId))
    case FinishBundle(job, ids) =>
      if job !in s.jobs || !s.jobs[job].Premium? || |ids| != |BUNDLE_COMPONENTS| then s
      else Finish(s, job).(db := SaveBundle(s.db, s.jobs[job].caseId, ids, BUNDLE_COMPONENTS))
    case CreateCase(caseId, owner) =>
      if caseId in s.db.cases || caseId == "" then s
      else s.(db := s.db.(cases := s.db.cases[caseId := Case(owner, Unpaid, "", false)]))
    case DeleteCase(caseId) =>
      if caseId !in s.db.cases then s
      else s.(db := s.db.(cases := s.db.cases[caseId := s.db.cases[caseId].(deleted := true)]))
    case Abandon(job) =>
      Finish(s, job)
  }

  /** is_case_paid in the form the bundle route evaluates it. */
  predicate ShowsPaid(t: Tables, caseId: Id)
    ensures ShowsPaid(t, caseId) <==> IsCasePaid(t, caseId)
  {
    var viaSession := exists sessionId | sessionId in t.sessions ::
                        t.sessions[sessionId].caseId == caseId && PaidStatus(t.sessions[sessionId].status);
    assert viaSession ==> exists sessionId :: PaidSessionFor(t, sessionId, caseId) by {
      if viaSession {
        var sessionId :| sessionId in t.sessions && t.sessions[sessionId].caseId == caseId
          && PaidStatus(t.sessions[sessionId].status);
        assert PaidSessionFor(t, sessionId, caseId);
      }
    }
    (Unlocked(t, caseId) && !t.cases[caseId].deleted) || viaSession
  }

  function Run(w: World, s: State, actions: seq<Action>): State
    decreases |actions|
  {
    if actions == [] then s else Run(w, Step(w, s, actions[0]), actions[1..])
  }

  // ---- What holds between any two steps ----

  predicate EvidenceRow(row: Event, caseId: Id) {
    row.caseId == caseId && row.status == PaidUp
  }

  /** A committed event row with a paid status names the case. */
  ghost predicate Evidenced(t: Tables, caseId: Id) {
    exists id :: id in t.events && EvidenceRow(t.events[id], caseId)
  }

  ghost predicate EventsInv(w: World, t: Tables) {
    && (forall id | id in w && Stripe(id) in t.events :: t.events[Stripe(id)] == LegacyRow(w[id]))
    && (forall sessionId | ConfirmedKey(sessionId) in t.events ::
          sessionId in t.sessions && EvidenceRow(t.events[ConfirmedKey(sessionId)], t.sessions[sessionId].caseId))
  }

  ghost predicate SessionOk(t: Tables, sessionId: Id)
    requires sessionId in t.sessions
  {
    var row := t.sessions[sessionId];
    && row.caseId in t.cases
    && (t.cases[row.caseId].owner == None || t.cases[row.caseId].owner == Some(row.userId))
    && (row.status == Pending || row.status == PaidUp)
    && (row.status == PaidUp ==> ConfirmedKey(sessionId) in t.events)
    && (row.status == PaidUp && t.cases[row.caseId].owner != None ==> Unlocked(t, row.caseId))
  }

  ghost predicate DocumentOk(t: Tables, row: Document) {
    row.caseId in t.cases && if row.route == DocumentRoute then Unlocked(t, row.caseId) else Entitled(t, row.caseId)
  }

  ghost predicate TablesInv(w: World, t: Tables) {
    && EventsInv(w, t)
    && (forall caseId | Unlocked(t, caseId) :: Evidenced(t, caseId))
    && (forall sessionId | sessionId in t.sessions :: SessionOk(t, sessionId))
    && (forall id | id in t.documents :: DocumentOk(t, t.documents[id]))
  }

  ghost predicate JobOk(w: World, s: State, job: Job) {
    match job
    case Received(event) => event in w && w[event].eventType == CheckoutCompleted
    case PastDuplicateCheck(event) => event in w && w[event].eventType == CheckoutCompleted
    case Verified(event) => event in w && w[event].eventType == CheckoutCompleted && w[event].caseId != ""
    case Creating(caseId, userId, sessionId) =>
      && sessionId in s.issued && sessionId !in s.db.sessions
      && caseId in s.db.cases
      && (s.db.cases[caseId].owner == None || s.db.cases[caseId].owner == Some(userId))
    case MayGenerate(caseId, _, _) => Unlocked(s.db, caseId)
    case MayInsert(caseId, _, _) => Unlocked(s.db, caseId)
    case Premium(caseId) => caseId in s.db.cases && Entitled(s.db, caseId)
  }

  ghost predicate Inv(w: World, s: State) {
    && TablesInv(w, s.db)
    && (forall job | job in s.jobs :: JobOk(w, s, s.jobs[job]))
    && (forall i, j | i in s.jobs && j in s.jobs && s.jobs[i].Creating? && s.jobs[j].Creating?
          && s.jobs[i].sessionId == s.jobs[j].sessionId :: i == j)
    && (forall sessionId | sessionId in s.db.sessions :: sessionId in s.issued)
  }

  /** A deployment before its first payment: any cases, none of them paid. */
  ghost predicate Initial(s: State) {
    && s.jobs == map[] && s.db.sessions == map[] && s.db.events == map[] && s.db.documents == map[] && s.issued == {}
    && forall caseId | caseId in s.db.cases :: !PaidStatus(s.db.cases[caseId].status)
  }

  lemma InitialInv(w: World, s: State)
    requires Initial(s)
    ensures Inv(w, s)
  {
  }

  // ---- Every step keeps what the tables have granted ----

  /** Nothing granted is ever taken back, and ownership is fixed. */
  ghost predicate Grows(t: Tables, u: Tables) {
    && (forall c | c in t.cases :: c in u.cases && u.cases[c].owner == t.cases[c].owner)
    && (forall c | c in t.cases && t.cases[c].status == PaidUp :: u.cases[c].status == PaidUp)
    && (forall c | Unlocked(t, c) :: Unlocked(u, c))
    && (forall c | c in t.cases && t.cases[c].deleted :: u.cases[c].deleted)
    && (forall id | id in t.events :: id in u.events && u.events[id] == t.events[id])
    && (forall id | id in t.documents :: id in u.documents && u.documents[id] == t.documents[id])
    && (forall x | x in t.sessions :: x in u.sessions && u.sessions[x].caseId == t.sessions[x].caseId
          && u.sessions[x].userId == t.sessions[x].userId
          && (t.sessions[x].status == PaidUp ==> u.sessions[x].status == PaidUp))
  }

  lemma GrowsReflexive(t: Tables)
    ensures Grows(t, t)
  {
  }

  lemma GrowsTransitive(t: Tables, u: Tables, v: Tables)
    requires Grows(t, u) && Grows(u, v)
    ensures Grows(t, v)
  {
  }

  lemma SaveBundleKeeps(t: Tables, caseId: Id, ids: seq<Id>, components: seq<Id>)
    requires |ids| == |components|
    ensures var u := SaveBundle(t, caseId, ids, components);
            && u.cases == t.cases && u.sessions == t.sessions && u.events == t.events
            && (forall id | id in t.documents :: id in u.documents && u.documents[id] == t.documents[id])
            && (forall id | id in u.documents && id !in t.documents ::
                  u.documents[id].caseId == caseId && u.documents[id].route == BundleRoute)
    decreases |components|
  {
    if components != [] {
      SaveBundleKeeps(InsertDocument(t, ids[0], Document(caseId, "", components[0], BundleRoute)),
                      caseId, ids[1..], components[1..]);
    }
  }

  lemma MarkPaidGrows(t: Tables, caseId: Id, sessionId: Id)
    requires caseId in t.cases
    ensures Grows(t, MarkPaid(t, caseId, sessionId))
  {
  }

  lemma InsertEventGrows(t: Tables, id: EventKey, row: Event)
    ensures Grows(t, InsertEvent(t, id, row))
  {
  }

  lemma CommitGrows(t: Tables, id: Id, e: StripeEvent, fault: bool)
    ensures Grows(t, CommitPayment(t, id, e, fault).0)
  {
    hide Grows;
    GrowsReflexive(t);
    if OwnerMatches(t, e) && Stripe(id) !in t.events {
      var marked := MarkPaid(t, e.caseId, e.sessionId);
      MarkPaidGrows(t, e.caseId, e.sessionId);
      InsertEventGrows(marked, Stripe(id), PaidRow(e));
      GrowsTransitive(t, marked, InsertEvent(marked, Stripe(id), PaidRow(e)));
    }
  }

  lemma LegacyGrows(t: Tables, id: Id, e: StripeEvent, fault: bool)
    ensures Grows(t, LegacyWebhook(t, id, e, fault))
  {
    hide Grows;
    GrowsReflexive(t);
    var stored := InsertEvent(t, Stripe(id), LegacyRow(e));
    InsertEventGrows(t, Stripe(id), LegacyRow(e));
    if LegacyUpdates(t, e) {
      MarkPaidGrows(stored, e.caseId, LegacySession(e));
      GrowsTransitive(t, stored, MarkPaid(stored, e.caseId, LegacySession(e)));
    }
  }

  lemma StoreSessionGrows(t: Tables, sessionId: Id, row: Session)
    requires sessionId !in t.sessions
    ensures Grows(t, StoreSession(t, sessionId, row))
  {
  }

  lemma SettleSessionGrows(t: Tables, sessionId: Id)
    requires sessionId in t.sessions
    ensures Grows(t, SettleSession(t, sessionId))
  {
  }

  lemma ConfirmGrows(t: Tables, sessionId: Id, userId: Id)
    ensures Grows(t, ConfirmTest(t, sessionId, userId).0)
  {
    hide Grows;
    GrowsReflexive(t);
    if sessionId in t.sessions && t.sessions[sessionId].userId == userId && t.sessions[sessionId].status != PaidUp {
      var row := t.sessions[sessionId];
      var settled := SettleSession(t, sessionId);
      SettleSessionGrows(t, sessionId);
      var marked := settled;
      if row.caseId in t.cases && t.cases[row.caseId].owner == Some(userId) {
        MarkPaidGrows(settled, row.caseId, sessionId);
        marked := MarkPaid(settled, row.caseId, sessionId);
        GrowsTransitive(t, settled, marked);
      }
      var event := Event(CheckoutCompleted, sessionId, row.caseId, userId, PaidUp);
      InsertEventGrows(marked, ConfirmedKey(sessionId), event);
      GrowsTransitive(t, marked, InsertEvent(marked, ConfirmedKey(sessionId), event));
    }
  }

  lemma InsertDocumentGrows(t: Tables, id: Id, row: Document)
    ensures Grows(t, InsertDocument(t, id, row))
  {
  }

  lemma SaveBundleGrows(t: Tables, caseId: Id, ids: seq<Id>, components: seq<Id>)
    requires |ids| == |components|
    ensures Grows(t, SaveBundle(t, caseId, ids, components))
  {
    SaveBundleKeeps(t, caseId, ids, components);
  }

  // ---- Every transaction keeps the table invariant ----

  lemma EvidencedGrows(t: Tables, u: Tables, caseId: Id)
    requires Grows(t, u) && Evidenced(t, caseId)
    ensures Evidenced(u, caseId)
  {
    var id :| id in t.events && EvidenceRow(t.events[id], caseId);
    assert id in u.events && EvidenceRow(u.events[id], caseId);
  }

  lemma EntitledGrows(t: Tables, u: Tables, caseId: Id)
    requires Grows(t, u) && Entitled(t, caseId)
    requires forall x | x in t.sessions :: SessionOk(t, x)
    ensures Entitled(u, caseId)
  {
    if !Unlocked(t, caseId) {
      var x :| PaidSessionFor(t, x, caseId);
      assert PaidSessionFor(u, x, caseId);
    }
  }

  /** The parts of the invariant that only speak of what is already there survive growth. */
  lemma GrowthKeeps(w: World, t: Tables, u: Tables)
    requires TablesInv(w, t) && Grows(t, u)
    ensures forall c | Unlocked(t, c) :: Evidenced(u, c)
    ensures forall id | id in t.documents :: DocumentOk(u, t.documents[id])
    ensures forall x | x in t.sessions && u.sessions[x] == t.sessions[x] :: SessionOk(u, x)
  {
    forall c | Unlocked(t, c) ensures Evidenced(u, c) {
      EvidencedGrows(t, u, c);
    }
    forall id | id in t.documents ensures DocumentOk(u, t.documents[id]) {
      if t.documents[id].route == BundleRoute {
        EntitledGrows(t, u, t.documents[id].caseId);
      }
    }
  }

  lemma CommitKeeps(w: World, t: Tables, id: Id, fault: bool)
    requires TablesInv(w, t) && id in w && w[id].eventType == CheckoutCompleted
    ensures TablesInv(w, CommitPayment(t, id, w[id], fault).0)
  {
    var u := CommitPayment(t, id, w[id], fault).0;
    CommitGrows(t, id, w[id], fault);
    GrowthKeeps(w, t, u);
    if u != t {
      assert EvidenceRow(u.events[Stripe(id)], w[id].caseId);
    }
  }

  lemma LegacyKeeps(w: World, t: Tables, id: Id, fault: bool)
    requires TablesInv(w, t) && id in w
    ensures TablesInv(w, LegacyWebhook(t, id, w[id], fault))
  {
    hide Grows, SessionOk, DocumentOk;
    var u := LegacyWebhook(t, id, w[id], fault);
    LegacyGrows(t, id, w[id], fault);
    GrowthKeeps(w, t, u);
    if !fault && LegacyUpdates(t, w[id]) {
      assert EvidenceRow(u.events[Stripe(id)], w[id].caseId);
    }
  }

  lemma StoreSessionKeeps(w: World, t: Tables, sessionId: Id, row: Session)
    requires TablesInv(w, t) && sessionId !in t.sessions && row.status == Pending
    requires row.caseId in t.cases
    requires t.cases[row.caseId].owner == None || t.cases[row.caseId].owner == Some(row.userId)
    ensures TablesInv(w, StoreSession(t, sessionId, row))
  {
    var u := StoreSession(t, sessionId, row);
    StoreSessionGrows(t, sessionId, row);
    GrowthKeeps(w, t, u);
  }

  lemma ConfirmKeepsEvents(w: World, t: Tables, sessionId: Id, userId: Id)
    requires TablesInv(w, t)
    ensures EventsInv(w, ConfirmTest(t, sessionId, userId).0)
  {
  }

  lemma ConfirmKeepsSessions(w: World, t: Tables, sessionId: Id, userId: Id)
    requires TablesInv(w, t)
    ensures var u := ConfirmTest(t, sessionId, userId).0; forall x | x in u.sessions :: SessionOk(u, x)
  {
    var u := ConfirmTest(t, sessionId, userId).0;
    ConfirmGrows(t, sessionId, userId);
    GrowthKeeps(w, t, u);
    if u != t {
      assert SessionOk(t, sessionId);
      forall x | x in u.sessions && x != sessionId ensures SessionOk(u, x) {
        assert u.sessions[x] == t.sessions[x];
      }
    }
  }

  lemma ConfirmKeeps(w: World, t: Tables, sessionId: Id, userId: Id)
    requires TablesInv(w, t)
    ensures TablesInv(w, ConfirmTest(t, sessionId, userId).0)
  {
    var u := ConfirmTest(t, sessionId, userId).0;
    ConfirmGrows(t, sessionId, userId);
    GrowthKeeps(w, t, u);
    ConfirmKeepsEvents(w, t, sessionId, userId);
    ConfirmKeepsSessions(w, t, sessionId, userId);
    forall c | Unlocked(u, c) && !Unlocked(t, c)
      ensures Evidenced(u, c)
    {
      assert EvidenceRow(u.events[ConfirmedKey(sessionId)], c);
    }
  }

  lemma InsertDocumentKeeps(w: World, t: Tables, id: Id, row: Document)
    requires TablesInv(w, t) && DocumentOk(t, row)
    ensures TablesInv(w, InsertDocument(t, id, row))
  {
    var u := InsertDocument(t, id, row);
    InsertDocumentGrows(t, id, row);
    GrowthKeeps(w, t, u);
    if row.route == BundleRoute {
      EntitledGrows(t, u, row.caseId);
    }
  }

  lemma SaveBundleKeepsInv(w: World, t: Tables, caseId: Id, ids: seq<Id>, components: seq<Id>)
    requires TablesInv(w, t) && |ids| == |components| && caseId in t.cases && Entitled(t, caseId)
    ensures TablesInv(w, SaveBundle(t, caseId, ids, components))
    decreases |components|
  {
    if components != [] {
      var row := Document(caseId, "", components[0], BundleRoute);
      var u := InsertDocument(t, ids[0], row);
      InsertDocumentKeeps(w, t, ids[0], row);
      EntitledGrows(t, u, caseId);
      SaveBundleKeepsInv(w, u, caseId, ids[1..], components[1..]);
    }
  }

  lemma CaseChangeKeeps(w: World, t: Tables, u: Tables)
    requires TablesInv(w, t) && Grows(t, u)
    requires u.sessions == t.sessions && u.events == t.events && u.documents == t.documents
    requires forall c | Unlocked(u, c) :: Unlocked(t, c)
    ensures TablesInv(w, u)
  {
    GrowthKeeps(w, t, u);
  }

  // ---- Every step keeps the whole invariant ----

  /** A job untouched by a step stays sound when the tables grow; a session may only appear
      if no remaining request is about to create it. */
  lemma JobsKeep(w: World, s: State, t: State)
    requires Inv(w, s) && Grows(s.db, t.db) && s.issued == t.issued
    requires forall job | job in t.jobs :: job in s.jobs && t.jobs[job] == s.jobs[job]
    requires forall job | job in t.jobs && t.jobs[job].Creating? :: t.jobs[job].sessionId !in t.db.sessions
    ensures forall job | job in t.jobs :: JobOk(w, t, t.jobs[job])
  {
    forall job | job in t.jobs
      ensures JobOk(w, t, t.jobs[job])
    {
      assert JobOk(w, s, s.jobs[job]);
      if t.jobs[job].Premium? {
        EntitledGrows(s.db, t.db, t.jobs[job].caseId);
      }
    }
  }

  predicate Admits(a: Action) {
    a.ReceiveWebhook? || a.BeginSession? || a.BeginDocument? || a.BeginBundle?
  }

  predicate ReadOnly(a: Action) {
    Admits(a) || a.CheckDuplicate? || a.QueryStripe? || a.LookForDocument? || a.Abandon?
  }

  lemma EntitledCaseExists(w: World, t: Tables, caseId: Id)
    requires TablesInv(w, t) && Entitled(t, caseId)
    ensures caseId in t.cases
  {
    if !Unlocked(t, caseId) {
      var x :| PaidSessionFor(t, x, caseId);
      assert SessionOk(t, x);
    }
  }

  lemma BeginSessionStep(w: World, s: State, a: Action)
    requires Inv(w, s) && a.BeginSession?
    ensures Inv(w, Step(w, s, a)) && Step(w, s, a).db == s.db
  {
    hide TablesInv, CommitPayment, LegacyWebhook, StoreSession, ConfirmRequest, SaveBundle, Unlocked;
  }

  lemma AdmittingStep(w: World, s: State, a: Action)
    requires Inv(w, s) && Admits(a)
    ensures Inv(w, Step(w, s, a)) && Step(w, s, a).db == s.db
  {
    hide TablesInv, CommitPayment, LegacyWebhook, StoreSession, ConfirmRequest, SaveBundle, Unlocked;
    if a.BeginSession? {
      hide Inv, Step;
      BeginSessionStep(w, s, a);
    } else if a.BeginBundle? && Entitled(s.db, a.caseId) {
      EntitledCaseExists(w, s.db, a.caseId);
    }
  }

  lemma ReadOnlyStep(w: World, s: State, a: Action)
    requires Inv(w, s) && ReadOnly(a)
    ensures Inv(w, Step(w, s, a)) && Step(w, s, a).db == s.db
  {
    hide Inv, Step;
    if Admits(a) {
      AdmittingStep(w, s, a);
    } else if a.CheckDuplicate? || a.QueryStripe? {
      WebhookLookup(w, s, a);
    } else {
      OtherLookup(w, s, a);
    }
  }

  lemma WebhookLookup(w: World, s: State, a: Action)
    requires Inv(w, s) && (a.CheckDuplicate? || a.QueryStripe?)
    ensures Inv(w, Step(w, s, a)) && Step(w, s, a).db == s.db
  {
    hide TablesInv, CommitPayment, LegacyWebhook, StoreSession, ConfirmRequest, SaveBundle, Unlocked;
  }

  lemma OtherLookup(w: World, s: State, a: Action)
    requires Inv(w, s) && (a.LookForDocument? || a.Abandon?)
    ensures Inv(w, Step(w, s, a)) && Step(w, s, a).db == s.db
  {
    hide TablesInv, CommitPayment, LegacyWebhook, StoreSession, ConfirmRequest, SaveBundle, Unlocked;
  }

  lemma WebhookStep(w: World, s: State, a: Action)
    requires Inv(w, s) && (a.CommitWebhook? || a.LegacyDelivery?)
    ensures Inv(w, Step(w, s, a)) && Grows(s.db, Step(w, s, a).db)
  {
    hide TablesInv, Grows, SaveBundle;
    GrowsReflexive(s.db);
    match a
    case CommitWebhook(job, fault) =>
      if job in s.jobs && s.jobs[job].Verified? {
        var event := s.jobs[job].event;
        CommitGrows(s.db, event, w[event], fault);
        CommitKeeps(w, s.db, event, fault);
        JobsKeep(w, s, Step(w, s, a));
      }
    case LegacyDelivery(event, fault) =>
      if event in w {
        LegacyGrows(s.db, event, w[event], fault);
        LegacyKeeps(w, s.db, event, fault);
        JobsKeep(w, s, Step(w, s, a));
      }
  }

  lemma FinishSessionStep(w: World, s: State, job: nat)
    requires Inv(w, s)
    ensures var t := Step(w, s, FinishSession(job)); Inv(w, t) && Grows(s.db, t.db)
  {
    hide TablesInv, Grows, SaveBundle, ConfirmRequest;
    GrowsReflexive(s.db);
    if job in s.jobs && s.jobs[job].Creating? {
      var Creating(caseId, userId, sessionId) := s.jobs[job];
      assert JobOk(w, s, s.jobs[job]);
      StoreSessionGrows(s.db, sessionId, Session(caseId, userId, Pending));
      StoreSessionKeeps(w, s.db, sessionId, Session(caseId, userId, Pending));
      JobsKeep(w, s, Step(w, s, FinishSession(job)));
    }
  }

  lemma ConfirmAddsNoSession(t: Tables, sessionId: Id, userId: Id)
    ensures ConfirmTest(t, sessionId, userId).0.sessions.Keys == t.sessions.Keys
  {
  }

  lemma ConfirmStep(w: World, s: State, mode: Mode, sessionId: Id, userId: Id)
    requires Inv(w, s)
    ensures var t := Step(w, s, Confirm(mode, sessionId, userId)); Inv(w, t) && Grows(s.db, t.db)
  {
    hide TablesInv, Grows, SaveBundle, StoreSession, ConfirmTest, IsTestSession;
    GrowsReflexive(s.db);
    ConfirmGrows(s.db, sessionId, userId);
    ConfirmAddsNoSession(s.db, sessionId, userId);
    ConfirmKeeps(w, s.db, sessionId, userId);
    JobsKeep(w, s, Step(w, s, Confirm(mode, sessionId, userId)));
  }

  lemma RecordDocumentStep(w: World, s: State, job: nat, id: Id)
    requires Inv(w, s)
    ensures var t := Step(w, s, RecordDocument(job, id)); Inv(w, t) && Grows(s.db, t.db)
  {
    hide TablesInv, Grows;
    GrowsReflexive(s.db);
    if job in s.jobs && s.jobs[job].MayInsert? && id !in s.db.documents {
      var MayInsert(caseId, userId, docType) := s.jobs[job];
      assert JobOk(w, s, s.jobs[job]);
      InsertDocumentKeeps(w, s.db, id, Document(caseId, userId, docType, DocumentRoute));
      InsertDocumentGrows(s.db, id, Document(caseId, userId, docType, DocumentRoute));
      JobsKeep(w, s, Step(w, s, RecordDocument(job, id)));
    }
  }

  lemma FinishBundleStep(w: World, s: State, job: nat, ids: seq<Id>)
    requires Inv(w, s)
    ensures var t := Step(w, s, FinishBundle(job, ids)); Inv(w, t) && Grows(s.db, t.db)
  {
    hide TablesInv, Grows, SaveBundle;
    GrowsReflexive(s.db);
    if job in s.jobs && s.jobs[job].Premium? && |ids| == |BUNDLE_COMPONENTS| {
      assert JobOk(w, s, s.jobs[job]);
      SaveBundleGrows(s.db, s.jobs[job].caseId, ids, BUNDLE_COMPONENTS);
      SaveBundleKeepsInv(w, s.db, s.jobs[job].caseId, ids, BUNDLE_COMPONENTS);
      SaveBundleKeeps(s.db, s.jobs[job].caseId, ids, BUNDLE_COMPONENTS);
      JobsKeep(w, s, Step(w, s, FinishBundle(job, ids)));
    }
  }

  lemma CaseChangeGrows(w: World, s: State, a: Action)
    requires a.CreateCase? || a.DeleteCase?
    ensures Grows(s.db, Step(w, s, a).db)
  {
    hide CommitPayment, LegacyWebhook, StoreSession, ConfirmRequest, SaveBundle;
  }

  lemma CaseStep(w: World, s: State, a: Action)
    requires Inv(w, s) && (a.CreateCase? || a.DeleteCase?)
    ensures Inv(w, Step(w, s, a)) && Grows(s.db, Step(w, s, a).db)
  {
    hide TablesInv, Grows, CommitPayment, LegacyWebhook, StoreSession, ConfirmRequest, SaveBundle;
    GrowsReflexive(s.db);
    CaseChangeGrows(w, s, a);
    CaseChangeKeeps(w, s.db, Step(w, s, a).db);
    JobsKeep(w, s, Step(w, s, a));
  }

  lemma StepKeeps(w: World, s: State, a: Action)
    requires Inv(w, s)
    ensures Inv(w, Step(w, s, a)) && Grows(s.db, Step(w, s, a).db)
  {
    if ReadOnly(a) {
      ReadOnlyStep(w, s, a);
    } else if a.CommitWebhook? || a.LegacyDelivery? {
      WebhookStep(w, s, a);
    } else if a.FinishSession? {
      FinishSessionStep(w, s, a.job);
    } else if a.Confirm? {
      ConfirmStep(w, s, a.mode, a.sessionId, a.userId);
    } else if a.RecordDocument? {
      RecordDocumentStep(w, s, a.job, a.documentId);
    } else if a.FinishBundle? {
      FinishBundleStep(w, s, a.job, a.ids);
    } else {
      CaseStep(w, s, a);
    }
  }

  lemma {:induction false} RunKeeps(w: World, s: State, actions: seq<Action>)
    requires Inv(w, s)
    ensures Inv(w, Run(w, s, actions)) && Grows(s.db, Run(w, s, actions).db)
    decreases |actions|
  {
    if actions != [] {
      var t := Step(w, s, actions[0]);
      StepKeeps(w, s, actions[0]);
      RunKeeps(w, t, actions[1..]);
      GrowsTransitive(s.db, t.db, Run(w, t, actions[1..]).db);
    }
  }
}
