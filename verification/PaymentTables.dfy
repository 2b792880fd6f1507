/** The payment and document tables, and the transactions the payment routes, the
    legacy webhook and the document routes run on them.

    Every transaction appears twice: as a function on table values, which the protocol
    proofs use, and as a method of `Database`, which performs the source's statements in
    order (including the rollback on a unique violation) and is proved to implement it. */
module PaymentTables {
  import opened Wrappers

  /** UUIDs, Stripe ids and document type names; "" stands for an absent value or NULL. */
  type Id = string

  datatype Status = Unpaid | Pending | PaidUp | VerifiedUp | Complete

  /** The event types the handlers tell apart; only the first three are "checkout.session.*". */
  datatype EventType = CheckoutCompleted | CheckoutOther | CheckoutCreated | IntentSucceeded | OtherEvent

  /** payment_events.stripe_event_id: Stripe's own id, or one of the two prefixed ids
      this service makes up ("manual_session_created:…", "manual_payment_confirmed:…"). */
  datatype EventKey = Stripe(id: Id) | CreatedKey(sessionId: Id) | ConfirmedKey(sessionId: Id)

  function Render(key: EventKey): string {
    match key
    case Stripe(id) => id
    case CreatedKey(sessionId) => "manual_session_created:" + sessionId
    case ConfirmedKey(sessionId) => "manual_payment_confirmed:" + sessionId
  }

  /** Keying the table by EventKey loses nothing: Stripe's ids start with "evt_", and then the
      unique index on the rendered text tells exactly the same keys apart. */
  lemma RenderedKeysAreDistinct(a: EventKey, b: EventKey)
    requires a.Stripe? ==> "evt_" <= a.id
    requires b.Stripe? ==> "evt_" <= b.id
    ensures Render(a) == Render(b) ==> a == b
  {
    assert a.Stripe? <==> Render(a)[0] == 'e';
    assert b.Stripe? <==> Render(b)[0] == 'e';
    assert a.CreatedKey? ==> Render(a)[7] == 's' && Render(a)[23..] == a.sessionId;
    assert b.CreatedKey? ==> Render(b)[7] == 's' && Render(b)[23..] == b.sessionId;
    assert a.ConfirmedKey? ==> Render(a)[7] == 'p' && Render(a)[25..] == a.sessionId;
    assert b.ConfirmedKey? ==> Render(b)[7] == 'p' && Render(b)[25..] == b.sessionId;
  }

  datatype Case = Case(owner: Option<Id>, status: Status, stripeSession: Id, deleted: bool)
  datatype Session = Session(caseId: Id, userId: Id, status: Status)
  datatype Event = Event(eventType: EventType, sessionId: Id, caseId: Id, userId: Id, status: Status)
  datatype Route = DocumentRoute | BundleRoute
  datatype Document = Document(caseId: Id, userId: Id, docType: Id, route: Route)

  datatype Tables = Tables(
    cases: map<Id, Case>,
    sessions: map<Id, Session>,
    events: map<EventKey, Event>,
    documents: map<Id, Document>)

  /** A verified Stripe event together with the metadata of the session it is about. */
  datatype StripeEvent = StripeEvent(eventType: EventType, sessionId: Id, caseId: Id, userId: Id)

  datatype Reply = Acknowledged | ServerError

  const BUNDLE_COMPONENTS: seq<Id> :=
    ["witness_statement", "chronology", "evidence_checklist", "et1_support_notes"]

  predicate PaidStatus(status: Status) {
    status == PaidUp || status == VerifiedUp || status == Complete
  }

  /** The flag document generation reads: a paid status on the case row. */
  predicate Unlocked(t: Tables, caseId: Id) {
    caseId in t.cases && PaidStatus(t.cases[caseId].status)
  }

  ghost predicate PaidSessionFor(t: Tables, sessionId: Id, caseId: Id) {
    sessionId in t.sessions && t.sessions[sessionId].caseId == caseId && PaidStatus(t.sessions[sessionId].status)
  }

  /** is_case_paid: a live paid case row, or any paid session row for the case. */
  ghost predicate IsCasePaid(t: Tables, caseId: Id) {
    || (Unlocked(t, caseId) && !t.cases[caseId].deleted)
    || (exists sessionId :: PaidSessionFor(t, sessionId, caseId))
  }

  /** What unlocks premium output for a case, whether or not it has been soft-deleted. */
  ghost predicate Entitled(t: Tables, caseId: Id) {
    Unlocked(t, caseId) || exists sessionId :: PaidSessionFor(t, sessionId, caseId)
  }

  /** check_case_ownership: an ownerless case passes for every user. */
  predicate OwnershipPasses(t: Tables, caseId: Id, userId: Id) {
    caseId in t.cases && !t.cases[caseId].deleted
    && (t.cases[caseId].owner == None || t.cases[caseId].owner == Some(userId))
  }

  function MarkPaid(t: Tables, caseId: Id, sessionId: Id): Tables
    requires caseId in t.cases
  {
    t.(cases := t.cases[caseId := t.cases[caseId].(status := PaidUp, stripeSession := sessionId)])
  }

  /** INSERT INTO payment_events … ON CONFLICT (stripe_event_id) DO NOTHING. */
  function InsertEvent(t: Tables, key: EventKey, row: Event): Tables {
    if key in t.events then t else t.(events := t.events[key := row])
  }

  // ---- Canonical webhook: the confirming transaction ----

  predicate OwnerMatches(t: Tables, e: StripeEvent) {
    e.caseId in t.cases && !t.cases[e.caseId].deleted && t.cases[e.caseId].owner == Some(e.userId)
  }

  function PaidRow(e: StripeEvent): Event {
    Event(e.eventType, e.sessionId, e.caseId, e.userId, PaidUp)
  }

  function CommitPayment(t: Tables, id: Id, e: StripeEvent, fault: bool): (Tables, Reply) {
    if !OwnerMatches(t, e) then (t, Acknowledged)
    else if Stripe(id) in t.events || fault then (t, ServerError)
    else (MarkPaid(t, e.caseId, e.sessionId).(events := t.events[Stripe(id) := PaidRow(e)]), Acknowledged)
  }

  // ---- Legacy webhook: one transaction, no owner check, no question to Stripe ----

  predicate LegacyPaid(e: StripeEvent) {
    e.eventType == CheckoutCompleted || e.eventType == IntentSucceeded
  }

  function LegacySession(e: StripeEvent): Id {
    if e.eventType == CheckoutCompleted || e.eventType == CheckoutOther || e.eventType == CheckoutCreated
    then e.sessionId else ""
  }

  function LegacyRow(e: StripeEvent): Event {
    Event(e.eventType, LegacySession(e), e.caseId, e.userId, if LegacyPaid(e) then PaidUp else Pending)
  }

  predicate LegacyUpdates(t: Tables, e: StripeEvent) {
    e.caseId != "" && LegacyPaid(e) && e.caseId in t.cases && !t.cases[e.caseId].deleted
  }

  function LegacyWebhook(t: Tables, id: Id, e: StripeEvent, fault: bool): Tables {
    if fault then t
    else
      var stored := InsertEvent(t, Stripe(id), LegacyRow(e));
      if LegacyUpdates(t, e) then MarkPaid(stored, e.caseId, LegacySession(e)) else stored
  }

  // ---- Session creation and test confirmation ----

  function StoreSession(t: Tables, sessionId: Id, row: Session): Tables {
    InsertEvent(t.(sessions := t.sessions[sessionId := row]), CreatedKey(sessionId),
                Event(CheckoutCreated, sessionId, row.caseId, row.userId, row.status))
  }

  datatype Mode = Disabled | TestMode | StripeMode

  datatype Confirmation = TestModeOnly | InvalidTestId | NotFound | Success(caseId: Id)

  /** Sessions the test-mode create-session path made up. */
  predicate IsTestSession(sessionId: Id) {
    "cs_test_" <= sessionId
  }

  function SettleSession(t: Tables, sessionId: Id): Tables
    requires sessionId in t.sessions
  {
    t.(sessions := t.sessions[sessionId := t.sessions[sessionId].(status := PaidUp)])
  }

  /** The transaction of a confirmation that is let through. */
  function ConfirmTest(t: Tables, sessionId: Id, userId: Id): (Tables, Confirmation) {
    if sessionId !in t.sessions || t.sessions[sessionId].userId != userId then (t, NotFound)
    else
      var row := t.sessions[sessionId];
      if row.status == PaidUp then (t, Success(row.caseId))
      else
        var settled := SettleSession(t, sessionId);
        var marked :=
          if row.caseId in t.cases && t.cases[row.caseId].owner == Some(userId)
          then MarkPaid(settled, row.caseId, sessionId) else settled;
        (InsertEvent(marked, ConfirmedKey(sessionId), Event(CheckoutCompleted, sessionId, row.caseId, userId, PaidUp)),
         Success(row.caseId))
  }

  function ConfirmRequest(t: Tables, mode: Mode, sessionId: Id, userId: Id): (Tables, Confirmation) {
    if mode != TestMode then (t, TestModeOnly)
    else if !IsTestSession(sessionId) then (t, InvalidTestId)
    else ConfirmTest(t, sessionId, userId)
  }

  // ---- Generated documents ----

  predicate AlreadyGenerated(t: Tables, caseId: Id, userId: Id, docType: Id) {
    exists id | id in t.documents :: t.documents[id] == Document(caseId, userId, docType, DocumentRoute)
  }

  function InsertDocument(t: Tables, id: Id, row: Document): Tables {
    if id in t.documents then t else t.(documents := t.documents[id := row])
  }

  function SaveBundle(t: Tables, caseId: Id, ids: seq<Id>, components: seq<Id>): Tables
    requires |ids| == |components|
    decreases |components|
  {
    if components == [] then t
    else SaveBundle(InsertDocument(t, ids[0], Document(caseId, "", components[0], BundleRoute)),
                    caseId, ids[1..], components[1..])
  }

  datatype DownloadReply = DocumentNotFound | Unauthorized | PaymentRequired | Served

  ghost function Download(t: Tables, id: Id, userId: Id): DownloadReply {
    if id !in t.documents then DocumentNotFound
    else if t.documents[id].userId != userId then Unauthorized
    else if !IsCasePaid(t, t.documents[id].caseId) then PaymentRequired
    else Served
  }

  datatype GenerateReply = GenerateReply(documentId: Id)

  /** The database, changed row by row as the routes' SQL statements do. */
  class Database {
    var cases: map<Id, Case>
    var sessions: map<Id, Session>
    var events: map<EventKey, Event>
    var documents: map<Id, Document>

    ghost function View(): Tables
      reads this
    {
      Tables(cases, sessions, events, documents)
    }

    method InsertEventRow(key: EventKey, row: Event)
      modifies this`events
      ensures View() == InsertEvent(old(View()), key, row)
      // The key is there afterwards, no row that was there has changed, and no other has come.
      ensures key in events && (key !in old(events) ==> events[key] == row)
      ensures forall k :: k in events && k != key <==> k in old(events) && k != key
      ensures forall k | k in old(events) :: k in events && events[k] == old(events)[k]
    {
      if key !in events {
        events := events[key := row];
      }
    }

    /** UPDATE cases, INSERT event; the unique violation undoes the update. */
    method CommitWebhookPayment(id: Id, e: StripeEvent, fault: bool) returns (reply: Reply)
      modifies this
      ensures (View(), reply) == CommitPayment(old(View()), id, e, fault)
    {
      if e.caseId !in cases || cases[e.caseId].deleted {
        return Acknowledged;
      }
      if cases[e.caseId].owner != Some(e.userId) {
        return Acknowledged;
      }
      var savedCases, savedEvents := cases, events;
      cases := cases[e.caseId := cases[e.caseId].(status := PaidUp, stripeSession := e.sessionId)];
      if Stripe(id) in events || fault {
        cases, events := savedCases, savedEvents;
        return ServerError;
      }
      events := events[Stripe(id) := PaidRow(e)];
      return Acknowledged;
    }

    method ProcessLegacyWebhook(id: Id, e: StripeEvent, fault: bool)
      modifies this
      ensures View() == LegacyWebhook(old(View()), id, e, fault)
    {
      var savedCases, savedEvents := cases, events;
      InsertEventRow(Stripe(id), LegacyRow(e));
      if e.caseId != "" && LegacyPaid(e) {
        if e.caseId in cases && !cases[e.caseId].deleted {
          cases := cases[e.caseId := cases[e.caseId].(status := PaidUp, stripeSession := LegacySession(e))];
        }
      }
      if fault {
        cases, events := savedCases, savedEvents;
      }
    }

    method StorePaymentSession(sessionId: Id, row: Session)
      modifies this
      ensures View() == StoreSession(old(View()), sessionId, row)
      // The session is stored as given, there is a "created" event for it, and no payment was made or
      // undone.
      ensures sessionId in sessions && sessions[sessionId] == row && CreatedKey(sessionId) in events
      ensures cases == old(cases) && documents == old(documents)
      ensures forall x | x != sessionId :: x in sessions <==> x in old(sessions)
      ensures forall x | x in old(sessions) && x != sessionId :: sessions[x] == old(sessions)[x]
      ensures forall k | k in old(events) :: k in events && events[k] == old(events)[k]
    {
      sessions := sessions[sessionId := row];
      InsertEventRow(CreatedKey(sessionId),
                     Event(CheckoutCreated, sessionId, row.caseId, row.userId, row.status));
    }

    method ConfirmTestPayment(mode: Mode, sessionId: Id, userId: Id) returns (reply: Confirmation)
      modifies this
      ensures (View(), reply) == ConfirmRequest(old(View()), mode, sessionId, userId)
    {
      if mode != TestMode {
        return TestModeOnly;
      }
      if !IsTestSession(sessionId) {
        return InvalidTestId;
      }
      if sessionId !in sessions || sessions[sessionId].userId != userId {
        return NotFound;
      }
      var row := sessions[sessionId];
      if row.status != PaidUp {
        sessions := sessions[sessionId := row.(status := PaidUp)];
        if row.caseId in cases && cases[row.caseId].owner == Some(userId) {
          cases := cases[row.caseId := cases[row.caseId].(status := PaidUp, stripeSession := sessionId)];
        }
        InsertEventRow(ConfirmedKey(sessionId), Event(CheckoutCompleted, sessionId, row.caseId, userId, PaidUp));
      }
      return Success(row.caseId);
    }

    /** The last transaction of generate_document, run without interruption. The reply carries
        the freshly drawn id on both branches, although one of them inserts no row. */
    method RecordGeneratedDocument(freshId: Id, caseId: Id, userId: Id, docType: Id)
      returns (reply: GenerateReply)
      requires freshId !in documents
      modifies this`documents
      ensures reply.documentId in documents <==> !AlreadyGenerated(old(View()), caseId, userId, docType)
      ensures AlreadyGenerated(old(View()), caseId, userId, docType) ==>
                View() == old(View()) && forall user :: Download(View(), reply.documentId, user) == DocumentNotFound
      ensures !AlreadyGenerated(old(View()), caseId, userId, docType) ==>
                View() == InsertDocument(old(View()), freshId, Document(caseId, userId, docType, DocumentRoute))
    {
      if exists id | id in documents :: documents[id] == Document(caseId, userId, docType, DocumentRoute) {
        return GenerateReply(freshId);
      }
      documents := documents[freshId := Document(caseId, userId, docType, DocumentRoute)];
      return GenerateReply(freshId);
    }

    /** One row per bundle component, each insert skipped on conflict. */
    method SaveBundleMetadata(caseId: Id, ids: seq<Id>, components: seq<Id>)
      requires |ids| == |components|
      modifies this`documents
      ensures View() == SaveBundle(old(View()), caseId, ids, components)
    {
      var i := 0;
      ghost var start := View();
      while i < |components|
        invariant 0 <= i <= |components|
        invariant SaveBundle(View(), caseId, ids[i..], components[i..]) == SaveBundle(start, caseId, ids, components)
        invariant unchanged(`cases) && unchanged(`sessions) && unchanged(`events)
      {
        if ids[i] !in documents {
          documents := documents[ids[i] := Document(caseId, "", components[i], BundleRoute)];
        }
        i := i + 1;
      }
    }
  }
}
