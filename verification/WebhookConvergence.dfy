/** Every interleaving of deliveries to the canonical webhook ends in the same payments.

    Deliveries may be duplicated, reordered, overlap past the duplicate check, fail at Stripe,
    fail in the database or vanish; Stripe redelivers an event until it is acknowledged. */
module WebhookConvergence {
  import opened PaymentTables
  import opened PaymentProtocol
  import opened PaymentSafety

  /** The steps deliveries of `events` can take when Stripe confirms every one as paid. */
  predicate Delivery(events: set<Id>, a: Action) {
    match a
    case ReceiveWebhook(_, event) => event in events
    case QueryStripe(_, answer) => answer != NotPaid
    case CheckDuplicate(_) => true
    case CommitWebhook(_, _) => true
    case Abandon(_) => true
    case _ => false
  }

  ghost predicate Completed(w: World, events: set<Id>) {
    forall id | id in events :: id in w && w[id].eventType == CheckoutCompleted && w[id].sessionId != ""
  }

  /** The payment is for a live case whose owner is the user in the session metadata. */
  predicate Applicable(t: Tables, e: StripeEvent) {
    e.caseId != "" && e.userId != "" && OwnerMatches(t, e)
  }

  ghost predicate Start(w: World, events: set<Id>, s: State) {
    && Completed(w, events) && s.jobs == map[] && s.acked !! events
    && forall id | id in events :: Stripe(id) !in s.db.events
  }

  predicate PaysFor(w: World, events: set<Id>, t: Tables, id: Id, caseId: Id) {
    id in events && id in w && w[id].caseId == caseId && Stripe(id) in t.events
  }

  ghost predicate CasesInv(w: World, events: set<Id>, t: Tables, u: Tables) {
    && u.cases.Keys == t.cases.Keys
    && (forall c | c in t.cases :: u.cases[c].owner == t.cases[c].owner && u.cases[c].deleted == t.cases[c].deleted)
    && (forall id, c | PaysFor(w, events, u, id, c) :: c in u.cases && u.cases[c].status == PaidUp)
    && (forall c | c in t.cases && u.cases[c].status != t.cases[c].status ::
          u.cases[c].status == PaidUp && exists id :: PaysFor(w, events, u, id, c))
  }

  ghost predicate RowsInv(w: World, events: set<Id>, t: Tables, u: Tables)
    requires Completed(w, events)
  {
    && (forall k | k in t.events :: k in u.events && u.events[k] == t.events[k])
    && (forall k | k in u.events && k !in t.events ::
          k.Stripe? && k.id in events && Applicable(t, w[k.id]) && u.events[k] == PaidRow(w[k.id]))
  }

  ghost predicate ProgressInv(w: World, events: set<Id>, s0: State, s: State)
    requires Completed(w, events)
  {
    && (forall id | id in s.acked && id in events :: Stripe(id) in s.db.events || !Applicable(s0.db, w[id]))
    && (forall job | job in s.jobs ::
          match s.jobs[job]
          case Received(event) => event in events
          case PastDuplicateCheck(event) => event in events
          case Verified(event) => event in events && w[event].caseId != "" && w[event].userId != ""
          case _ => false)
  }

  ghost predicate DeliveryInv(w: World, events: set<Id>, s0: State, s: State)
    requires Completed(w, events)
  {
    CasesInv(w, events, s0.db, s.db) && RowsInv(w, events, s0.db, s.db) && ProgressInv(w, events, s0, s)
  }

  lemma CommitKeepsCases(w: World, events: set<Id>, t: Tables, u: Tables, id: Id, fault: bool)
    requires Completed(w, events) && CasesInv(w, events, t, u) && id in events
    ensures CasesInv(w, events, t, CommitPayment(u, id, w[id], fault).0)
  {
    var v := CommitPayment(u, id, w[id], fault).0;
    if v != u {
      assert PaysFor(w, events, v, id, w[id].caseId);
      forall other, c | PaysFor(w, events, v, other, c)
        ensures c in v.cases && v.cases[c].status == PaidUp
      {
        assert other == id || PaysFor(w, events, u, other, c);
      }
      forall c | c in t.cases && v.cases[c].status != t.cases[c].status
        ensures v.cases[c].status == PaidUp && exists id :: PaysFor(w, events, v, id, c)
      {
        if c != w[id].caseId {
          var other :| PaysFor(w, events, u, other, c);
          assert PaysFor(w, events, v, other, c);
        }
      }
    }
  }

  lemma CommitKeepsRows(w: World, events: set<Id>, t: Tables, u: Tables, id: Id, fault: bool)
    requires Completed(w, events) && CasesInv(w, events, t, u) && RowsInv(w, events, t, u)
    requires id in events && w[id].caseId != "" && w[id].userId != ""
    ensures RowsInv(w, events, t, CommitPayment(u, id, w[id], fault).0)
    ensures var (v, reply) := CommitPayment(u, id, w[id], fault);
            reply == Acknowledged ==> Stripe(id) in v.events || !Applicable(t, w[id])
  {
  }

  lemma DeliveryStep(w: World, events: set<Id>, s0: State, s: State, a: Action)
    requires Completed(w, events) && DeliveryInv(w, events, s0, s) && Delivery(events, a)
    ensures DeliveryInv(w, events, s0, Step(w, s, a))
  {
    hide CasesInv, RowsInv;
    if a.CommitWebhook? && a.job in s.jobs && s.jobs[a.job].Verified? {
      var id := s.jobs[a.job].event;
      CommitKeepsCases(w, events, s0.db, s.db, id, a.fault);
      CommitKeepsRows(w, events, s0.db, s.db, id, a.fault);
    } else if a.CheckDuplicate? && a.job in s.jobs {
      hide CommitPayment;
    }
  }

  lemma {:induction false} DeliveriesKeep(w: World, events: set<Id>, s0: State, s: State, actions: seq<Action>)
    requires Completed(w, events) && DeliveryInv(w, events, s0, s)
    requires forall i | 0 <= i < |actions| :: Delivery(events, actions[i])
    ensures DeliveryInv(w, events, s0, Run(w, s, actions))
    decreases |actions|
  {
    if actions != [] {
      DeliveryStep(w, events, s0, s, actions[0]);
      DeliveriesKeep(w, events, s0, Step(w, s, actions[0]), actions[1..]);
    }
  }

  // ---- The common outcome, computed from the starting tables alone ----

  function SettledEvents(w: World, events: set<Id>, t: Tables): map<EventKey, Event>
    requires Completed(w, events)
  {
    t.events + map id | id in events && Applicable(t, w[id]) :: Stripe(id) := PaidRow(w[id])
  }

  predicate Settles(w: World, events: set<Id>, t: Tables, caseId: Id)
    requires Completed(w, events)
  {
    exists id | id in events :: Applicable(t, w[id]) && w[id].caseId == caseId
  }

  /** Once every event has been acknowledged at least once, the event table holds exactly one
      row per applicable event, and the cases paid are exactly those such an event names. */
  lemma WebhooksConverge(w: World, events: set<Id>, s: State, actions: seq<Action>)
    requires Start(w, events, s)
    requires forall i | 0 <= i < |actions| :: Delivery(events, actions[i])
    requires events <= Run(w, s, actions).acked
    ensures var u := Run(w, s, actions).db;
            && u.events == SettledEvents(w, events, s.db)
            && u.cases.Keys == s.db.cases.Keys
            && u.sessions == s.db.sessions && u.documents == s.db.documents
            && forall c | c in u.cases ::
                 u.cases[c].status == if Settles(w, events, s.db, c) then PaidUp else s.db.cases[c].status
  {
    hide CasesInv, RowsInv, ProgressInv, SettledEvents, Settles;
    var t := Run(w, s, actions);
    StartInv(w, events, s);
    DeliveriesKeep(w, events, s, s, actions);
    DeliveriesTouchOnlyPayments(w, events, s, actions);
    SettledRows(w, events, s, t);
    SettledCases(w, events, s, t);
  }

  lemma StartInv(w: World, events: set<Id>, s: State)
    requires Start(w, events, s)
    ensures DeliveryInv(w, events, s, s)
  {
  }

  lemma SettledRows(w: World, events: set<Id>, s: State, t: State)
    requires Start(w, events, s) && DeliveryInv(w, events, s, t) && events <= t.acked
    ensures t.db.events == SettledEvents(w, events, s.db)
  {
    hide CasesInv;
    var settled := SettledEvents(w, events, s.db);
    forall k
      ensures k in t.db.events <==> k in settled
      ensures k in settled ==> t.db.events[k] == settled[k]
    {
    }
  }

  lemma SettledCases(w: World, events: set<Id>, s: State, t: State)
    requires Start(w, events, s) && DeliveryInv(w, events, s, t) && events <= t.acked
    ensures t.db.cases.Keys == s.db.cases.Keys
    ensures forall c | c in t.db.cases ::
              t.db.cases[c].status == if Settles(w, events, s.db, c) then PaidUp else s.db.cases[c].status
  {
    forall id, c | PaysFor(w, events, t.db, id, c)
      ensures Settles(w, events, s.db, c)
    {
      assert Applicable(s.db, w[id]);
    }
    forall id | id in events && Applicable(s.db, w[id])
      ensures t.db.cases[w[id].caseId].status == PaidUp
    {
      assert PaysFor(w, events, t.db, id, w[id].caseId);
    }
  }

  lemma {:induction false} DeliveriesTouchOnlyPayments(w: World, events: set<Id>, s: State, actions: seq<Action>)
    requires forall i | 0 <= i < |actions| :: Delivery(events, actions[i])
    ensures Run(w, s, actions).db.sessions == s.db.sessions && Run(w, s, actions).db.documents == s.db.documents
    decreases |actions|
  {
    if actions != [] {
      DeliveriesTouchOnlyPayments(w, events, Step(w, s, actions[0]), actions[1..]);
    }
  }

  /** The acknowledgements convergence asks for are always within reach: from any state at all, an
      undisturbed redelivery is acknowledged. */
  lemma RedeliveryIsAcknowledged(w: World, s: State, id: Id, job: nat)
    requires id in w && job !in s.jobs
    ensures var early := [ReceiveWebhook(job, id), CheckDuplicate(job)];
            var late := [QueryStripe(job, Paid), CommitWebhook(job, false)];
            id in Run(w, s, early + late).acked
  {
    var early := [ReceiveWebhook(job, id), CheckDuplicate(job)];
    var late := [QueryStripe(job, Paid), CommitWebhook(job, false)];
    RunAppend(w, s, early, late);
    RunTwo(w, s, early[0], early[1]);
    var t := Run(w, s, early);
    RunTwo(w, t, late[0], late[1]);
    assert id in t.acked || (t.jobs[job] == PastDuplicateCheck(id) && Stripe(id) !in t.db.events);
  }

  /** What does depend on the order is the session linked to the case: the last payment wins. */
  lemma LinkedSessionDependsOnOrder(t: Tables, a: Id, b: Id, e: StripeEvent, f: StripeEvent)
    requires a != b && Stripe(a) !in t.events && Stripe(b) !in t.events
    requires OwnerMatches(t, e) && OwnerMatches(t, f) && e.caseId == f.caseId
    ensures var ab := CommitPayment(CommitPayment(t, a, e, false).0, b, f, false).0;
            var ba := CommitPayment(CommitPayment(t, b, f, false).0, a, e, false).0;
            ab.events == ba.events && (ab.cases == ba.cases <==> e.sessionId == f.sessionId)
  {
    var ab := CommitPayment(CommitPayment(t, a, e, false).0, b, f, false).0;
    var ba := CommitPayment(CommitPayment(t, b, f, false).0, a, e, false).0;
    assert ab.events == t.events[Stripe(a) := PaidRow(e)][Stripe(b) := PaidRow(f)];
    assert ba.events == t.events[Stripe(b) := PaidRow(f)][Stripe(a) := PaidRow(e)];
    assert ab.cases[e.caseId].stripeSession == f.sessionId && ba.cases[e.caseId].stripeSession == e.sessionId;
  }
}
