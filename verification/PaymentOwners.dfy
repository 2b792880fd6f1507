/** Who paid: the evidence for a paid case is in its owner's name, unless the deprecated webhook was
    delivered for somebody else. */
module PaymentOwners {
  import opened Wrappers
  import opened PaymentTables
  import opened PaymentProtocol

  /** A committed "paid" row names the case and its owner. */
  ghost predicate PaidByOwner(t: Tables, c: Id)
    requires c in t.cases
  {
    exists k | k in t.events :: EvidenceRow(t.events[k], c) && t.cases[c].owner == Some(t.events[k].userId)
  }

  /** Confirmation rows carry the user of their session. */
  ghost predicate ConfirmedByBuyer(t: Tables) {
    forall x | ConfirmedKey(x) in t.events ::
      x in t.sessions && t.events[ConfirmedKey(x)].userId == t.sessions[x].userId
      && EvidenceRow(t.events[ConfirmedKey(x)], t.sessions[x].caseId)
  }

  ghost predicate OwnersInv(t: Tables) {
    && ConfirmedByBuyer(t)
    && forall c | Unlocked(t, c) && t.cases[c].owner != None :: PaidByOwner(t, c)
  }

  /** The deprecated webhook does not update a case of another owner. */
  predicate Matched(w: World, t: Tables, a: Action) {
    a.LegacyDelivery? && a.event in w && !a.fault && LegacyUpdates(t, w[a.event]) ==>
      t.cases[w[a.event].caseId].owner == None || t.cases[w[a.event].caseId].owner == Some(w[a.event].userId)
  }

  ghost predicate MatchedRun(w: World, s: State, actions: seq<Action>)
    decreases |actions|
  {
    actions == [] || (Matched(w, s.db, actions[0]) && MatchedRun(w, Step(w, s, actions[0]), actions[1..]))
  }

  /** Rows and owners stay, so does the evidence. */
  lemma EvidenceStays(t: Tables, u: Tables, c: Id)
    requires Grows(t, u) && c in t.cases && PaidByOwner(t, c)
    ensures PaidByOwner(u, c)
  {
    var k :| k in t.events && EvidenceRow(t.events[k], c) && t.cases[c].owner == Some(t.events[k].userId);
    assert k in u.events && u.events[k] == t.events[k];
  }

  /** What a transaction has to show: its confirmation rows, and evidence for the case it unlocks. */
  lemma OwnersKept(t: Tables, u: Tables)
    requires OwnersInv(t) && Grows(t, u) && ConfirmedByBuyer(u)
    requires forall c | Unlocked(u, c) && !Unlocked(t, c) && u.cases[c].owner != None :: PaidByOwner(u, c)
    ensures OwnersInv(u)
  {
    forall c | Unlocked(u, c) && u.cases[c].owner != None ensures PaidByOwner(u, c) {
      if Unlocked(t, c) {
        EvidenceStays(t, u, c);
      }
    }
  }

  lemma CommitKeepsOwners(w: World, t: Tables, id: Id, e: StripeEvent, fault: bool)
    requires OwnersInv(t)
    ensures OwnersInv(CommitPayment(t, id, e, fault).0)
  {
    var u := CommitPayment(t, id, e, fault).0;
    CommitGrows(t, id, e, fault);
    if u != t {
      assert EvidenceRow(u.events[Stripe(id)], e.caseId);
      OwnersKept(t, u);
    }
  }

  lemma LegacyKeepsOwners(w: World, t: Tables, id: Id, fault: bool)
    requires OwnersInv(t) && EventsInv(w, t) && id in w && Matched(w, t, LegacyDelivery(id, fault))
    ensures OwnersInv(LegacyWebhook(t, id, w[id], fault))
  {
    var e := w[id];
    var u := LegacyWebhook(t, id, e, fault);
    LegacyGrows(t, id, e, fault);
    if !fault {
      assert u.events[Stripe(id)] == LegacyRow(e);
      OwnersKept(t, u);
    }
  }

  lemma ConfirmedRow(t: Tables, sessionId: Id, userId: Id)
    requires ConfirmedByBuyer(t)
    ensures var u := ConfirmTest(t, sessionId, userId).0;
            u != t ==>
              && sessionId in t.sessions && ConfirmedKey(sessionId) in u.events
              && u.events[ConfirmedKey(sessionId)].userId == userId
              && EvidenceRow(u.events[ConfirmedKey(sessionId)], t.sessions[sessionId].caseId)
  {
  }

  lemma ConfirmKeepsBuyers(t: Tables, sessionId: Id, userId: Id)
    requires ConfirmedByBuyer(t)
    ensures ConfirmedByBuyer(ConfirmTest(t, sessionId, userId).0)
  {
  }

  lemma ConfirmKeepsOwners(w: World, t: Tables, sessionId: Id, userId: Id)
    requires OwnersInv(t)
    ensures OwnersInv(ConfirmTest(t, sessionId, userId).0)
  {
    var u := ConfirmTest(t, sessionId, userId).0;
    ConfirmGrows(t, sessionId, userId);
    ConfirmKeepsBuyers(t, sessionId, userId);
    hide Grows, ConfirmedByBuyer;
    if u != t {
      var row := u.events[ConfirmedKey(sessionId)];
      assert row.userId == userId && EvidenceRow(row, t.sessions[sessionId].caseId) by {
        ConfirmedRow(t, sessionId, userId);
      }
      OwnersKept(t, u);
    }
  }

  lemma StoreSessionKeepsOwners(t: Tables, sessionId: Id, row: Session)
    requires OwnersInv(t) && sessionId !in t.sessions
    ensures OwnersInv(StoreSession(t, sessionId, row))
  {
    var u := StoreSession(t, sessionId, row);
    StoreSessionGrows(t, sessionId, row);
    OwnersKept(t, u);
  }

  lemma RestKeepsOwners(t: Tables, u: Tables)
    requires OwnersInv(t) && Grows(t, u) && u.events == t.events && u.sessions == t.sessions
    requires forall c | Unlocked(u, c) :: Unlocked(t, c)
    ensures OwnersInv(u)
  {
    OwnersKept(t, u);
  }

  /** Everything else leaves events, sessions and flags alone. */
  lemma OtherSteps(w: World, s: State, a: Action)
    requires !a.CommitWebhook? && !a.LegacyDelivery? && !a.Confirm? && !a.FinishSession?
    ensures var u := Step(w, s, a).db;
            u.events == s.db.events && u.sessions == s.db.sessions && forall c | Unlocked(u, c) :: Unlocked(s.db, c)
  {
    hide SaveBundle;
    if a.FinishBundle? {
      if a.job in s.jobs && s.jobs[a.job].Premium? && |a.ids| == |BUNDLE_COMPONENTS| {
        SaveBundleKeeps(s.db, s.jobs[a.job].caseId, a.ids, BUNDLE_COMPONENTS);
      }
    }
  }

  lemma StepKeepsOwners(w: World, s: State, a: Action)
    requires Inv(w, s) && OwnersInv(s.db) && Matched(w, s.db, a)
    ensures OwnersInv(Step(w, s, a).db)
  {
    hide OwnersInv, Grows, CommitPayment, LegacyWebhook, StoreSession, ConfirmTest, IsTestSession, SaveBundle;
    match a
    case CommitWebhook(job, fault) =>
      if job in s.jobs && s.jobs[job].Verified? && s.jobs[job].event in w {
        CommitKeepsOwners(w, s.db, s.jobs[job].event, w[s.jobs[job].event], fault);
      }
    case LegacyDelivery(event, fault) =>
      if event in w {
        LegacyKeepsOwners(w, s.db, event, fault);
      }
    case Confirm(_, sessionId, userId) => ConfirmKeepsOwners(w, s.db, sessionId, userId);
    case FinishSession(job) =>
      if job in s.jobs && s.jobs[job].Creating? {
        var Creating(caseId, userId, sessionId) := s.jobs[job];
        assert JobOk(w, s, s.jobs[job]);
        StoreSessionKeepsOwners(s.db, sessionId, Session(caseId, userId, Pending));
      }
    case _ =>
      OtherSteps(w, s, a);
      StepKeeps(w, s, a);
      RestKeepsOwners(s.db, Step(w, s, a).db);
  }

  lemma {:induction false} RunKeepsOwners(w: World, s: State, actions: seq<Action>)
    requires Inv(w, s) && OwnersInv(s.db) && MatchedRun(w, s, actions)
    ensures OwnersInv(Run(w, s, actions).db)
    decreases |actions|
  {
    if actions != [] {
      StepKeeps(w, s, actions[0]);
      StepKeepsOwners(w, s, actions[0]);
      RunKeepsOwners(w, Step(w, s, actions[0]), actions[1..]);
    }
  }

  /** In every run in which the deprecated webhook updates no case of another owner, a paid case with an
      owner has a committed "paid" row in that owner's name. */
  lemma PaidCasesArePaidByTheirOwners(w: World, s: State, actions: seq<Action>, c: Id)
    requires Initial(s) && MatchedRun(w, s, actions)
    ensures var t := Run(w, s, actions).db;
            Unlocked(t, c) && t.cases[c].owner != None ==> PaidByOwner(t, c)
  {
    InitialInv(w, s);
    RunKeepsOwners(w, s, actions);
  }

  /** The condition is needed: from any state, a mismatched delivery unlocks its case and pays for no case
      in its owner's name. The case is left paid by its owner if and only if it was so before. */
  lemma MismatchedDeliveryPays(w: World, s: State, event: Id)
    requires event in w && !Matched(w, s.db, LegacyDelivery(event, false))
    ensures var t := Step(w, s, LegacyDelivery(event, false)).db;
            && Unlocked(t, w[event].caseId)
            && forall c | c in s.db.cases :: c in t.cases && (PaidByOwner(t, c) <==> PaidByOwner(s.db, c))
  {
    var before, t := s.db, Step(w, s, LegacyDelivery(event, false)).db;
    LegacyGrows(before, event, w[event], false);
    forall c | c in before.cases ensures c in t.cases && (PaidByOwner(t, c) <==> PaidByOwner(before, c)) {
      if PaidByOwner(before, c) {
        EvidenceStays(before, t, c);
      } else if PaidByOwner(t, c) {
        NoNewEvidence(w, before, event, c);
      }
    }
  }

  lemma NoNewEvidence(w: World, t: Tables, event: Id, c: Id)
    requires event in w && !Matched(w, t, LegacyDelivery(event, false)) && c in t.cases
    requires var u := LegacyWebhook(t, event, w[event], false); c in u.cases && PaidByOwner(u, c)
    ensures PaidByOwner(t, c)
  {
    var u := LegacyWebhook(t, event, w[event], false);
    var k :| k in u.events && EvidenceRow(u.events[k], c) && u.cases[c].owner == Some(u.events[k].userId);
    assert k in t.events && t.events[k] == u.events[k];
  }
}
