/** The system as it is deployed: one outbox worker, which takes up unpublished events only,
    and at most one payment confirmation in flight per invoice payload. Serial execution is
    the special case with one run at a time. */
module Orderly {
  import opened Text
  import opened Domain
  import opened Tables
  import opened Protocol
  import opened Invariants
  import opened Effects

  predicate ConfirmsPayload(r: Run, payload: string) {
    r.Confirm? && r.confirm.ev.payload == payload
  }

  predicate Open(db: Db, eventId: string) {
    forall i | 0 <= i < |db.outbox| && db.outbox[i].id == eventId :: !db.outbox[i].published
  }

  ghost predicate Allowed(s: Sys, l: Label) {
    match l
    case Spawn(_, Issue(LoadPurchase(e, _))) =>
      Open(s.w.db, e) && forall j | j in s.runs :: !s.runs[j].Issue?
    case Spawn(_, Confirm(CheckKey(ev))) =>
      forall j | j in s.runs :: !ConfirmsPayload(s.runs[j], ev.payload)
    case _ => true
  }

  ghost predicate IsOrderly(cfg: Config, s: Sys, ls: seq<Label>)
    decreases |ls|
  {
    ls == [] || (Allowed(s, ls[0]) && IsOrderly(cfg, Step(cfg, s, ls[0]), ls[1..]))
  }

  // ---------- the stronger invariants ----------

  ghost predicate OneWorker(s: Sys) {
    forall a, b | a in s.runs && b in s.runs && s.runs[a].Issue? && s.runs[b].Issue? :: a == b
  }

  ghost predicate OneConfirm(s: Sys) {
    forall a, b | a in s.runs && b in s.runs && s.runs[a].Confirm? && s.runs[b].Confirm?
                  && s.runs[a].confirm.ev.payload == s.runs[b].confirm.ev.payload :: a == b
  }

  predicate Logged(db: Db, ev: Event) {
    ev.chargeId in db.payments && db.payments[ev.chargeId].payload == ev.payload
  }

  /** The purchase's own charge is in the payment log, under the purchase's invoice. */
  predicate PaymentOf(db: Db, id: string) {
    && id in db.purchases && db.purchases[id].chargeId in db.payments
    && db.payments[db.purchases[id].chargeId].payload == db.purchases[id].payload
  }

  ghost predicate Delivered(w: World, id: string) {
    exists i :: 0 <= i < |w.sent| && w.sent[i].purchaseId == id && w.sent[i].delivered
  }

  /** The purchase has its grant, its link went out, and it says so. */
  ghost predicate Completed(w: World, id: string) {
    && id in w.db.purchases && w.db.purchases[id].status == AccessIssued
    && HasGrant(w.db, w.db.purchases[id]) && Delivered(w, id)
  }

  predicate Fresh(db: Db, p: Purchase) {
    p.id in db.purchases && db.purchases[p.id] == p
  }

  ghost predicate ConfirmX(db: Db, r: ConfirmRun) {
    match r
    case CheckKey(_) => true
    case FindPurchase(_) => true
    case StorePaid(ev, p) =>
      && p.id in db.purchases && db.purchases[p.id].status == Pending && !InOutbox(db, p.id)
      && p == db.purchases[p.id].(status := Paid, chargeId := p.chargeId, paidAt := p.paidAt)
    case LogEvent(ev, p) => Fresh(db, p) && !InOutbox(db, p.id)
    case Publish(ev, p) => Fresh(db, p) && !InOutbox(db, p.id) && Logged(db, ev)
    case StoreKey(ev, p) => p.id in db.purchases && db.purchases[p.id].chargeId == ev.chargeId
  }

  predicate FailureOf(row: Purchase, p: Purchase) {
    && p.attempts == row.attempts + 1 && p.chargeId == row.chargeId && p.paidAt == row.paidAt
    && (p.status == row.status || p.status == Error)
  }

  ghost predicate IssueX(w: World, r: IssueRun) {
    && Open(w.db, r.eventId)
    && match r
       case LoadPurchase(_, _) => true
       case StoreFailure(_, p) => p.id in w.db.purchases && FailureOf(w.db.purchases[p.id], p)
       case StoreIssued(_, p, _, _, _) =>
         && p.id in w.db.purchases && w.db.purchases[p.id].status == Paid
         && p == w.db.purchases[p.id].(status := AccessIssued)
       case FlagEvent(_, p) => Completed(w, p.id)
       case _ => Fresh(w.db, r.copy)
  }

  ghost predicate RunX(w: World, r: Run) {
    match r
    case Confirm(f) => ConfirmX(w.db, f)
    case Issue(i) => IssueX(w, i)
    case _ => true
  }

  ghost predicate RunsX(s: Sys) {
    forall k | k in s.runs :: RunX(s.w, s.runs[k])
  }

  ghost predicate PublishedOnce(db: Db) {
    forall i, j | 0 <= i < |db.outbox| && 0 <= j < |db.outbox|
                  && db.outbox[i].purchaseId == db.outbox[j].purchaseId :: i == j
  }

  predicate OutboxLogged(db: Db) {
    forall i | 0 <= i < |db.outbox| :: PaymentOf(db, db.outbox[i].purchaseId)
  }

  predicate Holds(db: Db, id: string, charge: string) {
    Settled(db, id) && db.purchases[id].chargeId == charge
  }

  ghost predicate PaymentsHeld(db: Db) {
    forall c | c in db.payments ::
      exists id :: Holds(db, id, c) && db.purchases[id].payload == db.payments[c].payload
  }

  ghost predicate KeysHeld(db: Db) {
    forall c | c in db.processed :: exists id :: Holds(db, id, c) && InOutbox(db, id)
  }

  ghost predicate PublishedDone(w: World) {
    forall i | 0 <= i < |w.db.outbox| && w.db.outbox[i].published :: Completed(w, w.db.outbox[i].purchaseId)
  }

  ghost predicate TablesX(w: World) {
    && PublishedOnce(w.db) && OutboxLogged(w.db) && PaymentsHeld(w.db) && KeysHeld(w.db) && PublishedDone(w)
  }

  ghost predicate OrderlyOk(cfg: Config, s: Sys) {
    BaseOk(cfg, s) && OneWorker(s) && OneConfirm(s) && RunsX(s) && TablesX(s.w)
  }

  // ---------- how a row may change ----------

  predicate RowMoves(a: Purchase, b: Purchase) {
    && (a.status == b.status || StatusEdge(a.status, b.status))
    && (a.status != Pending ==> b.chargeId == a.chargeId && b.paidAt == a.paidAt)
    && a.attempts <= b.attempts
  }

  ghost predicate RowsMove(a: Db, b: Db) {
    forall id | id in a.purchases :: id in b.purchases && RowMoves(a.purchases[id], b.purchases[id])
  }

  lemma StepRowsMove(cfg: Config, w: World, r: Run, n: Next)
    requires PurchasesOk(cfg, w.db) && RunOk(cfg, w.db, r) && RunX(w, r) && RowEffect(w.db, r, n.w.db)
    ensures RowsMove(w.db, n.w.db)
  {
    if r.Issue? && (r.issue.StoreFailure? || r.issue.StoreIssued?) {
      assert r.issue.copy.status != Pending;
    }
  }

  // ---------- the run itself ----------

  lemma FindPurchaseX(cfg: Config, w: World, ev: Event, c: Choice)
    requires PurchasesOk(cfg, w.db) && OutboxOk(w.db)
    ensures var n := ConfirmStep(w, FindPurchase(ev), c); RunX(n.w, n.run)
  {
    if FindByPayload(w.db, ev.payload).Some? {
      FindByPayloadOk(w.db, ev.payload);
    }
  }

  lemma StorePaidX(w: World, ev: Event, p: Purchase, c: Choice)
    requires p.id in w.db.purchases && !InOutbox(w.db, p.id)
    ensures var n := ConfirmStep(w, StorePaid(ev, p), c); RunX(n.w, n.run)
  {
    var n := ConfirmStep(w, StorePaid(ev, p), c);
    ConfirmEffect(w, StorePaid(ev, p), c);
    OutboxPurchases(w.db, Confirm(StorePaid(ev, p)), n.w.db, p.id);
  }

  lemma LogEventX(cfg: Config, w: World, ev: Event, p: Purchase, c: Choice)
    requires ChargesUnique(w.db) && PaymentsHeld(w.db) && ConfirmX(w.db, LogEvent(ev, p))
    requires p.status == Paid && p.chargeId == ev.chargeId && p.payload == ev.payload && p.chargeId != ""
    ensures var n := ConfirmStep(w, LogEvent(ev, p), c); RunX(n.w, n.run)
  {
    var n := ConfirmStep(w, LogEvent(ev, p), c);
    ConfirmEffect(w, LogEvent(ev, p), c);
    OutboxPurchases(w.db, Confirm(LogEvent(ev, p)), n.w.db, p.id);
    LogAgrees(cfg, w.db, ev, p);
  }

  lemma OtherConfirmX(cfg: Config, w: World, r: ConfirmRun, c: Choice)
    requires ConfirmOk(cfg, w.db, r) && ConfirmX(w.db, r) && (r.CheckKey? || r.Publish? || r.StoreKey?)
    ensures var n := ConfirmStep(w, r, c); RunX(n.w, n.run)
  {
  }

  lemma NextConfirmX(cfg: Config, w: World, r: ConfirmRun, c: Choice)
    requires WorldOk(cfg, w) && ConfirmOk(cfg, w.db, r) && ConfirmX(w.db, r) && PaymentsHeld(w.db)
    ensures var n := ConfirmStep(w, r, c); RunX(n.w, n.run)
  {
    match r
    case FindPurchase(ev) => FindPurchaseX(cfg, w, ev, c);
    case StorePaid(ev, p) => StorePaidX(w, ev, p, c);
    case LogEvent(ev, p) => LogEventX(cfg, w, ev, p, c);
    case _ => OtherConfirmX(cfg, w, r, c);
  }

  /** A charge that is logged already was logged for the invoice of the purchase holding it. */
  lemma LogAgrees(cfg: Config, db: Db, ev: Event, p: Purchase)
    requires ChargesUnique(db) && PaymentsHeld(db) && Fresh(db, p)
    requires p.status == Paid && p.chargeId == ev.chargeId && p.payload == ev.payload && p.chargeId != ""
    ensures Logged(LogPayment(db, ev), ev)
  {
    if ev.chargeId in db.payments {
      var id :| Holds(db, id, ev.chargeId) && db.purchases[id].payload == db.payments[ev.chargeId].payload;
      assert id == p.id;
    }
  }

  lemma SendLinkX(cfg: Config, w: World, r: IssueRun, c: Choice)
    requires IssueOk(cfg, w.db, r) && IssueX(w, r) && r.SendLink?
    ensures var n := IssueStep(cfg, w, r, c); RunX(n.w, n.run)
  {
    var n := IssueStep(cfg, w, r, c);
    assert n.w.sent[|w.sent|].purchaseId == r.copy.id && n.w.sent[|w.sent|].delivered == c.outcome.Served?;
  }

  lemma LoadPurchaseX(cfg: Config, w: World, r: IssueRun, c: Choice)
    requires PurchasesOk(cfg, w.db) && OutboxOk(w.db) && IssueOk(cfg, w.db, r) && IssueX(w, r) && r.LoadPurchase?
    ensures var n := IssueStep(cfg, w, r, c); RunX(n.w, n.run)
  {
    EventForSettled(cfg, w.db, r.eventId, r.purchaseId);
  }

  lemma StoreIssuedX(cfg: Config, w: World, r: IssueRun, c: Choice)
    requires IssueX(w, r) && r.StoreIssued?
    ensures var n := IssueStep(cfg, w, r, c); RunX(n.w, n.run)
  {
  }

  /** The steps of an issue run that write no purchase, and the one that stores a failure and ends. */
  lemma OtherIssueX(cfg: Config, w: World, r: IssueRun, c: Choice)
    requires IssueX(w, r) && !r.LoadPurchase? && !r.StoreIssued? && !r.SendLink?
    ensures var n := IssueStep(cfg, w, r, c); RunX(n.w, n.run)
  {
  }

  lemma NextIssueX(cfg: Config, w: World, r: IssueRun, c: Choice)
    requires PurchasesOk(cfg, w.db) && OutboxOk(w.db) && IssueOk(cfg, w.db, r) && IssueX(w, r)
    ensures var n := IssueStep(cfg, w, r, c); RunX(n.w, n.run)
  {
    if r.LoadPurchase? {
      LoadPurchaseX(cfg, w, r, c);
    } else if r.SendLink? {
      SendLinkX(cfg, w, r, c);
    } else if r.StoreIssued? {
      StoreIssuedX(cfg, w, r, c);
    } else {
      OtherIssueX(cfg, w, r, c);
    }
  }

  lemma NextOtherX(cfg: Config, w: World, r: Run, c: Choice)
    requires !r.Confirm? && !r.Issue?
    ensures var n := RunStep(cfg, w, r, c); RunX(n.w, n.run) == true
  {
    KindKept(cfg, w, r, c);
  }

  lemma NextRunX(cfg: Config, w: World, r: Run, c: Choice)
    requires WorldOk(cfg, w) && RunOk(cfg, w.db, r) && RunX(w, r) && PaymentsHeld(w.db)
    ensures var n := RunStep(cfg, w, r, c); RunX(n.w, n.run) == true
  {
    match r
    case Confirm(f) => NextConfirmX(cfg, w, f, c);
    case Issue(i) => NextIssueX(cfg, w, i, c);
    case _ => NextOtherX(cfg, w, r, c);
  }

  // ---------- the other runs ----------

  lemma CompletedKept(a: World, b: World, id: string)
    requires Completed(a, id) && Kept(a, b) && id in b.db.purchases && b.db.purchases[id] == a.db.purchases[id]
    ensures Completed(b, id)
  {
    var i :| 0 <= i < |a.sent| && a.sent[i].purchaseId == id && a.sent[i].delivered;
    assert b.sent[i].purchaseId == id && b.sent[i].delivered;
  }

  /** A purchase that is not in the outbox: only the confirm run that has it in hand writes its row. */
  lemma UnlistedRow(cfg: Config, w: World, r: Run, n: Next, q: ConfirmRun)
    requires RunOk(cfg, w.db, r) && ConfirmOk(cfg, w.db, q) && RowEffect(w.db, r, n.w.db)
    requires (q.StorePaid? || q.LogEvent? || q.Publish?) && !ConfirmsPayload(r, q.ev.payload)
    requires !InOutbox(w.db, q.copy.id)
    ensures var id := q.copy.id;
            id in w.db.purchases && id in n.w.db.purchases && n.w.db.purchases[id] == w.db.purchases[id]
  {
    if r.Issue? && !r.issue.LoadPurchase? {
      EventForInOutbox(w.db, r.issue.eventId, r.issue.copy.id);
    }
  }

  /** The purchase whose row a confirm run still relies on, with nothing in the outbox for it. */
  lemma ConfirmUndisturbed(cfg: Config, w: World, r: Run, n: Next, q: ConfirmRun)
    requires RunOk(cfg, w.db, r) && RunX(w, r) && ConfirmOk(cfg, w.db, q) && ConfirmX(w.db, q)
    requires !ConfirmsPayload(r, q.ev.payload)
    requires RowEffect(w.db, r, n.w.db) && OutboxEffect(w.db, r, n.w.db)
    requires PaymentsKept(w.db, n.w.db) && RowsMove(w.db, n.w.db)
    ensures ConfirmX(n.w.db, q)
  {
    if q.StorePaid? || q.LogEvent? || q.Publish? {
      UnlistedRow(cfg, w, r, n, q);
      OutboxPurchases(w.db, r, n.w.db, q.copy.id);
    }
  }

  lemma OpenKept(a: Db, r: Run, b: Db, e: string)
    requires Open(a, e) && OutboxEffect(a, r, b) && !(r.Issue? && r.issue.FlagEvent?)
    ensures Open(b, e)
  {
    forall i | 0 <= i < |b.outbox| && b.outbox[i].id == e
      ensures !b.outbox[i].published
    {
      assert i < |a.outbox| ==> b.outbox[i] == a.outbox[i];
    }
  }

  lemma IssueUndisturbed(cfg: Config, w: World, r: Run, n: Next, q: IssueRun)
    requires OutboxOk(w.db) && RunX(w, r) && IssueOk(cfg, w.db, q) && IssueX(w, q) && !r.Issue?
    requires RowEffect(w.db, r, n.w.db) && OutboxEffect(w.db, r, n.w.db) && Kept(w, n.w)
    ensures IssueX(n.w, q)
  {
    OpenKept(w.db, r, n.w.db, q.eventId);
    if !q.LoadPurchase? {
      EventForSettled(cfg, w.db, q.eventId, q.copy.id);
      assert n.w.db.purchases[q.copy.id] == w.db.purchases[q.copy.id];
      if q.FlagEvent? {
        CompletedKept(w, n.w, q.copy.id);
      }
    }
  }

  /** The frame of a step, without the catalog. */
  ghost predicate LifecycleEffect(a: Db, r: Run, b: Db) {
    RowEffect(a, r, b) && OutboxEffect(a, r, b) && PaymentEffect(a, r, b)
  }

  lemma RunUndisturbed(cfg: Config, w: World, r: Run, n: Next, q: Run)
    requires WorldOk(cfg, w) && RunOk(cfg, w.db, r) && RunX(w, r) && RunOk(cfg, w.db, q) && RunX(w, q)
    requires LifecycleEffect(w.db, r, n.w.db) && Kept(w, n.w) && RowsMove(w.db, n.w.db)
    requires !(r.Issue? && q.Issue?) && !(q.Confirm? && ConfirmsPayload(r, q.confirm.ev.payload))
    ensures RunX(n.w, q)
  {
    match q
    case Confirm(f) => ConfirmUndisturbed(cfg, w, r, n, f);
    case Issue(i) => IssueUndisturbed(cfg, w, r, n, i);
    case _ =>
  }

  // ---------- the tables ----------

  lemma NextPublishedOnce(w: World, r: Run, n: Next)
    requires PublishedOnce(w.db) && RunX(w, r) && OutboxEffect(w.db, r, n.w.db)
    ensures PublishedOnce(n.w.db)
  {
    if r.Confirm? && r.confirm.Publish? {
      forall i | 0 <= i < |w.db.outbox|
        ensures w.db.outbox[i].purchaseId != r.confirm.copy.id
      {
        if w.db.outbox[i].purchaseId == r.confirm.copy.id {
          assert InOutbox(w.db, r.confirm.copy.id);
        }
      }
    }
  }

  lemma PaymentOfKept(cfg: Config, a: Db, b: Db, id: string)
    requires PaymentOf(a, id) && Settled(a, id) && PurchasesKept(a, b) && PaymentsKept(a, b) && RowsMove(a, b)
    ensures PaymentOf(b, id)
  {
    assert RowMoves(a.purchases[id], b.purchases[id]);
    assert SameIdentity(a.purchases[id], b.purchases[id]);
  }

  lemma NextOutboxLogged(cfg: Config, w: World, r: Run, n: Next)
    requires OutboxLogged(w.db) && OutboxOk(w.db) && RunOk(cfg, w.db, r) && RunX(w, r)
    requires OutboxEffect(w.db, r, n.w.db) && RowEffect(w.db, r, n.w.db) && Kept(w, n.w) && RowsMove(w.db, n.w.db)
    ensures OutboxLogged(n.w.db)
  {
    forall i | 0 <= i < |n.w.db.outbox|
      ensures PaymentOf(n.w.db, n.w.db.outbox[i].purchaseId)
    {
      var id := n.w.db.outbox[i].purchaseId;
      if i < |w.db.outbox| {
        assert w.db.outbox[i].purchaseId == id;
        PaymentOfKept(cfg, w.db, n.w.db, id);
      } else {
        assert PaymentOf(w.db, id);
        PaymentOfKept(cfg, w.db, n.w.db, id);
      }
    }
  }

  lemma HoldsKept(a: Db, b: Db, id: string, charge: string)
    requires Holds(a, id, charge) && PurchasesKept(a, b) && RowsMove(a, b)
    ensures Holds(b, id, charge) && b.purchases[id].payload == a.purchases[id].payload
  {
    assert RowMoves(a.purchases[id], b.purchases[id]);
    assert SameIdentity(a.purchases[id], b.purchases[id]);
  }

  lemma NextPaymentsHeld(cfg: Config, w: World, r: Run, n: Next)
    requires PaymentsHeld(w.db) && RunOk(cfg, w.db, r) && RunX(w, r)
    requires PaymentEffect(w.db, r, n.w.db) && Kept(w, n.w) && RowsMove(w.db, n.w.db)
    ensures PaymentsHeld(n.w.db)
  {
    forall c | c in n.w.db.payments
      ensures exists id :: Holds(n.w.db, id, c) && n.w.db.purchases[id].payload == n.w.db.payments[c].payload
    {
      if c in w.db.payments {
        var id :| Holds(w.db, id, c) && w.db.purchases[id].payload == w.db.payments[c].payload;
        HoldsKept(w.db, n.w.db, id, c);
      } else {
        HoldsKept(w.db, n.w.db, r.confirm.copy.id, c);
      }
    }
  }

  lemma NextKeysHeld(cfg: Config, w: World, r: Run, n: Next)
    requires KeysHeld(w.db) && RunOk(cfg, w.db, r) && RunX(w, r)
    requires PaymentEffect(w.db, r, n.w.db) && Kept(w, n.w) && RowsMove(w.db, n.w.db)
    ensures KeysHeld(n.w.db)
  {
    forall c | c in n.w.db.processed
      ensures exists id :: Holds(n.w.db, id, c) && InOutbox(n.w.db, id)
    {
      var id: string;
      if c in w.db.processed {
        id :| Holds(w.db, id, c) && InOutbox(w.db, id);
      } else {
        id := r.confirm.copy.id;
      }
      HoldsKept(w.db, n.w.db, id, c);
      InOutboxKept(w.db, n.w.db, id);
    }
  }

  /** Nothing writes the row of a purchase whose event is published. */
  lemma PublishedRowStays(cfg: Config, w: World, r: Run, n: Next, i: nat)
    requires PublishedOnce(w.db) && PublishedDone(w) && RunOk(cfg, w.db, r) && RunX(w, r) && RowEffect(w.db, r, n.w.db)
    requires i < |w.db.outbox| && w.db.outbox[i].published
    ensures var id := w.db.outbox[i].purchaseId;
            id in w.db.purchases && id in n.w.db.purchases && n.w.db.purchases[id] == w.db.purchases[id]
  {
    assert Completed(w, w.db.outbox[i].purchaseId);
    if r.Issue? && (r.issue.StoreFailure? || r.issue.StoreIssued?) {
      var j :| 0 <= j < |w.db.outbox| && w.db.outbox[j].id == r.issue.eventId
               && w.db.outbox[j].purchaseId == r.issue.copy.id;
      assert !w.db.outbox[j].published;
    }
  }

  lemma NextPublishedDone(cfg: Config, w: World, r: Run, n: Next)
    requires EventIdsUnique(w.db) && PublishedOnce(w.db) && PublishedDone(w) && RunOk(cfg, w.db, r) && RunX(w, r)
    requires RowEffect(w.db, r, n.w.db) && OutboxEffect(w.db, r, n.w.db) && Kept(w, n.w)
    ensures PublishedDone(n.w)
  {
    forall i | 0 <= i < |n.w.db.outbox| && n.w.db.outbox[i].published
      ensures Completed(n.w, n.w.db.outbox[i].purchaseId)
    {
      var id := n.w.db.outbox[i].purchaseId;
      if i < |w.db.outbox| && w.db.outbox[i].published {
        PublishedRowStays(cfg, w, r, n, i);
        CompletedKept(w, n.w, id);
      } else {
        FlaggedCompleted(cfg, w, r, n, i);
        CompletedKept(w, n.w, id);
      }
    }
  }

  lemma FlaggedCompleted(cfg: Config, w: World, r: Run, n: Next, i: nat)
    requires EventIdsUnique(w.db) && RunOk(cfg, w.db, r) && RunX(w, r)
    requires RowEffect(w.db, r, n.w.db) && OutboxEffect(w.db, r, n.w.db)
    requires i < |n.w.db.outbox| && n.w.db.outbox[i].published && (i >= |w.db.outbox| || !w.db.outbox[i].published)
    ensures var id := n.w.db.outbox[i].purchaseId;
            Completed(w, id) && id in n.w.db.purchases && n.w.db.purchases[id] == w.db.purchases[id]
  {
    assert r.Issue? && r.issue.FlagEvent?;
    var j :| 0 <= j < |w.db.outbox| && w.db.outbox[j].id == r.issue.eventId
             && w.db.outbox[j].purchaseId == r.issue.copy.id;
    assert i == j;
  }

  lemma NextTablesX(cfg: Config, w: World, r: Run, n: Next)
    requires WorldOk(cfg, w) && TablesX(w) && RunOk(cfg, w.db, r) && RunX(w, r)
    requires LifecycleEffect(w.db, r, n.w.db) && Kept(w, n.w) && RowsMove(w.db, n.w.db)
    ensures TablesX(n.w) == true
  {
    NextPublishedOnce(w, r, n);
    NextOutboxLogged(cfg, w, r, n);
    NextPaymentsHeld(cfg, w, r, n);
    NextKeysHeld(cfg, w, r, n);
    NextPublishedDone(cfg, w, r, n);
  }

  // ---------- one label ----------

  lemma KindKept(cfg: Config, w: World, r: Run, c: Choice)
    ensures var n := RunStep(cfg, w, r, c).run;
            && (n.Issue? ==> r.Issue?)
            && (n.Confirm? ==> r.Confirm? && n.confirm.ev == r.confirm.ev)
  {
  }

  lemma AdvanceKinds(cfg: Config, s: Sys, k: nat, c: Choice, n: Next, t: Sys)
    requires OneWorker(s) && OneConfirm(s) && k in s.runs
    requires n == RunStep(cfg, s.w, s.runs[k], c) && t.runs == s.runs[k := n.run]
    ensures OneWorker(t) == true && OneConfirm(t) == true
  {
    KindKept(cfg, s.w, s.runs[k], c);
  }

  lemma OthersUndisturbed(cfg: Config, s: Sys, k: nat, n: Next)
    requires WorldOk(cfg, s.w) && RunsOk(cfg, s) && RunsX(s) && OneWorker(s) && OneConfirm(s) && k in s.runs
    requires Effect(s.w, s.runs[k], n) && Kept(s.w, n.w) && RowsMove(s.w.db, n.w.db)
    ensures forall j | j in s.runs && j != k :: RunX(n.w, s.runs[j])
  {
    forall j | j in s.runs && j != k
      ensures RunX(n.w, s.runs[j])
    {
      RunUndisturbed(cfg, s.w, s.runs[k], n, s.runs[j]);
    }
  }

  lemma AdvanceRuns(cfg: Config, s: Sys, k: nat, c: Choice, n: Next, t: Sys)
    requires WorldOk(cfg, s.w) && RunsOk(cfg, s) && RunsX(s) && OneWorker(s) && OneConfirm(s) && TablesX(s.w)
    requires k in s.runs
    requires n == RunStep(cfg, s.w, s.runs[k], c) && t.w == n.w && t.runs == s.runs[k := n.run] && Kept(s.w, n.w)
    ensures OneWorker(t) && OneConfirm(t) && RunsX(t) && TablesX(t.w) == true && RowsMove(s.w.db, t.w.db)
  {
    var r := s.runs[k];
    StepEffect(cfg, s.w, r, c);
    StepRowsMove(cfg, s.w, r, n);
    NextRunX(cfg, s.w, r, c);
    NextTablesX(cfg, s.w, r, n);
    AdvanceKinds(cfg, s, k, c, n, t);
    OthersUndisturbed(cfg, s, k, n);
  }

  lemma AdvanceOrderly(cfg: Config, s: Sys, k: nat, c: Choice)
    requires OrderlyOk(cfg, s) && k in s.runs
    ensures var t := Step(cfg, s, Advance(k, c)); OrderlyOk(cfg, t) && RowsMove(s.w.db, t.w.db)
  {
    AdvanceKeeps(cfg, s, k, c);
    AdvanceRuns(cfg, s, k, c, RunStep(cfg, s.w, s.runs[k], c), Step(cfg, s, Advance(k, c)));
  }

  /** Editing the catalog touches nothing these invariants speak of. */
  lemma EditRuns(cfg: Config, s: Sys, t: Sys)
    requires WorldOk(cfg, s.w) && RunsOk(cfg, s) && RunsX(s) && TablesX(s.w)
    requires t.runs == s.runs && t.w == s.w.(db := s.w.db.(contents := t.w.db.contents)) && Kept(s.w, t.w)
    ensures RunsX(t) && TablesX(t.w)
  {
    var n := Next(t.w, Ended(Accepted));
    EditEffect(s.w, n);
    NextTablesX(cfg, s.w, n.run, n);
    forall j | j in s.runs
      ensures RunX(t.w, s.runs[j])
    {
      RunUndisturbed(cfg, s.w, n.run, n, s.runs[j]);
    }
  }

  /** As far as these invariants go, an edit is a step of a run that does nothing. */
  lemma EditEffect(w: World, n: Next)
    requires n.w == w.(db := w.db.(contents := n.w.db.contents)) && n.run.Ended?
    ensures LifecycleEffect(w.db, n.run, n.w.db) && RowsMove(w.db, n.w.db) && RunX(w, n.run)
  {
  }

  lemma EditOrderly(cfg: Config, s: Sys, id: string, row: Option<Content>)
    requires OrderlyOk(cfg, s)
    ensures OrderlyOk(cfg, Step(cfg, s, Edit(id, row)))
  {
    StepKeeps(cfg, s, Edit(id, row));
    EditRuns(cfg, s, Step(cfg, s, Edit(id, row)));
  }

  lemma SpawnKinds(s: Sys, k: nat, r: Run)
    requires OneWorker(s) && OneConfirm(s) && Allowed(s, Spawn(k, r)) && Spawnable(s.w, r) && k !in s.runs
    ensures OneWorker(s.(runs := s.runs[k := r])) && OneConfirm(s.(runs := s.runs[k := r]))
  {
  }

  lemma SpawnRuns(s: Sys, k: nat, r: Run)
    requires RunsX(s) && Allowed(s, Spawn(k, r)) && Spawnable(s.w, r)
    ensures RunsX(s.(runs := s.runs[k := r]))
  {
  }

  lemma SpawnOrderly(cfg: Config, s: Sys, k: nat, r: Run)
    requires OrderlyOk(cfg, s) && Allowed(s, Spawn(k, r))
    ensures OrderlyOk(cfg, Step(cfg, s, Spawn(k, r)))
  {
    StepKeeps(cfg, s, Spawn(k, r));
    if k !in s.runs && Spawnable(s.w, r) {
      SpawnKinds(s, k, r);
      SpawnRuns(s, k, r);
    }
  }

  lemma DropOrderly(cfg: Config, s: Sys, k: nat)
    requires OrderlyOk(cfg, s)
    ensures OrderlyOk(cfg, Step(cfg, s, Drop(k)))
  {
    var t := Step(cfg, s, Drop(k));
    StepKeeps(cfg, s, Drop(k));
    assert OneWorker(t) && OneConfirm(t) && RunsX(t);
  }

  lemma EvictRuns(s: Sys, t: Sys)
    requires RunsX(s) && TablesX(s.w) && t.w == s.w.(cache := t.w.cache) && t.runs == s.runs
    ensures RunsX(t) && PublishedDone(t.w)
  {
    forall i | 0 <= i < |s.w.db.outbox| && s.w.db.outbox[i].published
      ensures Completed(t.w, s.w.db.outbox[i].purchaseId)
    {
      assert Completed(s.w, s.w.db.outbox[i].purchaseId);
    }
    forall j | j in s.runs
      ensures RunX(t.w, s.runs[j])
    {
      assert RunX(s.w, s.runs[j]);
    }
  }

  lemma EvictOrderly(cfg: Config, s: Sys, hashes: set<string>)
    requires OrderlyOk(cfg, s)
    ensures OrderlyOk(cfg, Step(cfg, s, Evict(hashes)))
  {
    StepKeeps(cfg, s, Evict(hashes));
    EvictRuns(s, Step(cfg, s, Evict(hashes)));
  }

  lemma RowsMoveReflexive(db: Db)
    ensures RowsMove(db, db)
  {
  }

  lemma StepOrderly(cfg: Config, s: Sys, l: Label)
    requires OrderlyOk(cfg, s) && Allowed(s, l)
    ensures OrderlyOk(cfg, Step(cfg, s, l)) && RowsMove(s.w.db, Step(cfg, s, l).w.db)
  {
    RowsMoveReflexive(s.w.db);
    match l
    case Spawn(k, r) => SpawnOrderly(cfg, s, k, r);
    case Advance(k, c) =>
      if k in s.runs {
        AdvanceOrderly(cfg, s, k, c);
      }
    case Drop(k) => DropOrderly(cfg, s, k);
    case Edit(id, row) =>
      EditOrderly(cfg, s, id, row);
      assert RowsMove(s.w.db, EditContent(s.w.db, id, row));
    case Evict(hashes) => EvictOrderly(cfg, s, hashes);
  }

  lemma {:induction false} ExecOrderly(cfg: Config, s: Sys, ls: seq<Label>)
    requires OrderlyOk(cfg, s) && IsOrderly(cfg, s, ls)
    ensures OrderlyOk(cfg, Exec(cfg, s, ls))
    decreases |ls|
  {
    if ls != [] {
      StepOrderly(cfg, s, ls[0]);
      ExecOrderly(cfg, Step(cfg, s, ls[0]), ls[1..]);
    }
  }
}
