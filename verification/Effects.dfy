/** Which table a step can change, and how: the frame of every kind of call. */
module Effects {
  import opened Text
  import opened Domain
  import opened Tables
  import opened Protocol
  import opened Invariants

  /** The row a run is about to write. */
  function RowToWrite(r: Run): Option<Purchase> {
    match r
    case Start(Insert(p)) => Some(p)
    case Confirm(StorePaid(_, p)) => Some(p)
    case Issue(StoreFailure(_, p)) => Some(p)
    case Issue(StoreIssued(_, p, _, _, _)) => Some(p)
    case _ => None
  }

  /** An insert never overwrites; an update never adds. */
  predicate RowEffect(a: Db, r: Run, b: Db) {
    || b.purchases == a.purchases
    || (RowToWrite(r).Some? && (RowToWrite(r).value.id !in a.purchases <==> r.Start?)
        && b.purchases == a.purchases[RowToWrite(r).value.id := RowToWrite(r).value])
  }

  predicate OutboxEffect(a: Db, r: Run, b: Db) {
    || b.outbox == a.outbox
    || (r.Confirm? && r.confirm.Publish? && |b.outbox| == |a.outbox| + 1 && b.outbox[..|a.outbox|] == a.outbox
        && b.outbox[|a.outbox|].purchaseId == r.confirm.copy.id && !b.outbox[|a.outbox|].published
        && forall i | 0 <= i < |a.outbox| :: a.outbox[i].id != b.outbox[|a.outbox|].id)
    || (r.Issue? && r.issue.FlagEvent? && b.outbox == Flagged(a.outbox, r.issue.eventId))
  }

  predicate GrantEffect(a: Db, r: Run, b: Db) {
    || b.grants == a.grants
    || (r.Issue? && r.issue.CreateGrant? && r.issue.grant.id !in a.grants
        && b.grants == a.grants[r.issue.grant.id := r.issue.grant])
    || (r.Use? && r.use.MarkGrant? && r.use.grant.id in a.grants && r.use.grant.id in b.grants
        && b.grants == a.grants[r.use.grant.id := b.grants[r.use.grant.id]]
        && SameGrant(a.grants[r.use.grant.id], b.grants[r.use.grant.id]))
  }

  predicate PaymentEffect(a: Db, r: Run, b: Db) {
    && (b.payments == a.payments
        || (r.Confirm? && r.confirm.LogEvent? && r.confirm.ev.chargeId !in a.payments
            && b.payments == a.payments[r.confirm.ev.chargeId := r.confirm.ev]))
    && (b.processed == a.processed
        || (r.Confirm? && r.confirm.StoreKey? && b.processed == a.processed + {r.confirm.ev.chargeId}))
  }

  predicate SendEffect(a: World, r: Run, b: World) {
    || b.sent == a.sent
    || (r.Issue? && r.issue.SendLink? && |b.sent| == |a.sent| + 1 && b.sent[..|a.sent|] == a.sent
        && b.sent[|a.sent|].purchaseId == r.issue.copy.id)
  }

  ghost predicate Effect(w: World, r: Run, n: Next) {
    && RowEffect(w.db, r, n.w.db) && OutboxEffect(w.db, r, n.w.db) && GrantEffect(w.db, r, n.w.db)
    && PaymentEffect(w.db, r, n.w.db) && SendEffect(w, r, n.w) && n.w.db.contents == w.db.contents
  }

  lemma StartEffect(w: World, s: StartRun, c: Choice)
    ensures Effect(w, Start(s), StartStep(w, s, c)) == true
  {
  }

  lemma ConfirmEffect(w: World, f: ConfirmRun, c: Choice)
    ensures Effect(w, Confirm(f), ConfirmStep(w, f, c)) == true
  {
  }

  lemma IssueEffect(cfg: Config, w: World, i: IssueRun, c: Choice)
    ensures Effect(w, Issue(i), IssueStep(cfg, w, i, c)) == true
  {
  }

  lemma UseEffect(cfg: Config, w: World, u: UseRun, c: Choice)
    ensures Effect(w, Use(u), UseStep(cfg, w, u, c)) == true
  {
  }

  lemma StepEffect(cfg: Config, w: World, r: Run, c: Choice)
    ensures Effect(w, r, RunStep(cfg, w, r, c)) == true
  {
    match r
    case Start(s) => StartEffect(w, s, c);
    case Confirm(f) => ConfirmEffect(w, f, c);
    case Issue(i) => IssueEffect(cfg, w, i, c);
    case Use(u) => UseEffect(cfg, w, u, c);
    case Ended(_) =>
  }

  /** Which purchases are in the outbox changes only by a publish. */
  lemma OutboxPurchases(a: Db, r: Run, b: Db, id: string)
    requires OutboxEffect(a, r, b)
    requires !(r.Confirm? && r.confirm.Publish? && r.confirm.copy.id == id)
    ensures InOutbox(a, id) <==> InOutbox(b, id)
  {
    if InOutbox(a, id) {
      var i :| 0 <= i < |a.outbox| && a.outbox[i].purchaseId == id;
      assert b.outbox[i].purchaseId == id;
    }
    if InOutbox(b, id) {
      var i :| 0 <= i < |b.outbox| && b.outbox[i].purchaseId == id;
      assert a.outbox[i].purchaseId == id;
    }
  }

  lemma EventForInOutbox(db: Db, e: string, id: string)
    requires EventFor(db, e, id)
    ensures InOutbox(db, id)
  {
  }
}
