/** Consequences for the interleaved system: any number of runs of every kind, any
    faults, any stops, any edits of the catalog, any loss of cache entries. */
module Delivery {
  import opened Text
  import opened Domain
  import opened Tables
  import opened Protocol
  import opened Invariants
  import opened Effects

  /** The purchase a run holds a copy of. */
  function CopyIn(r: Run): Option<Purchase> {
    match r
    case Start(Insert(p)) => Some(p)
    case Confirm(f) => if f.CheckKey? || f.FindPurchase? then None else Some(f.copy)
    case Issue(i) => if i.LoadPurchase? then None else Some(i.copy)
    case _ => None
  }

  lemma OneGrantPerPurchase(db: Db, a: string, b: string)
    requires GrantsOk(db) && a in db.grants && b in db.grants && db.grants[a].purchaseId == db.grants[b].purchaseId
    ensures a == b
  {
  }

  /** However often an outbox event is retried or duplicated: over the whole history a purchase
      gets one grant at most, and SendAccessLink is called at most once for it. */
  lemma OneGrantOneSend(cfg: Config, s: Sys, early: seq<Label>, late: seq<Label>)
    requires Initial(s)
    ensures var a := Exec(cfg, s, early).w; var b := Exec(cfg, Exec(cfg, s, early), late).w;
            && (forall g, h | g in a.db.grants && h in b.db.grants
                              && a.db.grants[g].purchaseId == b.db.grants[h].purchaseId ::
                  g == h && SameGrant(a.db.grants[g], b.db.grants[h]))
            && (forall i, j | 0 <= i < |b.sent| && 0 <= j < |b.sent| && b.sent[i].purchaseId == b.sent[j].purchaseId ::
                  i == j)
            && a.sent <= b.sent
  {
    Reachable(cfg, s, early);
    var t := Exec(cfg, s, early);
    ExecKeeps(cfg, t, late);
    var a, b := t.w, Exec(cfg, t, late).w;
    forall g, h | g in a.db.grants && h in b.db.grants && a.db.grants[g].purchaseId == b.db.grants[h].purchaseId
      ensures g == h && SameGrant(a.db.grants[g], b.db.grants[h])
    {
      OneGrantPerPurchase(b.db, g, h);
    }
  }

  /** Every row and every copy that says access_issued has a grant of the same purchase and user. */
  lemma IssuedHasGrant(cfg: Config, s: Sys, ls: seq<Label>)
    requires Initial(s)
    ensures var t := Exec(cfg, s, ls);
            && (forall id | id in t.w.db.purchases && t.w.db.purchases[id].status == AccessIssued ::
                  HasGrant(t.w.db, t.w.db.purchases[id]))
            && (forall k | k in t.runs && CopyIn(t.runs[k]).Some? && CopyIn(t.runs[k]).value.status == AccessIssued ::
                  HasGrant(t.w.db, CopyIn(t.runs[k]).value))
  {
    Reachable(cfg, s, ls);
    var t := Exec(cfg, s, ls);
    forall k | k in t.runs && CopyIn(t.runs[k]).Some? && CopyIn(t.runs[k]).value.status == AccessIssued
      ensures HasGrant(t.w.db, CopyIn(t.runs[k]).value)
    {
      assert RunOk(cfg, t.w.db, t.runs[k]);
    }
  }

  /** Every purchase named in the outbox has been paid for, and no write, however stale its
      copy, ever returns a paid row to pending. */
  lemma OutboxIsPaid(cfg: Config, s: Sys, early: seq<Label>, late: seq<Label>)
    requires Initial(s)
    ensures var a := Exec(cfg, s, early).w.db; var b := Exec(cfg, Exec(cfg, s, early), late).w.db;
            && (forall id | InOutbox(a, id) ::
                  id in a.purchases && a.purchases[id].status != Pending
                  && a.purchases[id].chargeId != "" && a.purchases[id].paidAt.Some?)
            && (forall id | id in a.purchases && a.purchases[id].status != Pending ::
                  id in b.purchases && b.purchases[id].status != Pending
                  && b.purchases[id].chargeId != "" && b.purchases[id].paidAt.Some?)
  {
    Reachable(cfg, s, early);
    ExecKeeps(cfg, Exec(cfg, s, early), late);
    var a := Exec(cfg, s, early).w.db;
    forall id | InOutbox(a, id)
      ensures Settled(a, id)
    {
      var i :| 0 <= i < |a.outbox| && a.outbox[i].purchaseId == id;
    }
  }

  ghost predicate AllAccounted(cfg: Config, s: Sys) {
    && (forall id | id in s.w.db.purchases :: s.w.db.purchases[id].Accounted(cfg.maxRetries))
    && (forall k | k in s.runs && CopyIn(s.runs[k]).Some? :: CopyIn(s.runs[k]).value.Accounted(cfg.maxRetries))
  }

  /** With at least one retry allowed, a row or copy is in error exactly when it has used up its attempts. */
  lemma RetryAccounting(cfg: Config, s: Sys, ls: seq<Label>)
    requires Initial(s) && cfg.maxRetries >= 1
    ensures AllAccounted(cfg, Exec(cfg, s, ls))
  {
    Reachable(cfg, s, ls);
    var t := Exec(cfg, s, ls);
    forall k | k in t.runs && CopyIn(t.runs[k]).Some?
      ensures CopyIn(t.runs[k]).value.Accounted(cfg.maxRetries)
    {
      assert RunOk(cfg, t.w.db, t.runs[k]);
    }
  }

  // ---------- invoices ----------

  predicate Invoiced(p: Purchase) {
    p.payload == InvoicePayload(p.contentId, p.id, p.userId)
  }

  ghost predicate AllInvoiced(s: Sys) {
    && (forall id | id in s.w.db.purchases :: Invoiced(s.w.db.purchases[id]))
    && (forall k | k in s.runs && s.runs[k].Start? && s.runs[k].start.Insert? :: Invoiced(s.runs[k].start.purchase))
  }

  lemma SameIdentityInvoiced(a: Purchase, b: Purchase)
    requires SameIdentity(a, b) && Invoiced(a)
    ensures Invoiced(b)
  {
  }

  /** Rows appear only by the insert of a start run. */
  lemma RowsInvoiced(w: World, r: Run, n: Next)
    requires forall id | id in w.db.purchases :: Invoiced(w.db.purchases[id])
    requires RowEffect(w.db, r, n.w.db) && PurchasesKept(w.db, n.w.db)
    requires RowToWrite(r).Some? && RowToWrite(r).value.id !in w.db.purchases ==> Invoiced(RowToWrite(r).value)
    ensures forall id | id in n.w.db.purchases :: Invoiced(n.w.db.purchases[id])
  {
    forall id | id in n.w.db.purchases
      ensures Invoiced(n.w.db.purchases[id])
    {
      if id in w.db.purchases {
        SameIdentityInvoiced(w.db.purchases[id], n.w.db.purchases[id]);
      }
    }
  }

  lemma NextInsertInvoiced(cfg: Config, w: World, r: Run, c: Choice)
    requires r.Start? && r.start.Insert? ==> Invoiced(r.start.purchase)
    ensures var n := RunStep(cfg, w, r, c).run; n.Start? && n.start.Insert? ==> Invoiced(n.start.purchase)
  {
  }

  lemma StepInvoices(cfg: Config, s: Sys, l: Label)
    requires BaseOk(cfg, s) && AllInvoiced(s)
    ensures AllInvoiced(Step(cfg, s, l))
  {
    if l.Advance? && l.k in s.runs {
      AdvanceInvoices(cfg, s, l.k, l.choice);
      NextInsertInvoiced(cfg, s.w, s.runs[l.k], l.choice);
    }
  }

  lemma AdvanceInvoices(cfg: Config, s: Sys, k: nat, c: Choice)
    requires WorldOk(cfg, s.w) && RunsOk(cfg, s) && AllInvoiced(s) && k in s.runs
    ensures var db := RunStep(cfg, s.w, s.runs[k], c).w.db;
            forall id | id in db.purchases :: Invoiced(db.purchases[id])
  {
    var r := s.runs[k];
    StepEffect(cfg, s.w, r, c);
    RunAdvances(cfg, s.w, r, c);
    assert RunOk(cfg, s.w.db, r);
    RowsInvoiced(s.w, r, RunStep(cfg, s.w, r, c));
  }

  lemma {:induction false} ExecInvoices(cfg: Config, s: Sys, ls: seq<Label>)
    requires BaseOk(cfg, s) && AllInvoiced(s)
    ensures AllInvoiced(Exec(cfg, s, ls))
    decreases |ls|
  {
    if ls != [] {
      StepInvoices(cfg, s, ls[0]);
      StepKeeps(cfg, s, ls[0]);
      ExecInvoices(cfg, Step(cfg, s, ls[0]), ls[1..]);
    }
  }

  lemma InvoiceUnique(a: Purchase, b: Purchase)
    requires Invoiced(a) && Invoiced(b) && a.payload == b.payload
    ensures a.id == b.id
  {
    InvoicePayloadInjective(a.contentId, a.id, a.userId, b.contentId, b.id, b.userId);
  }

  /** Where every row is invoiced, a payload finds the one row that has it. */
  lemma PayloadFinds(db: Db, id: string)
    requires forall x | x in db.purchases :: db.purchases[x].id == x && Invoiced(db.purchases[x])
    requires id in db.purchases
    ensures FindByPayload(db, db.purchases[id].payload) == Some(db.purchases[id])
  {
    FindByPayloadOk(db, db.purchases[id].payload);
    var found := FindByPayload(db, db.purchases[id].payload).value;
    InvoiceUnique(found, db.purchases[id]);
  }

  /** From the moment a purchase exists, its invoice payload finds exactly that purchase, and its
      user, content, payload, creation time and (positive) price stay what they were, whatever
      happens to the catalog and however stale the copies that are written back. */
  lemma InvoiceIdentity(cfg: Config, s: Sys, early: seq<Label>, late: seq<Label>, id: string)
    requires Initial(s) && id in Exec(cfg, s, early).w.db.purchases
    ensures var p := Exec(cfg, s, early).w.db.purchases[id];
            var b := Exec(cfg, Exec(cfg, s, early), late).w.db;
            id in b.purchases && FindByPayload(b, p.payload) == Some(b.purchases[id])
            && SameIdentity(p, b.purchases[id]) && p.stars > 0
  {
    var t := Exec(cfg, s, early);
    Reachable(cfg, s, early);
    ExecKeeps(cfg, t, late);
    ExecInvoices(cfg, s, early);
    ExecInvoices(cfg, t, late);
    PayloadFinds(Exec(cfg, t, late).w.db, id);
  }

  // ---------- lost confirmations ----------

  /** A confirm run that may still write the purchase or publish its event. */
  function Confirming(r: Run): set<string> {
    match r
    case Confirm(StorePaid(_, p)) => {p.id}
    case Confirm(LogEvent(_, p)) => {p.id}
    case Confirm(Publish(_, p)) => {p.id}
    case _ => {}
  }

  /** Paid for, not in the outbox, and nobody left who would put it there. */
  ghost predicate Stranded(s: Sys, id: string) {
    && Settled(s.w.db, id) && !InOutbox(s.w.db, id)
    && forall k | k in s.runs :: id !in Confirming(s.runs[k])
  }

  lemma NextConfirming(cfg: Config, w: World, r: Run, c: Choice, id: string)
    requires PurchasesOk(cfg, w.db) && Settled(w.db, id) && id !in Confirming(r)
    ensures id !in Confirming(RunStep(cfg, w, r, c).run)
  {
    if r.Confirm? && r.confirm.FindPurchase? && FindByPayload(w.db, r.confirm.ev.payload).Some? {
      FindByPayloadOk(w.db, r.confirm.ev.payload);
    }
  }

  /** Nobody writes the row of a stranded purchase: issue runs work on the outbox only. */
  lemma RowUntouched(cfg: Config, w: World, r: Run, n: Next, id: string)
    requires RunOk(cfg, w.db, r) && RowEffect(w.db, r, n.w.db)
    requires Settled(w.db, id) && !InOutbox(w.db, id) && id !in Confirming(r)
    ensures id in n.w.db.purchases && n.w.db.purchases[id] == w.db.purchases[id]
  {
    if r.Issue? && (r.issue.StoreFailure? || r.issue.StoreIssued?) {
      EventForInOutbox(w.db, r.issue.eventId, r.issue.copy.id);
    }
  }

  lemma StepStranded(cfg: Config, s: Sys, l: Label, id: string)
    requires BaseOk(cfg, s) && Stranded(s, id)
    ensures var t := Step(cfg, s, l); Stranded(t, id) && t.w.db.purchases[id] == s.w.db.purchases[id]
  {
    if l.Advance? && l.k in s.runs {
      var r := s.runs[l.k];
      var n := RunStep(cfg, s.w, r, l.choice);
      StepEffect(cfg, s.w, r, l.choice);
      NextConfirming(cfg, s.w, r, l.choice, id);
      assert RunOk(cfg, s.w.db, r);
      RowUntouched(cfg, s.w, r, n, id);
      OutboxPurchases(s.w.db, r, n.w.db, id);
    }
  }

  ghost predicate GrantsFromOutbox(db: Db) {
    forall g | g in db.grants :: InOutbox(db, db.grants[g].purchaseId)
  }

  lemma NewGrants(cfg: Config, w: World, r: Run, n: Next)
    requires GrantsFromOutbox(w.db) && RunOk(cfg, w.db, r)
    requires GrantEffect(w.db, r, n.w.db) && OutboxKept(w.db, n.w.db)
    ensures GrantsFromOutbox(n.w.db)
  {
    if r.Issue? && r.issue.CreateGrant? {
      EventForInOutbox(w.db, r.issue.eventId, r.issue.copy.id);
    }
    forall g | g in n.w.db.grants
      ensures InOutbox(n.w.db, n.w.db.grants[g].purchaseId)
    {
      InOutboxKept(w.db, n.w.db, n.w.db.grants[g].purchaseId);
    }
  }

  lemma SameGrantsFromOutbox(a: Db, b: Db)
    requires GrantsFromOutbox(a) && b.grants == a.grants && b.outbox == a.outbox
    ensures GrantsFromOutbox(b)
  {
    forall g | g in b.grants
      ensures InOutbox(b, b.grants[g].purchaseId)
    {
      InOutboxKept(a, b, b.grants[g].purchaseId);
    }
  }

  lemma StepGrants(cfg: Config, s: Sys, l: Label)
    requires BaseOk(cfg, s) && GrantsFromOutbox(s.w.db)
    ensures GrantsFromOutbox(Step(cfg, s, l).w.db)
  {
    if l.Advance? && l.k in s.runs {
      var r := s.runs[l.k];
      StepEffect(cfg, s.w, r, l.choice);
      RunAdvances(cfg, s.w, r, l.choice);
      assert RunOk(cfg, s.w.db, r);
      NewGrants(cfg, s.w, r, RunStep(cfg, s.w, r, l.choice));
    } else if l.Edit? {
      SameGrantsFromOutbox(s.w.db, EditContent(s.w.db, l.contentId, l.row));
    }
  }

  lemma {:induction false} ExecStranded(cfg: Config, s: Sys, ls: seq<Label>, id: string)
    requires BaseOk(cfg, s) && GrantsFromOutbox(s.w.db) && Stranded(s, id)
    ensures var t := Exec(cfg, s, ls);
            Stranded(t, id) && t.w.db.purchases[id] == s.w.db.purchases[id]
            && BaseOk(cfg, t) && GrantsFromOutbox(t.w.db)
    decreases |ls|
  {
    if ls != [] {
      StepStranded(cfg, s, ls[0], id);
      StepGrants(cfg, s, ls[0]);
      StepKeeps(cfg, s, ls[0]);
      ExecStranded(cfg, Step(cfg, s, ls[0]), ls[1..], id);
    }
  }

  lemma {:induction false} ExecGrants(cfg: Config, s: Sys, ls: seq<Label>)
    requires BaseOk(cfg, s) && GrantsFromOutbox(s.w.db)
    ensures GrantsFromOutbox(Exec(cfg, s, ls).w.db)
    decreases |ls|
  {
    if ls != [] {
      StepGrants(cfg, s, ls[0]);
      StepKeeps(cfg, s, ls[0]);
      ExecGrants(cfg, Step(cfg, s, ls[0]), ls[1..]);
    }
  }

  /** A stranded purchase is lost for good: whatever redeliveries and retries follow, its row never
      changes again, it never reaches the outbox and it never gets a grant. */
  lemma StrandedForever(cfg: Config, s: Sys, early: seq<Label>, late: seq<Label>, id: string)
    requires Initial(s) && Stranded(Exec(cfg, s, early), id)
    ensures var a := Exec(cfg, s, early); var b := Exec(cfg, a, late);
            && id in b.w.db.purchases && b.w.db.purchases[id] == a.w.db.purchases[id]
            && !InOutbox(b.w.db, id)
            && (forall g | g in b.w.db.grants :: b.w.db.grants[g].purchaseId != id)
  {
    Reachable(cfg, s, early);
    ExecGrants(cfg, s, early);
    ExecStranded(cfg, Exec(cfg, s, early), late, id);
  }

  // ---------- events that can no longer succeed ----------

  /** The purchase for which a run may still reach the point of publishing. */
  function Finishing(r: Run): set<string> {
    match r
    case Issue(CacheToken(_, p, _, _, _)) => {p.id}
    case Issue(StoreIssued(_, p, _, _, _)) => {p.id}
    case Issue(SendLink(_, p, _, _, _)) => {p.id}
    case Issue(FlagEvent(_, p)) => {p.id}
    case _ => {}
  }

  /** The i-th outbox event is unpublished, its purchase has a grant already, and the run that made
      the grant is gone: it failed or stopped before the event was published. */
  ghost predicate Wedged(s: Sys, i: nat) {
    && i < |s.w.db.outbox| && !s.w.db.outbox[i].published
    && GrantId(s.w.db.outbox[i].purchaseId) in s.w.db.grants
    && forall k | k in s.runs :: s.w.db.outbox[i].purchaseId !in Finishing(s.runs[k])
  }

  lemma NextFinishing(cfg: Config, w: World, r: Run, c: Choice, id: string)
    requires RunOk(cfg, w.db, r) && GrantId(id) in w.db.grants && id !in Finishing(r)
    ensures id !in Finishing(RunStep(cfg, w, r, c).run)
  {
  }

  lemma StaysUnpublished(cfg: Config, w: World, r: Run, n: Next, i: nat)
    requires EventIdsUnique(w.db) && RunOk(cfg, w.db, r) && OutboxEffect(w.db, r, n.w.db)
    requires i < |w.db.outbox| && !w.db.outbox[i].published && w.db.outbox[i].purchaseId !in Finishing(r)
    ensures i < |n.w.db.outbox| && n.w.db.outbox[i] == w.db.outbox[i]
  {
    if r.Issue? && r.issue.FlagEvent? {
      var j :| 0 <= j < |w.db.outbox| && w.db.outbox[j].id == r.issue.eventId
               && w.db.outbox[j].purchaseId == r.issue.copy.id;
    }
  }

  lemma AdvanceWedged(cfg: Config, s: Sys, k: nat, c: Choice, i: nat)
    requires BaseOk(cfg, s) && Wedged(s, i) && k in s.runs
    ensures Wedged(Step(cfg, s, Advance(k, c)), i)
  {
    var r := s.runs[k];
    assert RunOk(cfg, s.w.db, r);
    assert Kept(s.w, RunStep(cfg, s.w, r, c).w) by {
      RunAdvances(cfg, s.w, r, c);
    }
    RunWedged(cfg, s.w, r, c, i);
  }

  lemma RunWedged(cfg: Config, w: World, r: Run, c: Choice, i: nat)
    requires EventIdsUnique(w.db) && RunOk(cfg, w.db, r)
    requires i < |w.db.outbox| && !w.db.outbox[i].published && GrantId(w.db.outbox[i].purchaseId) in w.db.grants
    requires w.db.outbox[i].purchaseId !in Finishing(r)
    ensures var n := RunStep(cfg, w, r, c);
            && i < |n.w.db.outbox| && n.w.db.outbox[i] == w.db.outbox[i]
            && w.db.outbox[i].purchaseId !in Finishing(n.run)
  {
    StepEffect(cfg, w, r, c);
    StaysUnpublished(cfg, w, r, RunStep(cfg, w, r, c), i);
    NextFinishing(cfg, w, r, c, w.db.outbox[i].purchaseId);
  }

  lemma StepWedged(cfg: Config, s: Sys, l: Label, i: nat)
    requires BaseOk(cfg, s) && Wedged(s, i)
    ensures Wedged(Step(cfg, s, l), i)
  {
    if l.Advance? && l.k in s.runs {
      AdvanceWedged(cfg, s, l.k, l.choice, i);
    }
  }

  /** An event whose purchase got its grant in a run that did not finish is never published, in any
      continuation: every retry fails at the grant it would have to create again. */
  lemma {:induction false} WedgedForever(cfg: Config, s: Sys, ls: seq<Label>, i: nat)
    requires BaseOk(cfg, s) && Wedged(s, i)
    ensures Wedged(Exec(cfg, s, ls), i) && Exec(cfg, s, ls).w.db.outbox[i] == s.w.db.outbox[i]
    decreases |ls|
  {
    if ls != [] {
      StepWedged(cfg, s, ls[0], i);
      StepKeeps(cfg, s, ls[0]);
      WedgedForever(cfg, Step(cfg, s, ls[0]), ls[1..], i);
    }
  }
}
