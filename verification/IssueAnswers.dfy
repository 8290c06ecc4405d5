/** What issuing access answers, sends and leaves in the tables, for every plan of the environment; told field
    by field, without the steps of the handler. */
module IssueAnswers {
  import opened Text
  import opened Domain
  import opened Tables
  import opened Protocol
  import opened Invariants
  import opened Serial
  import opened Redelivery
  import opened Completion
  import opened Answers

  ghost function Issued(cfg: Config, w: World, e: string, id: string, plan: Plan): Next {
    Drive(cfg, w, Issue(LoadPurchase(e, id)), plan, 0)
  }

  // ---------- what is refused before the provider is asked ----------

  lemma IssueRefused(cfg: Config, w: World, e: string, id: string, plan: Plan)
    requires !Works(plan, 0) || id !in w.db.purchases || !Works(plan, 1) || !Offered(w.db, w.db.purchases[id].contentId)
    ensures Issued(cfg, w, e, id, plan)
            == Next(w, Ended(Failed(if !Works(plan, 0) || id !in w.db.purchases then PurchaseNotFound
                                    else if !Works(plan, 1) || w.db.purchases[id].contentId !in w.db.contents
                                    then ContentNotFound
                                    else ContentInactive)))
  {
    var r := Issue(LoadPurchase(e, id));
    var n := IssueStep(cfg, w, LoadPurchase(e, id), plan(0));
    assert Drive(cfg, w, r, plan, 0) == Drive(cfg, n.w, n.run, plan, 1);
    if n.run.Issue? {
      var m := IssueStep(cfg, w, LoadContent(e, w.db.purchases[id]), plan(1));
      assert Drive(cfg, n.w, n.run, plan, 1) == Drive(cfg, m.w, m.run, plan, 2);
    }
  }

  lemma ProviderAsked(cfg: Config, w: World, e: string, id: string, plan: Plan)
    requires Works(plan, 0) && id in w.db.purchases && Works(plan, 1) && Offered(w.db, w.db.purchases[id].contentId)
    ensures var p := w.db.purchases[id];
            Issued(cfg, w, e, id, plan)
            == Drive(cfg, w, Issue(AskProvider(e, p, w.db.contents[p.contentId])), plan, 2)
  {
    var p := w.db.purchases[id];
    assert Drive(cfg, w, Issue(LoadPurchase(e, id)), plan, 0) == Drive(cfg, w, Issue(LoadContent(e, p)), plan, 1);
  }

  // ---------- the provider fails ----------

  /** The row after a failed attempt: one attempt more, the message and the time of the failure; in error when the
      attempts have reached the limit, and otherwise as it was. */
  predicate FailedFrom(q: Purchase, p: Purchase, message: string, now: Time, limit: int) {
    && q.attempts == p.attempts + 1 && q.lastError == message && q.lastIssueAt == Some(now)
    && q.status == (if p.attempts + 1 >= limit then Error else p.status)
    && q.id == p.id && q.userId == p.userId && q.contentId == p.contentId && q.payload == p.payload
    && q.chargeId == p.chargeId && q.stars == p.stars && q.createdAt == p.createdAt && q.paidAt == p.paidAt
    && q.reviewAt == p.reviewAt
  }

  /** The provider fails: the attempt is counted in the row if its update takes effect, and nothing else changes. */
  lemma ProviderFailed(cfg: Config, w: World, e: string, id: string, plan: Plan) returns (q: Purchase)
    requires Sound(cfg, w) && Works(plan, 0) && id in w.db.purchases && Works(plan, 1)
    requires Offered(w.db, w.db.purchases[id].contentId) && !Works(plan, 2)
    ensures FailedFrom(q, w.db.purchases[id], plan(2).message, plan(2).now, cfg.maxRetries)
    ensures Issued(cfg, w, e, id, plan)
            == Next(if Effective(plan, 3) then w.(db := w.db.(purchases := w.db.purchases[id := q])) else w,
                    Ended(Failed(CallFailed)))
  {
    var p := w.db.purchases[id];
    assert p.id == id;
    ProviderAsked(cfg, w, e, id, plan);
    var n := IssueStep(cfg, w, AskProvider(e, p, w.db.contents[p.contentId]), plan(2));
    assert Issued(cfg, w, e, id, plan) == Drive(cfg, n.w, n.run, plan, 3);
    q := n.run.issue.copy;
    RowFits(cfg, w, w.db, q);
    var m := IssueStep(cfg, w, StoreFailure(e, q), plan(3));
    assert Drive(cfg, n.w, n.run, plan, 3) == Drive(cfg, m.w, m.run, plan, 4);
  }

  // ---------- the grant ----------

  /** The grant made of a raw token: for this purchase and its user, until the provider's time of expiry, unused. */
  predicate GrantOf(cfg: Config, g: Grant, p: Purchase, raw: string, now: Time, expiresAt: Time) {
    && g.id == "grant-" + p.id && g.purchaseId == p.id && g.userId == p.userId && g.tokenHash == cfg.hash(raw)
    && g.issuedAt == now && g.expiresAt == expiresAt && g.usedAt == None
  }

  ghost predicate GrantFree(db: Db, g: Grant) {
    g.id !in db.grants
    && forall id | id in db.grants :: db.grants[id].purchaseId != g.purchaseId && db.grants[id].tokenHash != g.tokenHash
  }

  lemma TokenFailed(cfg: Config, w: World, e: string, id: string, plan: Plan)
    requires Works(plan, 0) && id in w.db.purchases && Works(plan, 1) && Offered(w.db, w.db.purchases[id].contentId)
    requires Works(plan, 2) && !Works(plan, 3)
    ensures Issued(cfg, w, e, id, plan) == Next(w, Ended(Failed(CallFailed)))
  {
    var p := w.db.purchases[id];
    ProviderAsked(cfg, w, e, id, plan);
    var r := MakeToken(e, p, plan(2).link, plan(2).expiresAt);
    assert Issued(cfg, w, e, id, plan) == Drive(cfg, w, Issue(r), plan, 3);
    var n := IssueStep(cfg, w, r, plan(3));
    assert Drive(cfg, w, Issue(r), plan, 3) == Drive(cfg, n.w, n.run, plan, 4);
  }

  lemma GrantMade(cfg: Config, w: World, e: string, id: string, plan: Plan) returns (g: Grant)
    requires Works(plan, 0) && id in w.db.purchases && Works(plan, 1) && Offered(w.db, w.db.purchases[id].contentId)
    requires Works(plan, 2) && Works(plan, 3)
    ensures GrantOf(cfg, g, w.db.purchases[id], plan(3).raw, plan(3).now, plan(2).expiresAt)
    ensures Issued(cfg, w, e, id, plan)
            == Drive(cfg, w, Issue(CreateGrant(e, w.db.purchases[id], g, plan(2).link, plan(3).raw)), plan, 4)
  {
    var p := w.db.purchases[id];
    ProviderAsked(cfg, w, e, id, plan);
    var r := MakeToken(e, p, plan(2).link, plan(2).expiresAt);
    assert Issued(cfg, w, e, id, plan) == Drive(cfg, w, Issue(r), plan, 3);
    g := NewGrant(cfg, p, plan(3).raw, plan(3).now, plan(2).expiresAt);
    var next := CreateGrant(e, p, g, plan(2).link, plan(3).raw);
    assert Drive(cfg, w, Issue(r), plan, 3) == Drive(cfg, w, Issue(next), plan, 4);
  }

  /** The grant is stored, unless its id, its purchase or its hash has one. */
  lemma GrantStored(cfg: Config, w: World, e: string, p: Purchase, g: Grant, link: string, raw: string, plan: Plan)
    ensures var d := Drive(cfg, w, Issue(CreateGrant(e, p, g, link, raw)), plan, 4);
            var v := if GrantFree(w.db, g) && Effective(plan, 4)
                     then w.(db := w.db.(grants := w.db.grants[g.id := g])) else w;
            d == if GrantFree(w.db, g) && Works(plan, 4)
                 then Drive(cfg, v, Issue(CacheToken(e, p, g, link, raw)), plan, 5)
                 else Next(v, Ended(Failed(CallFailed)))
  {
    var n := IssueStep(cfg, w, CreateGrant(e, p, g, link, raw), plan(4));
    assert Drive(cfg, w, Issue(CreateGrant(e, p, g, link, raw)), plan, 4) == Drive(cfg, n.w, n.run, plan, 5);
  }

  // ---------- the cache and the status ----------

  /** The row as issued, and otherwise as it was. */
  predicate IssuedFrom(q: Purchase, p: Purchase) {
    && q.status == AccessIssued
    && q.id == p.id && q.userId == p.userId && q.contentId == p.contentId && q.payload == p.payload
    && q.chargeId == p.chargeId && q.stars == p.stars && q.createdAt == p.createdAt && q.paidAt == p.paidAt
    && q.attempts == p.attempts && q.lastError == p.lastError && q.lastIssueAt == p.lastIssueAt
    && q.reviewAt == p.reviewAt
  }

  /** The token is cached, whatever comes of it; only a paid purchase goes on. */
  lemma StatusChecked(cfg: Config, w: World, e: string, p: Purchase, g: Grant, link: string, raw: string, plan: Plan)
    returns (q: Purchase)
    ensures IssuedFrom(q, p)
    ensures var d := Drive(cfg, w, Issue(CacheToken(e, p, g, link, raw)), plan, 5);
            var v := if cfg.hasCache && !plan(5).cacheOutcome.Refused?
                     then w.(cache := w.cache[g.tokenHash := g.purchaseId]) else w;
            d == if p.status == Paid then Drive(cfg, v, Issue(StoreIssued(e, q, g, link, raw)), plan, 6)
                 else Next(v, Ended(Failed(InvalidTransition)))
  {
    q := p.(status := AccessIssued);
    var n := IssueStep(cfg, w, CacheToken(e, p, g, link, raw), plan(5));
    assert Drive(cfg, w, Issue(CacheToken(e, p, g, link, raw)), plan, 5) == Drive(cfg, n.w, n.run, plan, 6);
  }

  lemma StatusStored(cfg: Config, w: World, e: string, q: Purchase, g: Grant, link: string, raw: string, plan: Plan)
    requires q.id in w.db.purchases && FitsAmong(w.db, q)
    ensures var d := Drive(cfg, w, Issue(StoreIssued(e, q, g, link, raw)), plan, 6);
            var v := if Effective(plan, 6) then w.(db := w.db.(purchases := w.db.purchases[q.id := q])) else w;
            d == if Works(plan, 6) then Drive(cfg, v, Issue(SendLink(e, q, g, link, raw)), plan, 7)
                 else Next(v, Ended(Failed(CallFailed)))
  {
    var n := IssueStep(cfg, w, StoreIssued(e, q, g, link, raw), plan(6));
    assert Drive(cfg, w, Issue(StoreIssued(e, q, g, link, raw)), plan, 6) == Drive(cfg, n.w, n.run, plan, 7);
  }

  // ---------- the message ----------

  /** The message: to the buyer, the provider's link with the raw token as its query. */
  lemma LinkSent(cfg: Config, w: World, e: string, q: Purchase, g: Grant, link: string, raw: string, plan: Plan)
    ensures Drive(cfg, w, Issue(SendLink(e, q, g, link, raw)), plan, 7)
            == Next(w.(sent := w.sent + [Sent(q.id, q.userId, link + "?token=" + raw, raw, Works(plan, 7))]),
                    if Works(plan, 7) then Issue(FlagEvent(e, q)) else Ended(Failed(CallFailed)))
  {
    var n := IssueStep(cfg, w, SendLink(e, q, g, link, raw), plan(7));
    assert Drive(cfg, w, Issue(SendLink(e, q, g, link, raw)), plan, 7) == Drive(cfg, n.w, n.run, plan, 8);
  }

  /** A paid purchase of what is offered, without a grant, with a new token and all calls up to the status served:
      exactly its grant, its cache entry, its status and one message, which carries the token of the grant. */
  lemma AccessIssuedServed(cfg: Config, w: World, e: string, id: string, plan: Plan) returns (q: Purchase, g: Grant)
    requires Sound(cfg, w) && id in w.db.purchases && w.db.purchases[id].status == Paid
    requires Offered(w.db, w.db.purchases[id].contentId) && forall i: nat | i < 7 :: Works(plan, i)
    requires forall x | x in w.db.grants ::
               w.db.grants[x].purchaseId != id && w.db.grants[x].tokenHash != cfg.hash(plan(3).raw)
    ensures IssuedFrom(q, w.db.purchases[id])
    ensures GrantOf(cfg, g, w.db.purchases[id], plan(3).raw, plan(3).now, plan(2).expiresAt)
    ensures var d := Issued(cfg, w, e, id, plan);
            && d.w.db == w.db.(purchases := w.db.purchases[id := q], grants := w.db.grants[g.id := g])
            && d.w.cache == (if cfg.hasCache && !plan(5).cacheOutcome.Refused? then w.cache[cfg.hash(plan(3).raw) := id]
                             else w.cache)
            && d.w.sent == w.sent + [Sent(id, w.db.purchases[id].userId, plan(2).link + "?token=" + plan(3).raw,
                                          plan(3).raw, Works(plan, 7))]
            && d.run == if Works(plan, 7) then Issue(FlagEvent(e, q)) else Ended(Failed(CallFailed))
  {
    var p, link, raw := w.db.purchases[id], plan(2).link, plan(3).raw;
    assert p.id == id;
    g := GrantMade(cfg, w, e, id, plan);
    FreeGrant(cfg, w, p, g);
    GrantStored(cfg, w, e, p, g, link, raw, plan);
    var u := w.(db := w.db.(grants := w.db.grants[g.id := g]));
    q := StatusChecked(cfg, u, e, p, g, link, raw, plan);
    var v := if cfg.hasCache && !plan(5).cacheOutcome.Refused?
             then u.(cache := u.cache[g.tokenHash := g.purchaseId]) else u;
    RowFits(cfg, w, v.db, q);
    StatusStored(cfg, v, e, q, g, link, raw, plan);
    LinkSent(cfg, v.(db := v.db.(purchases := v.db.purchases[q.id := q])), e, q, g, link, raw, plan);
  }

  lemma FreeGrant(cfg: Config, w: World, p: Purchase, g: Grant)
    requires GrantsOk(w.db) && g.id == "grant-" + p.id && g.purchaseId == p.id
    requires forall x | x in w.db.grants :: w.db.grants[x].purchaseId != p.id && w.db.grants[x].tokenHash != g.tokenHash
    ensures GrantFree(w.db, g)
  {
    if g.id in w.db.grants {
      GrantIdInjective(w.db.grants[g.id].purchaseId, p.id);
    }
  }

  // ---------- the event ----------

  /** Handling an event of the type the worker knows: after success the flag of exactly this event, if the ninth
      call takes effect. */
  lemma EventHandled(cfg: Config, w: World, row: OutboxRow, plan: Plan)
    ensures var v := HandleEvent(cfg, w, row, plan); var d := Issued(cfg, w, row.id, row.purchaseId, plan);
            if row.kind != "purchase_confirmed" then v == w
            else if d.run.Ended? || !Effective(plan, 8) then v == d.w
            else v == d.w.(db := d.w.db.(outbox := v.db.outbox)) && |v.db.outbox| == |d.w.db.outbox|
                 && forall i | 0 <= i < |v.db.outbox| ::
                      v.db.outbox[i] == if d.w.db.outbox[i].id == row.id then d.w.db.outbox[i].(published := true)
                                        else d.w.db.outbox[i]
  {
    if row.kind == CONFIRMED {
      DriveIssueOutbox(cfg, w, LoadPurchase(row.id, row.purchaseId), plan, 0);
    }
  }
}
