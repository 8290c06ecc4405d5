/** When the worker completes an event, and what one failure on the way costs. */
module Completion {
  import opened Domain
  import opened Tables
  import opened Protocol
  import opened Invariants
  import opened Delivery
  import opened Serial
  import opened Redelivery

  /** The purchase is paid, its content can be purchased, and it has no grant yet. */
  ghost predicate Issuable(db: Db, id: string) {
    && id in db.purchases && db.purchases[id].status == Paid
    && db.purchases[id].contentId in db.contents && db.contents[db.purchases[id].contentId].CanBePurchased()
    && forall g | g in db.grants :: db.grants[g].purchaseId != id
  }

  ghost predicate FreshToken(cfg: Config, db: Db, raw: string) {
    forall g | g in db.grants :: db.grants[g].tokenHash != cfg.hash(raw)
  }

  ghost predicate Healthy(cfg: Config, db: Db, id: string, raw: string) {
    Issuable(db, id) && FreshToken(cfg, db, raw)
  }

  /** A row may be written back over itself: it conflicts with no other. */
  lemma RowFits(cfg: Config, w: World, db: Db, p: Purchase)
    requires Sound(cfg, w) && p.id in w.db.purchases && db.purchases == w.db.purchases
    requires p.payload == w.db.purchases[p.id].payload && p.chargeId == w.db.purchases[p.id].chargeId
    ensures FitsAmong(db, p)
  {
    forall id | id in db.purchases && id != p.id
      ensures !Conflicts(p, db.purchases[id])
    {
      if p.payload == db.purchases[id].payload {
        InvoiceUnique(db.purchases[p.id], db.purchases[id]);
      }
    }
  }

  lemma GrantFits(cfg: Config, w: World, p: Purchase, g: Grant)
    requires GrantsOk(w.db) && g.id == GrantId(p.id) && g.purchaseId == p.id
    ensures InsertGrant(w.db, g).Some?
            <==> forall x | x in w.db.grants ::
                   w.db.grants[x].purchaseId != p.id && w.db.grants[x].tokenHash != g.tokenHash
  {
    if g.id in w.db.grants {
      GrantIdInjective(w.db.grants[g.id].purchaseId, p.id);
    }
  }

  /** The first four calls, all served: the run reaches the grant, or stops at the content. */
  lemma ReachGrant(cfg: Config, w: World, e: string, id: string, plan: Plan)
    requires id in w.db.purchases && forall j: nat | j < 4 :: plan(j).outcome.Served?
    ensures var p := w.db.purchases[id];
            var g := NewGrant(cfg, p, plan(3).raw, plan(3).now, plan(2).expiresAt);
            var d := Drive(cfg, w, Issue(LoadPurchase(e, id)), plan, 0);
            if p.contentId in w.db.contents && w.db.contents[p.contentId].CanBePurchased()
            then d == Drive(cfg, w, Issue(CreateGrant(e, p, g, plan(2).link, plan(3).raw)), plan, 4)
            else d.w == w && d.run.Ended?
  {
    var p := w.db.purchases[id];
    var r0 := Issue(LoadPurchase(e, id));
    var r1 := Issue(LoadContent(e, p));
    assert Drive(cfg, w, r0, plan, 0) == Drive(cfg, w, r1, plan, 1);
    var n := IssueStep(cfg, w, LoadContent(e, p), plan(1));
    assert Drive(cfg, w, r1, plan, 1) == Drive(cfg, n.w, n.run, plan, 2);
    if n.run.Issue? {
      var r3 := Issue(MakeToken(e, p, plan(2).link, plan(2).expiresAt));
      assert Drive(cfg, w, n.run, plan, 2) == Drive(cfg, w, r3, plan, 3);
    }
  }

  /** From the grant on, with the grant, the cache and the status served: the run reaches the send. */
  lemma ReachSend(cfg: Config, w: World, e: string, p: Purchase, g: Grant, link: string, raw: string, plan: Plan)
    requires plan(4).outcome.Served? && plan(5).outcome.Served? && plan(6).outcome.Served?
    requires InsertGrant(w.db, g).Some? && p.id in w.db.purchases
    requires FitsAmong(InsertGrant(w.db, g).value, p.(status := AccessIssued))
    ensures var d := Drive(cfg, w, Issue(CreateGrant(e, p, g, link, raw)), plan, 4);
            if p.status == Paid
            then exists v: World ::
                   v.db == InsertGrant(w.db, g).value.(purchases := w.db.purchases[p.id := p.(status := AccessIssued)])
                   && v.sent == w.sent
                   && d == Drive(cfg, v, Issue(SendLink(e, p.(status := AccessIssued), g, link, raw)), plan, 7)
            else d.run.Ended? && d.w.db == InsertGrant(w.db, g).value && d.w.sent == w.sent
  {
    var u := w.(db := InsertGrant(w.db, g).value);
    var r5 := Issue(CacheToken(e, p, g, link, raw));
    assert Drive(cfg, w, Issue(CreateGrant(e, p, g, link, raw)), plan, 4) == Drive(cfg, u, r5, plan, 5);
    var n := IssueStep(cfg, u, CacheToken(e, p, g, link, raw), plan(5));
    assert Drive(cfg, u, r5, plan, 5) == Drive(cfg, n.w, n.run, plan, 6);
    if p.status == Paid {
      var q := p.(status := AccessIssued);
      assert n.run == Issue(StoreIssued(e, q, g, link, raw)) && n.w.db == u.db && n.w.sent == u.sent;
      var v := n.w.(db := u.db.(purchases := u.db.purchases[p.id := q]));
      assert FitsAmong(n.w.db, q);
      assert Drive(cfg, n.w, n.run, plan, 6) == Drive(cfg, v, Issue(SendLink(e, q, g, link, raw)), plan, 7);
    } else {
      assert Drive(cfg, n.w, n.run, plan, 6) == n;
    }
  }

  /** The last call of an issue run. */
  lemma SendDriven(cfg: Config, w: World, e: string, p: Purchase, g: Grant, link: string, raw: string, plan: Plan)
    ensures Drive(cfg, w, Issue(SendLink(e, p, g, link, raw)), plan, 7)
            == Next(w.(sent := w.sent + [Sent(p.id, p.userId, FinalLink(link, raw), raw, plan(7).outcome.Served?)]),
                    if plan(7).outcome.Served? then Issue(FlagEvent(e, p)) else Ended(Failed(CallFailed)))
  {
    var n := IssueStep(cfg, w, SendLink(e, p, g, link, raw), plan(7));
    assert Drive(cfg, w, Issue(SendLink(e, p, g, link, raw)), plan, 7) == Drive(cfg, n.w, n.run, plan, 8);
  }

  lemma CreateFails(cfg: Config, w: World, e: string, p: Purchase, g: Grant, link: string, raw: string, plan: Plan)
    requires InsertGrant(w.db, g).None?
    ensures Drive(cfg, w, Issue(CreateGrant(e, p, g, link, raw)), plan, 4) == Next(w, Ended(Failed(CallFailed)))
  {
    var n := IssueStep(cfg, w, CreateGrant(e, p, g, link, raw), plan(4));
    assert Drive(cfg, w, Issue(CreateGrant(e, p, g, link, raw)), plan, 4) == Drive(cfg, n.w, n.run, plan, 5);
  }

  /** From the grant on, for a paid purchase whose grant and row fit: the run ends with the send. */
  lemma FromGrant(cfg: Config, w: World, e: string, p: Purchase, g: Grant, link: string, raw: string, plan: Plan)
    requires plan(4).outcome.Served? && plan(5).outcome.Served? && plan(6).outcome.Served?
    requires InsertGrant(w.db, g).Some? && p.id in w.db.purchases && p.status == Paid
    requires FitsAmong(InsertGrant(w.db, g).value, p.(status := AccessIssued))
    ensures var d := Drive(cfg, w, Issue(CreateGrant(e, p, g, link, raw)), plan, 4);
            var q := p.(status := AccessIssued);
            && d.w.db == InsertGrant(w.db, g).value.(purchases := w.db.purchases[p.id := q])
            && d.run == if plan(7).outcome.Served? then Issue(FlagEvent(e, q)) else Ended(Failed(CallFailed))
  {
    var q := p.(status := AccessIssued);
    ReachSend(cfg, w, e, p, g, link, raw, plan);
    var v: World :|
      v.db == InsertGrant(w.db, g).value.(purchases := w.db.purchases[p.id := q]) && v.sent == w.sent
      && Drive(cfg, w, Issue(CreateGrant(e, p, g, link, raw)), plan, 4)
         == Drive(cfg, v, Issue(SendLink(e, q, g, link, raw)), plan, 7);
    SendDriven(cfg, v, e, q, g, link, raw, plan);
  }

  /** What an issue run leaves behind for a healthy purchase. */
  lemma HealthyServed(cfg: Config, w: World, e: string, id: string, plan: Plan)
    requires Sound(cfg, w) && Healthy(cfg, w.db, id, plan(3).raw) && forall j: nat | j < 7 :: plan(j).outcome.Served?
    ensures var d := Drive(cfg, w, Issue(LoadPurchase(e, id)), plan, 0);
            var p := w.db.purchases[id];
            && (d.run.Ended? <==> !plan(7).outcome.Served?)
            && d.w.db.purchases == w.db.purchases[id := p.(status := AccessIssued)]
            && d.w.db.grants
               == w.db.grants[GrantId(id) := NewGrant(cfg, p, plan(3).raw, plan(3).now, plan(2).expiresAt)]
            && d.w.db.outbox == w.db.outbox
  {
    var p := w.db.purchases[id];
    var g := NewGrant(cfg, p, plan(3).raw, plan(3).now, plan(2).expiresAt);
    assert p.id == id;
    ReachGrant(cfg, w, e, id, plan);
    GrantFits(cfg, w, p, g);
    RowFits(cfg, w, InsertGrant(w.db, g).value, p.(status := AccessIssued));
    FromGrant(cfg, w, e, p, g, plan(2).link, plan(3).raw, plan);
  }

  /** The purchase can get a grant, whatever its status. */
  ghost predicate Grantable(cfg: Config, db: Db, id: string, raw: string) {
    && id in db.purchases && FreshToken(cfg, db, raw)
    && db.purchases[id].contentId in db.contents && db.contents[db.purchases[id].contentId].CanBePurchased()
    && forall g | g in db.grants :: db.grants[g].purchaseId != id
  }

  /** A purchase that is not paid but could get a grant has got one in the end, whose link is not sent. */
  lemma GrantWithoutLink(cfg: Config, w: World, e: string, id: string, plan: Plan)
    requires Sound(cfg, w) && Grantable(cfg, w.db, id, plan(3).raw) && w.db.purchases[id].status != Paid
    requires forall j: nat | j < 7 :: plan(j).outcome.Served?
    ensures var d := Drive(cfg, w, Issue(LoadPurchase(e, id)), plan, 0);
            var g := NewGrant(cfg, w.db.purchases[id], plan(3).raw, plan(3).now, plan(2).expiresAt);
            d.run.Ended? && d.w.sent == w.sent && d.w.db == w.db.(grants := w.db.grants[GrantId(id) := g])
  {
    var p := w.db.purchases[id];
    var g := NewGrant(cfg, p, plan(3).raw, plan(3).now, plan(2).expiresAt);
    assert p.id == id;
    ReachGrant(cfg, w, e, id, plan);
    GrantFits(cfg, w, p, g);
    RowFits(cfg, w, InsertGrant(w.db, g).value, p.(status := AccessIssued));
    ReachSend(cfg, w, e, p, g, plan(2).link, plan(3).raw, plan);
  }

  /** One that can get no grant leaves everything as it was. */
  lemma NoGrant(cfg: Config, w: World, e: string, id: string, plan: Plan)
    requires Sound(cfg, w) && id in w.db.purchases && !Grantable(cfg, w.db, id, plan(3).raw)
    requires forall j: nat | j < 7 :: plan(j).outcome.Served?
    ensures var d := Drive(cfg, w, Issue(LoadPurchase(e, id)), plan, 0); d.run.Ended? && d.w == w
  {
    var p := w.db.purchases[id];
    var g := NewGrant(cfg, p, plan(3).raw, plan(3).now, plan(2).expiresAt);
    assert p.id == id;
    ReachGrant(cfg, w, e, id, plan);
    GrantFits(cfg, w, p, g);
    if p.contentId in w.db.contents && w.db.contents[p.contentId].CanBePurchased() {
      CreateFails(cfg, w, e, p, g, plan(2).link, plan(3).raw, plan);
    }
  }

  /** For a purchase that is not healthy the run ends with an error before the send. It leaves the tables as they
      were, unless the purchase is not paid but could get a grant: then it has one, whose link is not sent. */
  lemma UnhealthyServed(cfg: Config, w: World, e: string, id: string, plan: Plan)
    requires Sound(cfg, w) && id in w.db.purchases && !Healthy(cfg, w.db, id, plan(3).raw)
    requires forall j: nat | j < 7 :: plan(j).outcome.Served?
    ensures var d := Drive(cfg, w, Issue(LoadPurchase(e, id)), plan, 0);
            var g := NewGrant(cfg, w.db.purchases[id], plan(3).raw, plan(3).now, plan(2).expiresAt);
            && d.run.Ended? && d.w.sent == w.sent
            && d.w.db == (if Grantable(cfg, w.db, id, plan(3).raw) then w.db.(grants := w.db.grants[GrantId(id) := g])
                          else w.db)
  {
    if Grantable(cfg, w.db, id, plan(3).raw) {
      GrantWithoutLink(cfg, w, e, id, plan);
    } else {
      NoGrant(cfg, w, e, id, plan);
    }
  }

  /** An issue run whose calls up to the status update are served gets to the send exactly for a
      healthy purchase, and then leaves the grant and the status access_issued behind whether or
      not the send succeeds. */
  lemma IssueServed(cfg: Config, w: World, e: string, id: string, plan: Plan)
    requires Sound(cfg, w) && id in w.db.purchases && forall j: nat | j < 7 :: plan(j).outcome.Served?
    ensures var d := Drive(cfg, w, Issue(LoadPurchase(e, id)), plan, 0);
            var p := w.db.purchases[id];
            && (d.run.Ended? <==> !Healthy(cfg, w.db, id, plan(3).raw) || !plan(7).outcome.Served?)
            && (Healthy(cfg, w.db, id, plan(3).raw) ==>
                  && d.w.db.purchases == w.db.purchases[id := p.(status := AccessIssued)]
                  && d.w.db.grants
                     == w.db.grants[GrantId(id) := NewGrant(cfg, p, plan(3).raw, plan(3).now, plan(2).expiresAt)]
                  && d.w.db.outbox == w.db.outbox)
  {
    if Healthy(cfg, w.db, id, plan(3).raw) {
      HealthyServed(cfg, w, e, id, plan);
    } else {
      UnhealthyServed(cfg, w, e, id, plan);
    }
  }

  lemma FlagChanges(outbox: seq<OutboxRow>, e: OutboxRow)
    requires e in outbox && !e.published
    ensures Flagged(outbox, e.id) != outbox
  {
    var i :| 0 <= i < |outbox| && outbox[i] == e;
    assert Flagged(outbox, e.id)[i].published;
  }

  lemma WaitingExists(cfg: Config, w: World, e: OutboxRow)
    requires Sound(cfg, w) && Waiting(w.db, e)
    ensures e.purchaseId in w.db.purchases && e.kind == CONFIRMED
  {
    var i :| 0 <= i < |w.db.outbox| && w.db.outbox[i] == e;
    assert Settled(w.db, w.db.outbox[i].purchaseId);
  }

  /** With every call served, handling an unpublished event publishes it if and only if its purchase is
      healthy: paid, purchasable, and without a grant. */
  lemma PublishedIffHealthy(cfg: Config, w: World, e: OutboxRow, plan: Plan)
    requires Sound(cfg, w) && Waiting(w.db, e) && forall j: nat :: plan(j).outcome.Served?
    ensures HandleEvent(cfg, w, e, plan).db.outbox
            == if Healthy(cfg, w.db, e.purchaseId, plan(3).raw) then Flagged(w.db.outbox, e.id) else w.db.outbox
    ensures Flagged(w.db.outbox, e.id) != w.db.outbox
  {
    WaitingExists(cfg, w, e);
    FlagChanges(w.db.outbox, e);
    IssueServed(cfg, w, e.id, e.purchaseId, plan);
    DriveIssueOutbox(cfg, w, LoadPurchase(e.id, e.purchaseId), plan, 0);
  }

  /** One failed send is final: the purchase says access_issued, its event stays unpublished, and by
      WedgedForever no continuation will ever send the link again. */
  lemma FailedSendWedges(cfg: Config, w: World, i: nat, plan: Plan, h: History)
    requires Sound(cfg, w) && i < |w.db.outbox| && !w.db.outbox[i].published
    requires forall j: nat | j < 7 :: plan(j).outcome.Served?
    requires !plan(7).outcome.Served? && Healthy(cfg, w.db, w.db.outbox[i].purchaseId, plan(3).raw)
    ensures var v := HandleEvent(cfg, w, w.db.outbox[i], plan); var id := w.db.outbox[i].purchaseId;
            Wedged(Sys(v, map[], h), i) && id in v.db.purchases && v.db.purchases[id].status == AccessIssued
  {
    WaitingExists(cfg, w, w.db.outbox[i]);
    IssueServed(cfg, w, w.db.outbox[i].id, w.db.outbox[i].purchaseId, plan);
  }
}
