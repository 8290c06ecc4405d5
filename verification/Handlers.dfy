/** The use-case handlers and the outbox processor, statement by statement, proved to do to the
    tables exactly what the step machines of the protocol do when driven alone. */
module Handlers {
  import opened Text
  import opened Domain
  import opened Tables
  import opened Protocol
  import opened Serial
  import opened Completion
  import S = Store

  lemma DriveStep(cfg: Config, w: World, r: Run, plan: Plan, i: nat)
    ensures var n := RunStep(cfg, w, r, plan(i));
            Drive(cfg, w, r, plan, i) == if Returned(r) then Next(w, r) else Drive(cfg, n.w, n.run, plan, i + 1)
  {
  }

  // ---------- start purchase ----------

  method StartPurchase(store: S.Store, cfg: Config, userId: int, contentId: string, plan: Plan) returns (reply: Reply)
    requires store.Valid()
    modifies store
    ensures store.Valid()
    ensures Drive(cfg, old(store.World()), Start(FindContent(userId, contentId)), plan, 0)
            == Next(store.World(), Ended(reply))
  {
    ghost var w := store.World();
    DriveStep(cfg, w, Start(FindContent(userId, contentId)), plan, 0);
    var content := store.GetContent(contentId, plan(0));
    if content.None? {
      return Failed(ContentNotFound);
    }
    if !content.value.CanBePurchased() {
      return Failed(ContentInactive);
    }
    DriveStep(cfg, w, Start(MakeId(userId, contentId, content.value.price)), plan, 1);
    if !plan(1).outcome.Served? {
      return Failed(CallFailed);
    }
    var id := plan(1).newId;
    var payload := InvoicePayload(contentId, id, userId);
    var price := content.value.price;
    var p := Purchase(id, userId, contentId, Pending, payload, "", price, plan(1).now, None, 0, "", None, None);
    DriveStep(cfg, w, Start(Insert(p)), plan, 2);
    var ok := store.CreatePurchase(p, plan(2));
    if !ok {
      return Failed(CallFailed);
    }
    return Started(id, payload, content.value.price);
  }

  // ---------- confirm payment ----------

  method ConfirmPayment(store: S.Store, cfg: Config, ev: Event, plan: Plan) returns (reply: Reply)
    requires store.Valid()
    modifies store
    ensures store.Valid()
    ensures Drive(cfg, old(store.World()), Confirm(CheckKey(ev)), plan, 0) == Next(store.World(), Ended(reply))
  {
    ghost var w := store.World();
    DriveStep(cfg, w, Confirm(CheckKey(ev)), plan, 0);
    if ev.chargeId == "" {
      return Failed(EmptyChargeId);
    }
    var ok, processed := store.IsProcessed(ev.chargeId, plan(0));
    if !ok {
      return Failed(CallFailed);
    }
    if processed {
      return Accepted;
    }
    DriveStep(cfg, w, Confirm(FindPurchase(ev)), plan, 1);
    var loaded := store.GetByPayload(ev.payload, plan(1));
    if loaded.None? {
      return Failed(PurchaseNotFound);
    }
    var p := new PurchaseRecord(loaded.value);
    var paid := p.MarkPaid(ev.chargeId, plan(1).now);
    if paid.Err? {
      return Failed(paid.failure);
    }
    reply := StorePayment(store, cfg, ev, p.Value(), plan);
  }

  /** The four writes that make a payment durable, each of which may be the last. */
  method StorePayment(store: S.Store, cfg: Config, ev: Event, p: Purchase, plan: Plan) returns (reply: Reply)
    requires store.Valid()
    modifies store
    ensures store.Valid()
    ensures Drive(cfg, old(store.World()), Confirm(StorePaid(ev, p)), plan, 2) == Next(store.World(), Ended(reply))
  {
    ghost var d := Drive(cfg, store.World(), Confirm(StorePaid(ev, p)), plan, 2);
    DriveStep(cfg, store.World(), Confirm(StorePaid(ev, p)), plan, 2);
    var ok := store.UpdatePurchase(p, plan(2));
    if !ok {
      return Failed(CallFailed);
    }
    assert d == Drive(cfg, store.World(), Confirm(LogEvent(ev, p)), plan, 3);
    reply := LogPaid(store, cfg, ev, p, plan);
  }

  lemma KeyDriven(cfg: Config, w: World, ev: Event, p: Purchase, plan: Plan)
    ensures Drive(cfg, w, Confirm(StoreKey(ev, p)), plan, 5)
            == Next(Written(w, AddKey(w.db, ev.chargeId), plan(5)),
                    Ended(if plan(5).outcome.Served? then Accepted else Failed(CallFailed)))
  {
    DriveStep(cfg, w, Confirm(StoreKey(ev, p)), plan, 5);
    var n := ConfirmStep(w, StoreKey(ev, p), plan(5));
    DriveStep(cfg, n.w, n.run, plan, 6);
  }

  method LogPaid(store: S.Store, cfg: Config, ev: Event, p: Purchase, plan: Plan) returns (reply: Reply)
    requires store.Valid()
    modifies store
    ensures store.Valid()
    ensures Drive(cfg, old(store.World()), Confirm(LogEvent(ev, p)), plan, 3) == Next(store.World(), Ended(reply))
  {
    ghost var d := Drive(cfg, store.World(), Confirm(LogEvent(ev, p)), plan, 3);
    DriveStep(cfg, store.World(), Confirm(LogEvent(ev, p)), plan, 3);
    var ok := store.SavePaymentEvent(ev, plan(3));
    if !ok {
      return Failed(CallFailed);
    }
    assert d == Drive(cfg, store.World(), Confirm(Publish(ev, p)), plan, 4);
    DriveStep(cfg, store.World(), Confirm(Publish(ev, p)), plan, 4);
    ok := store.PublishPurchaseConfirmed(p.id, plan(4));
    if !ok {
      return Failed(CallFailed);
    }
    assert d == Drive(cfg, store.World(), Confirm(StoreKey(ev, p)), plan, 5);
    KeyDriven(cfg, store.World(), ev, p, plan);
    ok := store.MarkProcessed(ev.chargeId, plan(5));
    return if ok then Accepted else Failed(CallFailed);
  }

  // ---------- issue access ----------

  /** What the handler returns for the run it leaves: an error, or none when only MarkPublished is left. */
  predicate Answers(err: Option<Failure>, run: Run) {
    match err
    case Some(f) => run == Ended(Failed(f))
    case None => run.Issue? && run.issue.FlagEvent?
  }

  method IssueAccess(store: S.Store, cfg: Config, ghost eventId: string, purchaseId: string, plan: Plan)
    returns (err: Option<Failure>)
    requires store.Valid()
    modifies store
    ensures store.Valid()
    ensures var d := Drive(cfg, old(store.World()), Issue(LoadPurchase(eventId, purchaseId)), plan, 0);
            store.World() == d.w && Answers(err, d.run)
  {
    ghost var w := store.World();
    ghost var d := Drive(cfg, w, Issue(LoadPurchase(eventId, purchaseId)), plan, 0);
    DriveStep(cfg, w, Issue(LoadPurchase(eventId, purchaseId)), plan, 0);
    var loaded := store.GetPurchase(purchaseId, plan(0));
    if loaded.None? {
      return Some(PurchaseNotFound);
    }
    var p := new PurchaseRecord(loaded.value);
    DriveStep(cfg, w, Issue(LoadContent(eventId, loaded.value)), plan, 1);
    var content := store.GetContent(p.row.contentId, plan(1));
    if content.None? {
      return Some(ContentNotFound);
    }
    if !content.value.CanBePurchased() {
      return Some(ContentInactive);
    }
    assert d == Drive(cfg, w, Issue(AskProvider(eventId, p.Value(), content.value)), plan, 2);
    err := RequestLink(store, cfg, eventId, p, content.value, plan);
  }

  /** The provider call, and the retry accounting when it fails. */
  method RequestLink(store: S.Store, cfg: Config, ghost eventId: string, p: PurchaseRecord, ghost content: Content,
                     plan: Plan)
    returns (err: Option<Failure>)
    requires store.Valid()
    modifies store, p
    ensures store.Valid()
    ensures var d := Drive(cfg, old(store.World()), Issue(AskProvider(eventId, old(p.Value()), content)), plan, 2);
            store.World() == d.w && Answers(err, d.run)
  {
    ghost var d := Drive(cfg, store.World(), Issue(AskProvider(eventId, p.Value(), content)), plan, 2);
    DriveStep(cfg, store.World(), Issue(AskProvider(eventId, p.Value(), content)), plan, 2);
    if !plan(2).outcome.Served? {
      p.RegisterIssueAccessFailure(plan(2).message, plan(2).now, cfg.maxRetries);
      assert d == Drive(cfg, store.World(), Issue(StoreFailure(eventId, p.Value())), plan, 3);
      DriveStep(cfg, store.World(), Issue(StoreFailure(eventId, p.Value())), plan, 3);
      var _ := store.UpdatePurchase(p.Value(), plan(3));
      return Some(CallFailed);
    }
    assert d
        == Drive(cfg, store.World(), Issue(MakeToken(eventId, p.Value(), plan(2).link, plan(2).expiresAt)), plan, 3);
    err := GrantAccess(store, cfg, eventId, p, plan(2).link, plan(2).expiresAt, plan);
  }

  /** TokenService.Generate: a raw token and its hash. */
  method GenerateToken(cfg: Config, c: Choice) returns (ok: bool, raw: string, hash: string)
    ensures ok == c.outcome.Served? && raw == c.raw && hash == cfg.hash(raw)
  {
    return c.outcome.Served?, c.raw, cfg.hash(c.raw);
  }

  /** From the provider's link on: token, grant, cache. */
  method GrantAccess(store: S.Store, cfg: Config, ghost eventId: string, p: PurchaseRecord, link: string,
                     expiresAt: Time, plan: Plan)
    returns (err: Option<Failure>)
    requires store.Valid()
    modifies store, p
    ensures store.Valid()
    ensures var r := Issue(MakeToken(eventId, old(p.Value()), link, expiresAt));
            var d := Drive(cfg, old(store.World()), r, plan, 3);
            store.World() == d.w && Answers(err, d.run)
  {
    ghost var copy := p.Value();
    ghost var d := Drive(cfg, store.World(), Issue(MakeToken(eventId, copy, link, expiresAt)), plan, 3);
    DriveStep(cfg, store.World(), Issue(MakeToken(eventId, copy, link, expiresAt)), plan, 3);
    var ok, raw, hash := GenerateToken(cfg, plan(3));
    if !ok {
      return Some(CallFailed);
    }
    if hash == "" {
      hash := cfg.hash(raw);
    }
    var grant := Grant(GrantId(p.row.id), p.row.id, p.row.userId, hash, plan(3).now, expiresAt, None);
    assert d == Drive(cfg, store.World(), Issue(Protocol.CreateGrant(eventId, copy, grant, link, raw)), plan, 4);
    DriveStep(cfg, store.World(), Issue(Protocol.CreateGrant(eventId, copy, grant, link, raw)), plan, 4);
    ok := store.CreateGrant(grant, plan(4));
    if !ok {
      return Some(CallFailed);
    }
    assert d == Drive(cfg, store.World(), Issue(CacheToken(eventId, copy, grant, link, raw)), plan, 5);
    err := DeliverLink(store, cfg, eventId, p, grant, link, raw, plan);
  }

  /** Once the grant exists: cache, status, message. */
  method DeliverLink(store: S.Store, cfg: Config, ghost eventId: string, p: PurchaseRecord, grant: Grant, link: string,
                     raw: string, plan: Plan)
    returns (err: Option<Failure>)
    requires store.Valid() && grant.purchaseId == p.row.id
    modifies store, p
    ensures store.Valid()
    ensures var r := Issue(CacheToken(eventId, old(p.Value()), grant, link, raw));
            var d := Drive(cfg, old(store.World()), r, plan, 5);
            store.World() == d.w && Answers(err, d.run)
  {
    ghost var d := Drive(cfg, store.World(), Issue(CacheToken(eventId, p.Value(), grant, link, raw)), plan, 5);
    DriveStep(cfg, store.World(), Issue(CacheToken(eventId, p.Value(), grant, link, raw)), plan, 5);
    if cfg.hasCache {
      store.PutToken(grant.tokenHash, p.row.id, plan(5));
    }
    var issued := p.MarkAccessIssued();
    if issued.Err? {
      return Some(issued.failure);
    }
    assert d == Drive(cfg, store.World(), Issue(StoreIssued(eventId, p.Value(), grant, link, raw)), plan, 6);
    err := AnnounceAccess(store, cfg, eventId, p.Value(), grant, link, raw, plan);
  }

  method AnnounceAccess(store: S.Store, cfg: Config, ghost eventId: string, p: Purchase, ghost grant: Grant,
                        link: string, raw: string, plan: Plan)
    returns (err: Option<Failure>)
    requires store.Valid()
    modifies store
    ensures store.Valid()
    ensures var d := Drive(cfg, old(store.World()), Issue(StoreIssued(eventId, p, grant, link, raw)), plan, 6);
            store.World() == d.w && Answers(err, d.run)
  {
    ghost var d := Drive(cfg, store.World(), Issue(StoreIssued(eventId, p, grant, link, raw)), plan, 6);
    DriveStep(cfg, store.World(), Issue(StoreIssued(eventId, p, grant, link, raw)), plan, 6);
    var ok := store.UpdatePurchase(p, plan(6));
    if !ok {
      return Some(CallFailed);
    }
    assert d == Drive(cfg, store.World(), Issue(SendLink(eventId, p, grant, link, raw)), plan, 7);
    SendDriven(cfg, store.World(), eventId, p, grant, link, raw, plan);
    ok := store.SendAccessLink(p.id, p.userId, FinalLink(link, raw), raw, plan(7));
    if !ok {
      return Some(CallFailed);
    }
    return None;
  }

  // ---------- use access ----------

  lemma ForgetDriven(cfg: Config, w: World, token: string, g: Grant, plan: Plan)
    ensures Drive(cfg, w, Use(ForgetToken(token, g)), plan, 3)
            == Next(if !cfg.hasCache || plan(3).cacheOutcome.Refused? then w
                    else w.(cache := w.cache - {cfg.hash(token)}),
                    Ended(Redeemed(g.purchaseId, g.userId)))
  {
    DriveStep(cfg, w, Use(ForgetToken(token, g)), plan, 3);
    var n := UseStep(cfg, w, ForgetToken(token, g), plan(3));
    DriveStep(cfg, n.w, n.run, plan, 4);
  }

  method UseAccess(store: S.Store, cfg: Config, token: string, plan: Plan) returns (reply: Reply)
    requires store.Valid()
    modifies store
    ensures store.Valid()
    ensures Drive(cfg, old(store.World()), Use(PeekCache(token)), plan, 0) == Next(store.World(), Ended(reply))
  {
    var hash := cfg.hash(token);
    DriveStep(cfg, store.World(), Use(PeekCache(token)), plan, 0);
    if cfg.hasCache {
      var _ := store.PeekToken(hash, plan(0));
    }
    DriveStep(cfg, store.World(), Use(FindGrant(token)), plan, 1);
    var grant := store.GetByTokenHash(hash, plan(1));
    if grant.None? {
      return Failed(InvalidToken);
    }
    if grant.value.usedAt.Some? {
      return Failed(TokenUsed);
    }
    if plan(1).now > grant.value.expiresAt {
      return Failed(TokenExpired);
    }
    DriveStep(cfg, store.World(), Use(MarkGrant(token, grant.value)), plan, 2);
    var ok := store.MarkGrantUsed(grant.value.id, plan(2));
    if !ok {
      return Failed(CallFailed);
    }
    ForgetDriven(cfg, store.World(), token, grant.value, plan);
    if cfg.hasCache {
      store.DeleteToken(hash, plan(3));
    }
    return Redeemed(grant.value.purchaseId, grant.value.userId);
  }

  // ---------- the outbox processor ----------

  lemma BatchNext(cfg: Config, w: World, events: seq<OutboxRow>, plans: nat -> Plan, i: nat)
    requires i < |events|
    ensures HandleBatch(cfg, w, events, plans, i)
            == HandleBatch(cfg, HandleEvent(cfg, w, events[i], plans(i)), events, plans, i + 1)
  {
  }

  /** Handling an event is issuing access, and flagging the event unless that failed. */
  lemma HandleDriven(cfg: Config, w: World, e: OutboxRow, plan: Plan)
    requires e.kind == CONFIRMED
    ensures var d := Drive(cfg, w, Issue(LoadPurchase(e.id, e.purchaseId)), plan, 0);
            HandleEvent(cfg, w, e, plan)
            == if d.run.Ended? then d.w else Written(d.w, MarkPublished(d.w.db, e.id), plan(FLAG_CALL))
  {
    DriveIssueOutbox(cfg, w, LoadPurchase(e.id, e.purchaseId), plan, 0);
  }

  method RunOnce(store: S.Store, cfg: Config, fetch: Outcome, plans: nat -> Plan) returns (failed: bool)
    requires store.Valid()
    modifies store
    ensures store.Valid()
    ensures failed == !fetch.Served? && store.World() == Tick(cfg, old(store.World()), fetch, plans)
  {
    if !fetch.Served? {
      return true;
    }
    var events := store.UnpublishedEvents(BATCH);
    for i := 0 to |events|
      invariant store.Valid()
      invariant HandleBatch(cfg, old(store.World()), events, plans, 0)
                == HandleBatch(cfg, store.World(), events, plans, i)
    {
      var e := events[i];
      BatchNext(cfg, store.World(), events, plans, i);
      if e.kind == CONFIRMED {
        HandleDriven(cfg, store.World(), e, plans(i));
        var err := IssueAccess(store, cfg, e.id, e.purchaseId, plans(i));
        if err.Some? {
          continue;
        }
        store.MarkEventPublished(e.id, plans(i)(FLAG_CALL));
      }
    }
    return false;
  }
}
