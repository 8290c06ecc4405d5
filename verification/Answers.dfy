/** What starting, confirming and redeeming answer, and exactly what they leave in the tables, for every plan
    of the environment; told field by field, without the steps of the handlers. */
module Answers {
  import opened Text
  import opened Domain
  import opened Tables
  import opened Protocol
  import opened Invariants
  import opened Delivery
  import opened Serial
  import opened Redelivery
  import opened SerialResults

  /** The i-th call of a plan is served. */
  predicate Works(plan: Plan, i: nat) {
    plan(i).outcome.Served?
  }

  /** It takes effect, although its caller may see an error. */
  predicate Effective(plan: Plan, i: nat) {
    !plan(i).outcome.Refused?
  }

  predicate Offered(db: Db, contentId: string) {
    contentId in db.contents && db.contents[contentId].active && db.contents[contentId].price > 0
  }

  // ---------- start purchase ----------

  /** Why a purchase is not even attempted. Nothing changes then. */
  lemma StartRefused(cfg: Config, w: World, user: int, content: string, plan: Plan)
    requires !Works(plan, 0) || !Offered(w.db, content) || !Works(plan, 1)
    ensures Drive(cfg, w, Start(FindContent(user, content)), plan, 0)
            == Next(w, Ended(Failed(if !Works(plan, 0) || content !in w.db.contents then ContentNotFound
                                    else if !Offered(w.db, content) then ContentInactive
                                    else CallFailed)))
  {
    var n := StartStep(w, FindContent(user, content), plan(0));
    assert Drive(cfg, w, Start(FindContent(user, content)), plan, 0) == Drive(cfg, n.w, n.run, plan, 1);
    if n.run.Start? {
      var m := StartStep(w, MakeId(user, content, w.db.contents[content].price), plan(1));
      assert Drive(cfg, n.w, n.run, plan, 1) == Drive(cfg, m.w, m.run, plan, 2);
    }
  }

  /** A row as a purchase begins: for this user and content at this price, pending, uncharged and unpaid. */
  predicate Begun(p: Purchase, id: string, user: int, content: string, price: int, now: Time) {
    && p.id == id && p.userId == user && p.contentId == content && p.status == Pending
    && p.payload == InvoicePayload(content, id, user) && p.chargeId == "" && p.stars == price
    && p.createdAt == now && p.paidAt == None && p.attempts == 0 && p.lastError == ""
    && p.lastIssueAt == None && p.reviewAt == None
  }

  /** The handler up to its insert. */
  lemma StartInserts(cfg: Config, w: World, user: int, content: string, plan: Plan) returns (p: Purchase)
    requires Works(plan, 0) && Offered(w.db, content) && Works(plan, 1)
    ensures Begun(p, plan(1).newId, user, content, w.db.contents[content].price, plan(1).now)
    ensures Drive(cfg, w, Start(FindContent(user, content)), plan, 0) == Drive(cfg, w, Start(Insert(p)), plan, 2)
  {
    p := NewPurchase(plan(1).newId, user, content, w.db.contents[content].price, plan(1).now);
    var n := StartStep(w, FindContent(user, content), plan(0));
    assert Drive(cfg, w, Start(FindContent(user, content)), plan, 0) == Drive(cfg, n.w, n.run, plan, 1);
    var m := StartStep(w, MakeId(user, content, w.db.contents[content].price), plan(1));
    assert Drive(cfg, n.w, n.run, plan, 1) == Drive(cfg, m.w, m.run, plan, 2);
  }

  lemma InsertEnds(cfg: Config, w: World, p: Purchase, plan: Plan)
    ensures var d := Drive(cfg, w, Start(Insert(p)), plan, 2); var n := StartStep(w, Insert(p), plan(2)); d == n
  {
    var n := StartStep(w, Insert(p), plan(2));
    assert Drive(cfg, w, Start(Insert(p)), plan, 2) == Drive(cfg, n.w, n.run, plan, 3);
  }

  /** A new pending row is refused exactly when its id is taken: the payload of another id is another one. */
  lemma NewRowFits(cfg: Config, w: World, p: Purchase)
    requires Sound(cfg, w) && p.chargeId == "" && Invoiced(p)
    ensures InsertPurchase(w.db, p).Some? <==> p.id !in w.db.purchases
  {
    if p.id !in w.db.purchases {
      forall id | id in w.db.purchases && id != p.id
        ensures !Conflicts(p, w.db.purchases[id])
      {
        if p.payload == w.db.purchases[id].payload {
          InvoiceUnique(p, w.db.purchases[id]);
        }
      }
    }
  }

  /** A purchase of what is offered: unless the id is taken, exactly one row is added, with the price that the
      content has at this moment, and answered with that price; and nothing else changes. */
  lemma StartServed(cfg: Config, w: World, user: int, content: string, plan: Plan) returns (p: Purchase)
    requires Sound(cfg, w) && Works(plan, 0) && Offered(w.db, content) && Works(plan, 1)
    ensures Begun(p, plan(1).newId, user, content, w.db.contents[content].price, plan(1).now)
    ensures var d := Drive(cfg, w, Start(FindContent(user, content)), plan, 0);
            var added := plan(1).newId !in w.db.purchases && Effective(plan, 2);
            && d.w == w.(db := w.db.(purchases := if added then w.db.purchases[plan(1).newId := p]
                                                  else w.db.purchases))
            && d.run == Ended(if plan(1).newId !in w.db.purchases && Works(plan, 2)
                              then Started(plan(1).newId, InvoicePayload(content, plan(1).newId, user),
                                           w.db.contents[content].price)
                              else Failed(CallFailed))
  {
    p := StartInserts(cfg, w, user, content, plan);
    InsertEnds(cfg, w, p, plan);
    NewRowFits(cfg, w, p);
  }

  // ---------- confirm payment ----------

  /** The row as a payment leaves it: paid with this charge at this time, and otherwise as it was. */
  predicate PaidFrom(q: Purchase, p: Purchase, charge: string, now: Time) {
    && q.status == Paid && q.chargeId == charge && q.paidAt == Some(now)
    && q.id == p.id && q.userId == p.userId && q.contentId == p.contentId && q.payload == p.payload
    && q.stars == p.stars && q.createdAt == p.createdAt && q.attempts == p.attempts && q.lastError == p.lastError
    && q.lastIssueAt == p.lastIssueAt && q.reviewAt == p.reviewAt
  }

  ghost predicate Invoices(db: Db, payload: string, p: Purchase) {
    p.payload == payload && exists id :: id in db.purchases && db.purchases[id] == p
  }

  /** Why a delivery does not get to its update, and what is answered. Nothing changes then. */
  lemma DeliveryRefused(cfg: Config, w: World, ev: Event, plan: Plan)
    requires ev.chargeId == "" || !Works(plan, 0) || ev.chargeId in w.db.processed || !Works(plan, 1)
             || forall id | id in w.db.purchases :: w.db.purchases[id].payload != ev.payload
    ensures Drive(cfg, w, Confirm(CheckKey(ev)), plan, 0)
            == Next(w, Ended(if ev.chargeId == "" then Failed(EmptyChargeId)
                             else if !Works(plan, 0) then Failed(CallFailed)
                             else if ev.chargeId in w.db.processed then Accepted
                             else Failed(PurchaseNotFound)))
  {
    var n := ConfirmStep(w, CheckKey(ev), plan(0));
    assert Drive(cfg, w, Confirm(CheckKey(ev)), plan, 0) == Drive(cfg, n.w, n.run, plan, 1);
    if n.run.Confirm? {
      var m := ConfirmStep(w, FindPurchase(ev), plan(1));
      assert Drive(cfg, n.w, n.run, plan, 1) == Drive(cfg, m.w, m.run, plan, 2);
    }
  }

  lemma DeliveryFinds(cfg: Config, w: World, ev: Event, plan: Plan, p: Purchase)
    requires ev.chargeId != "" && Works(plan, 0) && ev.chargeId !in w.db.processed && Works(plan, 1)
    requires FindByPayload(w.db, ev.payload) == Some(p)
    ensures var d := Drive(cfg, w, Confirm(CheckKey(ev)), plan, 0);
            if p.status != Pending then d == Next(w, Ended(Failed(InvalidTransition)))
            else exists q :: PaidFrom(q, p, ev.chargeId, plan(1).now)
                             && d == Drive(cfg, w, Confirm(StorePaid(ev, q)), plan, 2)
  {
    var n := ConfirmStep(w, CheckKey(ev), plan(0));
    assert Drive(cfg, w, Confirm(CheckKey(ev)), plan, 0) == Drive(cfg, n.w, n.run, plan, 1);
    var m := ConfirmStep(w, FindPurchase(ev), plan(1));
    assert Drive(cfg, n.w, n.run, plan, 1) == Drive(cfg, m.w, m.run, plan, 2);
    if p.status == Pending {
      assert PaidFrom(m.run.confirm.copy, p, ev.chargeId, plan(1).now);
    }
  }

  /** The last call: the key. */
  lemma KeyStored(cfg: Config, w: World, ev: Event, q: Purchase, plan: Plan)
    ensures Drive(cfg, w, Confirm(StoreKey(ev, q)), plan, 5)
            == Next(if Effective(plan, 5) then w.(db := w.db.(processed := w.db.processed + {ev.chargeId})) else w,
                    Ended(if Works(plan, 5) then Accepted else Failed(CallFailed)))
  {
    var n := ConfirmStep(w, StoreKey(ev, q), plan(5));
    assert Drive(cfg, w, Confirm(StoreKey(ev, q)), plan, 5) == Drive(cfg, n.w, n.run, plan, 6);
  }

  ghost predicate IdFree(db: Db, id: string) {
    forall i | 0 <= i < |db.outbox| :: db.outbox[i].id != id
  }

  /** The event before it: for this purchase, of the type the worker knows, unpublished, and last. */
  lemma EventStored(cfg: Config, w: World, ev: Event, q: Purchase, plan: Plan)
    ensures var d := Drive(cfg, w, Confirm(Publish(ev, q)), plan, 4);
            var id := DecimalNat(plan(4).nano) + "-" + q.id;
            var row := OutboxRow(id, "purchase_confirmed", q.id, false);
            var v := if IdFree(w.db, id) && Effective(plan, 4)
                     then w.(db := w.db.(outbox := w.db.outbox + [row])) else w;
            d == if IdFree(w.db, id) && Works(plan, 4) then Drive(cfg, v, Confirm(StoreKey(ev, q)), plan, 5)
                 else Next(v, Ended(Failed(CallFailed)))
  {
    var n := ConfirmStep(w, Publish(ev, q), plan(4));
    assert Drive(cfg, w, Confirm(Publish(ev, q)), plan, 4) == Drive(cfg, n.w, n.run, plan, 5);
  }

  /** The log entry before that: an older one of the charge stays. */
  lemma PaymentLogged(cfg: Config, w: World, ev: Event, q: Purchase, plan: Plan)
    ensures var d := Drive(cfg, w, Confirm(LogEvent(ev, q)), plan, 3);
            var payments := if ev.chargeId in w.db.payments then w.db.payments else w.db.payments[ev.chargeId := ev];
            var v := if Effective(plan, 3) then w.(db := w.db.(payments := payments)) else w;
            d == if Works(plan, 3) then Drive(cfg, v, Confirm(Publish(ev, q)), plan, 4)
                 else Next(v, Ended(Failed(CallFailed)))
  {
    var n := ConfirmStep(w, LogEvent(ev, q), plan(3));
    assert Drive(cfg, w, Confirm(LogEvent(ev, q)), plan, 3) == Drive(cfg, n.w, n.run, plan, 4);
  }

  ghost predicate ChargeFree(db: Db, q: Purchase) {
    forall id | id in db.purchases && id != q.id ::
      db.purchases[id].payload != q.payload && (q.chargeId == "" || db.purchases[id].chargeId != q.chargeId)
  }

  /** And the row first of all. */
  lemma RowStored(cfg: Config, w: World, ev: Event, q: Purchase, plan: Plan)
    requires q.id in w.db.purchases
    ensures var d := Drive(cfg, w, Confirm(StorePaid(ev, q)), plan, 2);
            var v := if ChargeFree(w.db, q) && Effective(plan, 2)
                     then w.(db := w.db.(purchases := w.db.purchases[q.id := q])) else w;
            d == if ChargeFree(w.db, q) && Works(plan, 2) then Drive(cfg, v, Confirm(LogEvent(ev, q)), plan, 3)
                 else Next(v, Ended(Failed(CallFailed)))
  {
    assert ChargeFree(w.db, q) <==> FitsAmong(w.db, q);
    var n := ConfirmStep(w, StorePaid(ev, q), plan(2));
    assert Drive(cfg, w, Confirm(StorePaid(ev, q)), plan, 2) == Drive(cfg, n.w, n.run, plan, 3);
  }

  /** A pending purchase, a new charge, a new event id and all calls served: answered with success, with the row,
      the log entry, the event and the key all there. */
  lemma PaymentConfirmed(cfg: Config, w: World, ev: Event, plan: Plan, p: Purchase) returns (q: Purchase)
    requires Sound(cfg, w) && p.id in w.db.purchases && w.db.purchases[p.id] == p && p.status == Pending
    requires ev.chargeId != "" && ev.payload == p.payload && ev.chargeId !in w.db.processed
    requires forall id | id in w.db.purchases :: w.db.purchases[id].chargeId != ev.chargeId
    requires IdFree(w.db, DecimalNat(plan(4).nano) + "-" + p.id) && forall i: nat | i < 6 :: Works(plan, i)
    ensures PaidFrom(q, p, ev.chargeId, plan(1).now)
    ensures var d := Drive(cfg, w, Confirm(CheckKey(ev)), plan, 0); var db := d.w.db;
            && d.run == Ended(Accepted) && d.w == w.(db := db)
            && db.grants == w.db.grants && db.contents == w.db.contents
            && db.purchases == w.db.purchases[p.id := q]
            && db.payments == (if ev.chargeId in w.db.payments then w.db.payments else w.db.payments[ev.chargeId := ev])
            && db.outbox
               == w.db.outbox + [OutboxRow(DecimalNat(plan(4).nano) + "-" + p.id, "purchase_confirmed", p.id, false)]
            && db.processed == w.db.processed + {ev.chargeId}
  {
    PayloadFinds(w.db, p.id);
    DeliveryFinds(cfg, w, ev, plan, p);
    q :| PaidFrom(q, p, ev.chargeId, plan(1).now)
         && Drive(cfg, w, Confirm(CheckKey(ev)), plan, 0) == Drive(cfg, w, Confirm(StorePaid(ev, q)), plan, 2);
    NewChargeFits(cfg, w, p, q);
    StoresAll(cfg, w, ev, q, plan);
  }

  lemma NewChargeFits(cfg: Config, w: World, p: Purchase, q: Purchase)
    requires Sound(cfg, w) && p.id in w.db.purchases && w.db.purchases[p.id] == p
    requires q.id == p.id && q.payload == p.payload
    requires forall id | id in w.db.purchases :: w.db.purchases[id].chargeId != q.chargeId
    ensures ChargeFree(w.db, q)
  {
    forall id | id in w.db.purchases && id != q.id
      ensures w.db.purchases[id].payload != q.payload
    {
      if w.db.purchases[id].payload == q.payload {
        InvoiceUnique(w.db.purchases[id], p);
      }
    }
  }

  lemma StoresAll(cfg: Config, w: World, ev: Event, q: Purchase, plan: Plan)
    requires q.id in w.db.purchases && ChargeFree(w.db, q) && IdFree(w.db, DecimalNat(plan(4).nano) + "-" + q.id)
    requires Works(plan, 2) && Works(plan, 3) && Works(plan, 4) && Works(plan, 5)
    ensures var row := OutboxRow(DecimalNat(plan(4).nano) + "-" + q.id, "purchase_confirmed", q.id, false);
            var payments := if ev.chargeId in w.db.payments then w.db.payments else w.db.payments[ev.chargeId := ev];
            Drive(cfg, w, Confirm(StorePaid(ev, q)), plan, 2)
            == Next(w.(db := w.db.(purchases := w.db.purchases[q.id := q], payments := payments,
                                   outbox := w.db.outbox + [row], processed := w.db.processed + {ev.chargeId})),
                    Ended(Accepted))
  {
    var payments := if ev.chargeId in w.db.payments then w.db.payments else w.db.payments[ev.chargeId := ev];
    var row := OutboxRow(DecimalNat(plan(4).nano) + "-" + q.id, "purchase_confirmed", q.id, false);
    RowStored(cfg, w, ev, q, plan);
    var w1 := w.(db := w.db.(purchases := w.db.purchases[q.id := q]));
    PaymentLogged(cfg, w1, ev, q, plan);
    var w2 := w1.(db := w1.db.(payments := payments));
    EventStored(cfg, w2, ev, q, plan);
    KeyStored(cfg, w2.(db := w2.db.(outbox := w2.db.outbox + [row])), ev, q, plan);
  }

  /** Success is answered only with the key stored. */
  lemma AcceptedIsProcessed(cfg: Config, w: World, ev: Event, plan: Plan)
    requires Drive(cfg, w, Confirm(CheckKey(ev)), plan, 0).run == Ended(Accepted)
    ensures ev.chargeId in Drive(cfg, w, Confirm(CheckKey(ev)), plan, 0).w.db.processed
  {
    var n := ConfirmStep(w, CheckKey(ev), plan(0));
    assert Drive(cfg, w, Confirm(CheckKey(ev)), plan, 0) == Drive(cfg, n.w, n.run, plan, 1);
    if n.run.Confirm? {
      var m := ConfirmStep(w, FindPurchase(ev), plan(1));
      assert Drive(cfg, n.w, n.run, plan, 1) == Drive(cfg, m.w, m.run, plan, 2);
      if m.run.Confirm? {
        StoredIsProcessed(cfg, w, ev, m.run.confirm.copy, plan);
      }
    }
  }

  lemma StoredIsProcessed(cfg: Config, w: World, ev: Event, q: Purchase, plan: Plan)
    requires Drive(cfg, w, Confirm(StorePaid(ev, q)), plan, 2).run == Ended(Accepted)
    ensures ev.chargeId in Drive(cfg, w, Confirm(StorePaid(ev, q)), plan, 2).w.db.processed
  {
    var n := ConfirmStep(w, StorePaid(ev, q), plan(2));
    assert Drive(cfg, w, Confirm(StorePaid(ev, q)), plan, 2) == Drive(cfg, n.w, n.run, plan, 3);
    PaymentLogged(cfg, n.w, ev, q, plan);
    var m := ConfirmStep(n.w, LogEvent(ev, q), plan(3));
    assert Drive(cfg, n.w, n.run, plan, 3) == Drive(cfg, m.w, m.run, plan, 4);
    var l := ConfirmStep(m.w, Publish(ev, q), plan(4));
    assert Drive(cfg, m.w, m.run, plan, 4) == Drive(cfg, l.w, l.run, plan, 5);
    KeyStored(cfg, l.w, ev, q, plan);
  }

  /** From empty tables on: after a delivery that was answered with success, and whatever is served next, every
      delivery of that charge whose check of the key is served is answered with success, and changes nothing. */
  lemma AcceptedForGood(cfg: Config, s: Sys, early: seq<Command>, ev: Event, plan: Plan, late: seq<Command>,
                        again: Event, next: Plan)
    requires Initial(s) && again.chargeId == ev.chargeId && Works(next, 0)
    requires Drive(cfg, ServeAll(cfg, s.w, early), Confirm(CheckKey(ev)), plan, 0).run == Ended(Accepted)
    ensures var v := ServeAll(cfg, Serve(cfg, ServeAll(cfg, s.w, early), ConfirmPayment(ev, plan)), late);
            Drive(cfg, v, Confirm(CheckKey(again)), next, 0) == Next(v, Ended(Accepted))
  {
    var w := ServeAll(cfg, s.w, early);
    var u := Serve(cfg, w, ConfirmPayment(ev, plan));
    SoundReachable(cfg, s, early);
    AcceptedIsProcessed(cfg, w, ev, plan);
    ServeSound(cfg, w, ConfirmPayment(ev, plan));
    ServeAllKeeps(cfg, u, late);
    ChargeNamed(cfg, w, ev, plan);
    DeliveryRefused(cfg, ServeAll(cfg, u, late), again, next);
  }

  lemma ChargeNamed(cfg: Config, w: World, ev: Event, plan: Plan)
    requires Drive(cfg, w, Confirm(CheckKey(ev)), plan, 0).run == Ended(Accepted)
    ensures ev.chargeId != ""
  {
    if ev.chargeId == "" {
      DeliveryRefused(cfg, w, ev, plan);
    }
  }

  // ---------- use access ----------

  ghost predicate Named(db: Db, g: Grant, hash: string) {
    g.tokenHash == hash && g.id in db.grants && db.grants[g.id] == g
  }

  /** A token that no grant has, or that cannot be looked up. */
  lemma TokenUnknown(cfg: Config, w: World, token: string, plan: Plan)
    requires !Works(plan, 1) || forall id | id in w.db.grants :: w.db.grants[id].tokenHash != cfg.hash(token)
    ensures Drive(cfg, w, Use(PeekCache(token)), plan, 0) == Next(w, Ended(Failed(InvalidToken)))
  {
    var r := Use(FindGrant(token));
    assert Drive(cfg, w, Use(PeekCache(token)), plan, 0) == Drive(cfg, w, r, plan, 1);
    var n := UseStep(cfg, w, FindGrant(token), plan(1));
    assert Drive(cfg, w, r, plan, 1) == Drive(cfg, n.w, n.run, plan, 2);
  }

  /** The grant, used at this time; and the cache without the token, as far as there is one that obeys. */
  function AfterUse(cfg: Config, w: World, g: Grant, plan: Plan): World {
    var marked := if Effective(plan, 2) && g.id in w.db.grants && w.db.grants[g.id].usedAt == None
                  then w.db.grants[g.id := w.db.grants[g.id].(usedAt := Some(plan(2).now))] else w.db.grants;
    var forgotten := Works(plan, 2) && cfg.hasCache && !plan(3).cacheOutcome.Refused?;
    w.(db := w.db.(grants := marked), cache := if forgotten then w.cache - {g.tokenHash} else w.cache)
  }

  /** The whole answer to a token that is looked up and known. */
  lemma TokenAnswered(cfg: Config, w: World, token: string, plan: Plan, g: Grant)
    requires GrantsOk(w.db) && HashesUnique(w.db) && Named(w.db, g, cfg.hash(token)) && Works(plan, 1)
    ensures var d := Drive(cfg, w, Use(PeekCache(token)), plan, 0);
            if g.usedAt.Some? then d == Next(w, Ended(Failed(TokenUsed)))
            else if plan(1).now > g.expiresAt then d == Next(w, Ended(Failed(TokenExpired)))
            else d == Next(AfterUse(cfg, w, g, plan),
                           Ended(if Works(plan, 2) then Redeemed(g.purchaseId, g.userId) else Failed(CallFailed)))
  {
    var r := Use(FindGrant(token));
    assert FindByHash(w.db, cfg.hash(token)) == Some(g);
    assert Drive(cfg, w, Use(PeekCache(token)), plan, 0) == Drive(cfg, w, r, plan, 1);
    var n := UseStep(cfg, w, FindGrant(token), plan(1));
    assert Drive(cfg, w, r, plan, 1) == Drive(cfg, n.w, n.run, plan, 2);
    if n.run.Use? {
      TokenMarked(cfg, w, token, plan, g);
    }
  }

  lemma TokenMarked(cfg: Config, w: World, token: string, plan: Plan, g: Grant)
    requires g.tokenHash == cfg.hash(token)
    ensures Drive(cfg, w, Use(MarkGrant(token, g)), plan, 2)
            == Next(AfterUse(cfg, w, g, plan),
                    Ended(if Works(plan, 2) then Redeemed(g.purchaseId, g.userId) else Failed(CallFailed)))
  {
    var n := UseStep(cfg, w, MarkGrant(token, g), plan(2));
    assert Drive(cfg, w, Use(MarkGrant(token, g)), plan, 2) == Drive(cfg, n.w, n.run, plan, 3);
    if n.run.Use? {
      var m := UseStep(cfg, n.w, ForgetToken(token, g), plan(3));
      assert Drive(cfg, n.w, n.run, plan, 3) == Drive(cfg, m.w, m.run, plan, 4);
    }
  }
}
