/** Executions that show where a guarantee ends, and with them the exact conditions. */
module Witnesses {
  import opened Text
  import opened Domain
  import opened Tables
  import opened Protocol
  import opened Invariants
  import opened Delivery
  import opened Serial
  import opened Redelivery
  import opened Completion
  import opened Redemption

  ghost predicate Reaches(cfg: Config, s: Sys, t: Sys) {
    exists ls :: Exec(cfg, s, ls) == t
  }

  lemma ReachesBy(cfg: Config, s: Sys, ls: seq<Label>)
    ensures Reaches(cfg, s, Exec(cfg, s, ls))
  {
  }

  lemma ReachesStep(cfg: Config, s: Sys, t: Sys, l: Label)
    requires Reaches(cfg, s, t)
    ensures Reaches(cfg, s, Step(cfg, t, l))
  {
    var ls :| Exec(cfg, s, ls) == t;
    ExecConcat(cfg, s, ls, [l]);
    assert [l][1..] == [];
    assert Exec(cfg, t, [l]) == Step(cfg, t, l);
    ReachesBy(cfg, s, ls + [l]);
  }

  lemma ReachesDrive(cfg: Config, s: Sys, t: Sys, k: nat, plan: Plan) returns (u: Sys)
    requires Reaches(cfg, s, t) && k in t.runs
    ensures Reaches(cfg, s, u)
    ensures var d := Drive(cfg, t.w, t.runs[k], plan, 0); u.w == d.w && u.runs == t.runs[k := d.run]
  {
    var ls :| Exec(cfg, s, ls) == t;
    var more := DriveIsOrderly(cfg, t, k, plan, 0);
    u := Exec(cfg, t, more);
    ExecConcat(cfg, s, ls, more);
    ReachesBy(cfg, s, ls + more);
  }

  // ---------- the shop the examples play in ----------

  const ITEM := Content("c", "c", "title", "", 5, true)
  const BUYER := 7

  function ServedWith(raw: string): Choice {
    Choice(Served, Served, 1, 0, "p", "link", 2, raw, "")
  }

  const CALL := ServedWith("raw")

  function AllServed(): Plan {
    (i: nat) => CALL
  }

  const CATALOG := Db(map[], map[], map[], {}, [], map["c" := ITEM])

  const SHOP := Sys(World(CATALOG, map[], []), map[], History(0, map[], [], {}, []))

  const ORDERED := NewPurchase("p", BUYER, "c", 5, 1)

  lemma StartServed(cfg: Config, w: World)
    requires w.db.purchases == map[] && w.db.contents == map["c" := ITEM]
    ensures Drive(cfg, w, Start(FindContent(BUYER, "c")), AllServed(), 0)
            == Next(w.(db := w.db.(purchases := map["p" := ORDERED])), Ended(Started("p", ORDERED.payload, 5)))
  {
    var r1 := Start(MakeId(BUYER, "c", 5));
    assert Drive(cfg, w, Start(FindContent(BUYER, "c")), AllServed(), 0) == Drive(cfg, w, r1, AllServed(), 1);
    var r2 := Start(Insert(ORDERED));
    assert Drive(cfg, w, r1, AllServed(), 1) == Drive(cfg, w, r2, AllServed(), 2);
    assert map["p" := ORDERED] == w.db.purchases["p" := ORDERED];
    var n := RunStep(cfg, w, r2, CALL);
    assert Drive(cfg, w, r2, AllServed(), 2) == Drive(cfg, n.w, n.run, AllServed(), 3);
  }

  /** A shop with one pending order. */
  lemma OrderedShop(cfg: Config) returns (t: Sys)
    ensures Reaches(cfg, SHOP, t) && t.w == SHOP.w.(db := SHOP.w.db.(purchases := map["p" := ORDERED]))
    ensures forall k | k in t.runs :: k == 0
  {
    ReachesBy(cfg, SHOP, []);
    assert Exec(cfg, SHOP, []) == SHOP;
    ReachesStep(cfg, SHOP, SHOP, Spawn(0, Start(FindContent(BUYER, "c"))));
    var u := Step(cfg, SHOP, Spawn(0, Start(FindContent(BUYER, "c"))));
    StartServed(cfg, u.w);
    t := ReachesDrive(cfg, SHOP, u, 0, AllServed());
  }

  // ---------- retry accounting ----------

  /** Retry accounting holds in every reachable state exactly when at least one retry is configured:
      with a limit of zero or less a fresh pending purchase has used up its attempts already. */
  lemma RetryAccountingExact(cfg: Config)
    ensures cfg.maxRetries >= 1 <==> forall s, ls | Initial(s) :: AllAccounted(cfg, Exec(cfg, s, ls))
  {
    if cfg.maxRetries >= 1 {
      forall s, ls | Initial(s)
        ensures AllAccounted(cfg, Exec(cfg, s, ls))
      {
        RetryAccounting(cfg, s, ls);
      }
    } else {
      var t := OrderedShop(cfg);
      var ls :| Exec(cfg, SHOP, ls) == t;
      assert t.w.db.purchases["p"] == ORDERED;
      assert !ORDERED.Accounted(cfg.maxRetries);
      assert Initial(SHOP) && !AllAccounted(cfg, Exec(cfg, SHOP, ls));
    }
  }

  // ---------- racing redemptions ----------

  /** A redemption brought up to its mark, while the grant is unused and not past its expiry. */
  lemma BringToMark(cfg: Config, s: Sys, t: Sys, k: nat, token: string, id: string, c: Choice) returns (u: Sys)
    requires Reaches(cfg, s, t) && k !in t.runs && c.outcome.Served?
    requires HashesUnique(t.w.db) && id in t.w.db.grants && t.w.db.grants[id].id == id
    requires t.w.db.grants[id].tokenHash == cfg.hash(token)
    requires t.w.db.grants[id].usedAt.None? && c.now <= t.w.db.grants[id].expiresAt
    ensures Reaches(cfg, s, u) && u.w == t.w && u.h.accepted == t.h.accepted
    ensures u.runs == t.runs[k := Use(MarkGrant(token, t.w.db.grants[id]))]
  {
    var t1 := Step(cfg, t, Spawn(k, Use(PeekCache(token))));
    ReachesStep(cfg, s, t, Spawn(k, Use(PeekCache(token))));
    var t2 := Step(cfg, t1, Advance(k, c));
    ReachesStep(cfg, s, t1, Advance(k, c));
    assert t2.w == t.w && t2.runs[k] == Use(FindGrant(token));
    u := Step(cfg, t2, Advance(k, c));
    ReachesStep(cfg, s, t2, Advance(k, c));
    assert u.runs == t.runs[k := Use(MarkGrant(token, t.w.db.grants[id]))];
  }

  lemma Mark(cfg: Config, s: Sys, t: Sys, k: nat, token: string, g: Grant, c: Choice) returns (u: Sys)
    requires Reaches(cfg, s, t) && k in t.runs && t.runs[k] == Use(MarkGrant(token, g)) && c.outcome.Served?
    ensures Reaches(cfg, s, u) && u.runs == t.runs[k := Use(ForgetToken(token, g))]
    ensures |u.h.accepted| == |t.h.accepted| + 1 && u.h.accepted[..|t.h.accepted|] == t.h.accepted
    ensures u.h.accepted[|t.h.accepted|].grantId == g.id
  {
    u := Step(cfg, t, Advance(k, c));
    ReachesStep(cfg, s, t, Advance(k, c));
  }

  /** Redemptions that do not take turns: from any state with an unused grant, two of them can read it
      before either marks it, and both are accepted. */
  lemma BothAccepted(cfg: Config, s: Sys, t: Sys, a: nat, b: nat, token: string, id: string, c: Choice) returns (u: Sys)
    requires Reaches(cfg, s, t) && a != b && a !in t.runs && b !in t.runs && c.outcome.Served?
    requires HashesUnique(t.w.db) && id in t.w.db.grants && t.w.db.grants[id].id == id
    requires t.w.db.grants[id].tokenHash == cfg.hash(token)
    requires t.w.db.grants[id].usedAt.None? && c.now <= t.w.db.grants[id].expiresAt
    ensures Reaches(cfg, s, u) && |u.h.accepted| == |t.h.accepted| + 2
    ensures u.h.accepted[|t.h.accepted|].grantId == id && u.h.accepted[|t.h.accepted| + 1].grantId == id
  {
    var g := t.w.db.grants[id];
    var t1 := BringToMark(cfg, s, t, a, token, id, c);
    var t2 := BringToMark(cfg, s, t1, b, token, id, c);
    var t3 := Mark(cfg, s, t2, a, token, g, c);
    u := Mark(cfg, s, t3, b, token, g, c);
    assert u.h.accepted[|t.h.accepted|] == t3.h.accepted[|t.h.accepted|];
  }

  // ---------- overlapping confirmations ----------

  function Payment(charge: string): Event {
    Event(charge, 5, ORDERED.payload, "", 1)
  }

  function PaidCopy(charge: string): Purchase {
    ORDERED.(status := Paid, chargeId := charge, paidAt := Some(1))
  }

  lemma OrderFound(w: World, charge: string)
    requires w.db.purchases == map["p" := ORDERED] && charge != ""
    ensures ConfirmStep(w, FindPurchase(Payment(charge)), CALL)
            == Next(w, Confirm(StorePaid(Payment(charge), PaidCopy(charge))))
  {
    assert w.db.purchases["p"].payload == Payment(charge).payload;
    FindByPayloadOk(w.db, Payment(charge).payload);
  }

  /** A confirmation brought up to its update while the order is still pending. */
  lemma BringToUpdate(cfg: Config, t: Sys, k: nat, charge: string) returns (u: Sys)
    requires Reaches(cfg, SHOP, t) && k !in t.runs && charge != "" && charge !in t.w.db.processed
    requires t.w.db.purchases == map["p" := ORDERED]
    ensures Reaches(cfg, SHOP, u) && u.w == t.w
    ensures u.runs == t.runs[k := Confirm(StorePaid(Payment(charge), PaidCopy(charge)))]
  {
    var ev := Payment(charge);
    var t1 := Step(cfg, t, Spawn(k, Confirm(CheckKey(ev))));
    ReachesStep(cfg, SHOP, t, Spawn(k, Confirm(CheckKey(ev))));
    var t2 := Step(cfg, t1, Advance(k, CALL));
    ReachesStep(cfg, SHOP, t1, Advance(k, CALL));
    assert t2.w == t.w && t2.runs[k] == Confirm(FindPurchase(ev));
    OrderFound(t.w, charge);
    u := Step(cfg, t2, Advance(k, CALL));
    ReachesStep(cfg, SHOP, t2, Advance(k, CALL));
    assert u.runs[k] == Confirm(StorePaid(ev, PaidCopy(charge)));
    assert u.runs == t.runs[k := Confirm(StorePaid(ev, PaidCopy(charge)))];
  }

  lemma PublishServed(cfg: Config, w: World, charge: string)
    requires w.db.outbox == []
    ensures var ev, p := Payment(charge), PaidCopy(charge);
            var d := Drive(cfg, w, Confirm(Publish(ev, p)), AllServed(), 2).w;
            && d.db.purchases == w.db.purchases && d.db.contents == w.db.contents && d.db.grants == w.db.grants
            && d.db.outbox == [OutboxRow(EventId(0, "p"), CONFIRMED, "p", false)]
  {
    var ev, p, plan := Payment(charge), PaidCopy(charge), AllServed();
    var u := w.(db := AppendEvent(w.db, EventId(0, "p"), "p").value);
    assert Drive(cfg, w, Confirm(Publish(ev, p)), plan, 2) == Drive(cfg, u, Confirm(StoreKey(ev, p)), plan, 3);
    var n := RunStep(cfg, u, Confirm(StoreKey(ev, p)), CALL);
    assert Drive(cfg, u, Confirm(StoreKey(ev, p)), plan, 3) == Drive(cfg, n.w, n.run, plan, 4);
  }

  /** The rest of a confirmation with every call served. */
  lemma ConfirmServed(cfg: Config, w: World, charge: string)
    requires w.db.purchases == map["p" := ORDERED] && w.db.outbox == []
    ensures var d := Drive(cfg, w, Confirm(StorePaid(Payment(charge), PaidCopy(charge))), AllServed(), 0).w;
            && d.db.purchases == map["p" := PaidCopy(charge)]
            && d.db.contents == w.db.contents && d.db.grants == w.db.grants
            && d.db.outbox == [OutboxRow(EventId(0, "p"), CONFIRMED, "p", false)]
  {
    var ev, p, plan := Payment(charge), PaidCopy(charge), AllServed();
    var u := w.(db := w.db.(purchases := w.db.purchases["p" := p]));
    assert FitsAmong(w.db, p);
    assert Drive(cfg, w, Confirm(StorePaid(ev, p)), plan, 0) == Drive(cfg, u, Confirm(LogEvent(ev, p)), plan, 1);
    var v := u.(db := LogPayment(u.db, ev));
    assert Drive(cfg, u, Confirm(LogEvent(ev, p)), plan, 1) == Drive(cfg, v, Confirm(Publish(ev, p)), plan, 2);
    PublishServed(cfg, v, charge);
    assert w.db.purchases["p" := p] == map["p" := p];
  }

  lemma ReachedSound(cfg: Config, t: Sys)
    requires Reaches(cfg, SHOP, t)
    ensures Sound(cfg, t.w)
  {
    var ls :| Exec(cfg, SHOP, ls) == t;
    Reachable(cfg, SHOP, ls);
    ExecInvoices(cfg, SHOP, ls);
  }

  /** The system with two confirmations of one invoice at their updates, the first then completed. */
  lemma TwoConfirmations(cfg: Config) returns (t: Sys)
    ensures Reaches(cfg, SHOP, t)
    ensures t.w.db.purchases == map["p" := PaidCopy("c1")] && t.w.db.contents == map["c" := ITEM]
    ensures t.w.db.grants == map[]
    ensures t.w.db.outbox == [OutboxRow(EventId(0, "p"), CONFIRMED, "p", false)]
    ensures 2 in t.runs && t.runs[2] == Confirm(StorePaid(Payment("c2"), PaidCopy("c2")))
    ensures forall k | k in t.runs :: k <= 2
  {
    var t0 := OrderedShop(cfg);
    var t1 := BringToUpdate(cfg, t0, 1, "c1");
    var t2 := BringToUpdate(cfg, t1, 2, "c2");
    ConfirmServed(cfg, t2.w, "c1");
    t := ReachesDrive(cfg, SHOP, t2, 1, AllServed());
  }

  /** The grant of the order in the shop. */
  function OrderGrant(cfg: Config): Grant {
    NewGrant(cfg, PaidCopy("c1"), "raw", 1, 2)
  }

  /** The issue run of the order begins, alone but for what is in flight. */
  lemma SpawnedIssue(cfg: Config) returns (t: Sys)
    ensures Reaches(cfg, SHOP, t)
    ensures t.w.db.purchases == map["p" := PaidCopy("c1")] && t.w.db.contents == map["c" := ITEM]
    ensures t.w.db.grants == map[]
    ensures 2 in t.runs && t.runs[2] == Confirm(StorePaid(Payment("c2"), PaidCopy("c2")))
    ensures 3 in t.runs && t.runs[3] == Issue(LoadPurchase(EventId(0, "p"), "p")) && forall k | k in t.runs :: k <= 3
  {
    var t1 := TwoConfirmations(cfg);
    var r := Issue(LoadPurchase(EventId(0, "p"), "p"));
    assert t1.w.db.outbox[0] == OutboxRow(EventId(0, "p"), CONFIRMED, "p", false);
    t := Step(cfg, t1, Spawn(3, r));
    ReachesStep(cfg, SHOP, t1, Spawn(3, r));
    assert t.runs == t1.runs[3 := r] && t.w == t1.w;
  }

  lemma OrderHealthy(cfg: Config, db: Db)
    requires db.purchases == map["p" := PaidCopy("c1")] && db.contents == map["c" := ITEM] && db.grants == map[]
    ensures Healthy(cfg, db, "p", "raw")
  {
  }

  lemma OneEntry<V>(k: string, a: V, b: V)
    ensures map[k := a][k := b] == map[k := b]
  {
  }

  lemma FirstGrant(k: string, g: Grant, t: map<string, Grant>)
    requires t == map[]
    ensures t[k := g] == map[k := g]
  {
  }

  /** What issuing the order leaves behind. */
  lemma OrderIssued(cfg: Config, w: World)
    requires Sound(cfg, w) && w.db.purchases == map["p" := PaidCopy("c1")]
    requires w.db.contents == map["c" := ITEM] && w.db.grants == map[]
    ensures var db := Drive(cfg, w, Issue(LoadPurchase(EventId(0, "p"), "p")), AllServed(), 0).w.db;
            && db.purchases == map["p" := PaidCopy("c1").(status := AccessIssued)]
            && db.grants == map[GrantId("p") := OrderGrant(cfg)]
  {
    OrderHealthy(cfg, w.db);
    HealthyServed(cfg, w, EventId(0, "p"), "p", AllServed());
    OneEntry("p", PaidCopy("c1"), PaidCopy("c1").(status := AccessIssued));
    FirstGrant(GrantId("p"), OrderGrant(cfg), w.db.grants);
  }

  /** The shop after the link of its order was sent, with the second confirmation still at its update. */
  lemma GrantedShop(cfg: Config) returns (t: Sys)
    ensures Reaches(cfg, SHOP, t)
    ensures t.w.db.purchases == map["p" := PaidCopy("c1").(status := AccessIssued)]
    ensures t.w.db.grants == map[GrantId("p") := OrderGrant(cfg)]
    ensures 2 in t.runs && t.runs[2] == Confirm(StorePaid(Payment("c2"), PaidCopy("c2")))
    ensures forall k | k in t.runs :: k <= 3
  {
    var t1 := SpawnedIssue(cfg);
    ReachedSound(cfg, t1);
    OrderIssued(cfg, t1.w);
    t := ReachesDrive(cfg, SHOP, t1, 3, AllServed());
  }

  /** Without the one-confirmation rule the status machine does not hold: two payments of one invoice,
      confirmed at the same time, can move a purchase from access_issued back to paid, under another charge. */
  lemma StatusCanRegress(cfg: Config) returns (t: Sys, u: Sys)
    ensures Reaches(cfg, SHOP, t) && Reaches(cfg, SHOP, u) && u == Step(cfg, t, Advance(2, CALL))
    ensures "p" in t.w.db.purchases && t.w.db.purchases["p"].status == AccessIssued
    ensures t.w.db.purchases["p"].chargeId == "c1"
    ensures "p" in u.w.db.purchases && u.w.db.purchases["p"].status == Paid && u.w.db.purchases["p"].chargeId == "c2"
  {
    t := GrantedShop(cfg);
    assert FitsAmong(t.w.db, PaidCopy("c2"));
    u := Step(cfg, t, Advance(2, CALL));
    ReachesStep(cfg, SHOP, t, Advance(2, CALL));
  }

  // ---------- racing redemptions of the order's token ----------

  lemma NothingAccepted(cfg: Config, t: Sys)
    requires Reaches(cfg, SHOP, t) && forall id | id in t.w.db.grants :: t.w.db.grants[id].usedAt.None?
    ensures t.h.accepted == []
  {
    var ls :| Exec(cfg, SHOP, ls) == t;
    ExecRedemptions(cfg, SHOP, ls);
    assert |t.h.accepted| > 0 ==> Used(t.w.db, t.h.accepted[0].grantId);
  }

  /** In the running system, from empty tables on: two redemptions of one token, both accepted. */
  lemma TokenAcceptedTwice(cfg: Config) returns (u: Sys)
    ensures Reaches(cfg, SHOP, u) && |u.h.accepted| == 2
    ensures u.h.accepted[0].grantId == GrantId("p") && u.h.accepted[1].grantId == GrantId("p")
  {
    var t := GrantedShop(cfg);
    NothingAccepted(cfg, t);
    u := BothAccepted(cfg, SHOP, t, 4, 5, "raw", GrantId("p"), CALL);
  }
}
