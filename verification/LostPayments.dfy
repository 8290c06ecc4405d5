/** Payments lost in serial execution, told from the plans of the deliveries alone. */
module LostPayments {
  import opened Text
  import opened Domain
  import opened Tables
  import opened Protocol
  import opened Invariants
  import opened Effects
  import opened Serial
  import opened Redelivery
  import opened OutboxProgress
  import opened Backlog

  /** Paid for, and not in the outbox. */
  ghost predicate Lost(db: Db, id: string) {
    Settled(db, id) && !InOutbox(db, id)
  }

  /** The purchase as a delivery is about to store it, if it gets that far. */
  ghost function Paying(db: Db, ev: Event, plan: Plan): Option<Purchase> {
    if ev.chargeId == "" || !plan(0).outcome.Served? || ev.chargeId in db.processed then None
    else if !plan(1).outcome.Served? then None
    else match FindByPayload(db, ev.payload)
      case None => None
      case Some(p) =>
        match p.MarkPaid(ev.chargeId, plan(1).now)
        case Err(_) => None
        case Ok(q) => Some(q)
  }

  /** Its update takes effect. */
  ghost predicate Stores(db: Db, q: Purchase, plan: Plan) {
    UpdatePurchase(db, q).Some? && !plan(2).outcome.Refused?
  }

  /** The handler gets to its publish, and the publish takes effect. */
  ghost predicate Publishes(db: Db, q: Purchase, plan: Plan) {
    plan(2).outcome.Served? && plan(3).outcome.Served?
    && AppendEvent(db, EventId(plan(4).nano, q.id), q.id).Some? && !plan(4).outcome.Refused?
  }

  /** The purchase that a delivery stores as paid without publishing it. */
  ghost function CutBy(db: Db, cmd: Command): set<string> {
    if !cmd.ConfirmPayment? then {}
    else match Paying(db, cmd.ev, cmd.plan)
      case None => {}
      case Some(q) => if Stores(db, q, cmd.plan) && !Publishes(db, q, cmd.plan) then {q.id} else {}
  }

  ghost function CutByAll(cfg: Config, w: World, cmds: seq<Command>): set<string>
    decreases |cmds|
  {
    if cmds == [] then {} else CutBy(w.db, cmds[0]) + CutByAll(cfg, Serve(cfg, w, cmds[0]), cmds[1..])
  }

  // ---------- one delivery, call by call ----------

  /** What a delivery has done to purchases and outbox from its publish on. */
  lemma PublishTail(cfg: Config, w: World, ev: Event, q: Purchase, plan: Plan)
    ensures var db := Drive(cfg, w, Confirm(Publish(ev, q)), plan, 4).w.db;
            var added := AppendEvent(w.db, EventId(plan(4).nano, q.id), q.id);
            && db.purchases == w.db.purchases
            && db.outbox == if added.Some? && !plan(4).outcome.Refused? then added.value.outbox else w.db.outbox
  {
    var n := ConfirmStep(w, Publish(ev, q), plan(4));
    assert Drive(cfg, w, Confirm(Publish(ev, q)), plan, 4) == Drive(cfg, n.w, n.run, plan, 5);
    if n.run.Confirm? {
      var m := ConfirmStep(n.w, StoreKey(ev, q), plan(5));
      assert Drive(cfg, n.w, n.run, plan, 5) == Drive(cfg, m.w, m.run, plan, 6);
    }
  }

  lemma LogTail(cfg: Config, w: World, ev: Event, q: Purchase, plan: Plan)
    ensures var db := Drive(cfg, w, Confirm(LogEvent(ev, q)), plan, 3).w.db;
            var added := AppendEvent(w.db, EventId(plan(4).nano, q.id), q.id);
            && db.purchases == w.db.purchases
            && db.outbox == if plan(3).outcome.Served? && added.Some? && !plan(4).outcome.Refused?
                            then added.value.outbox else w.db.outbox
  {
    var n := ConfirmStep(w, LogEvent(ev, q), plan(3));
    assert Drive(cfg, w, Confirm(LogEvent(ev, q)), plan, 3) == Drive(cfg, n.w, n.run, plan, 4);
    if n.run.Confirm? {
      PublishTail(cfg, n.w, ev, q, plan);
    }
  }

  lemma StoreTail(cfg: Config, w: World, ev: Event, q: Purchase, plan: Plan)
    requires q.id in w.db.purchases
    ensures var db := Drive(cfg, w, Confirm(StorePaid(ev, q)), plan, 2).w.db;
            && db.purchases == (if Stores(w.db, q, plan) then w.db.purchases[q.id := q] else w.db.purchases)
            && db.outbox == if Stores(w.db, q, plan) && Publishes(w.db, q, plan)
                            then AppendEvent(w.db, EventId(plan(4).nano, q.id), q.id).value.outbox else w.db.outbox
  {
    var n := ConfirmStep(w, StorePaid(ev, q), plan(2));
    assert Drive(cfg, w, Confirm(StorePaid(ev, q)), plan, 2) == Drive(cfg, n.w, n.run, plan, 3);
    if n.run.Confirm? {
      LogTail(cfg, n.w, ev, q, plan);
    }
  }

  /** A delivery changes nothing, or goes on to store the purchase it found. */
  lemma CourseOfDelivery(cfg: Config, w: World, ev: Event, plan: Plan)
    ensures var d := Drive(cfg, w, Confirm(CheckKey(ev)), plan, 0);
            match Paying(w.db, ev, plan)
            case None => d.w == w
            case Some(q) => d == Drive(cfg, w, Confirm(StorePaid(ev, q)), plan, 2)
  {
    var n := ConfirmStep(w, CheckKey(ev), plan(0));
    assert Drive(cfg, w, Confirm(CheckKey(ev)), plan, 0) == Drive(cfg, n.w, n.run, plan, 1);
    if n.run.Confirm? {
      var m := ConfirmStep(w, FindPurchase(ev), plan(1));
      assert Drive(cfg, n.w, n.run, plan, 1) == Drive(cfg, m.w, m.run, plan, 2);
    }
  }

  /** A purchase about to be paid for is pending, so it is neither paid nor in the outbox. */
  lemma PayingPending(cfg: Config, w: World, ev: Event, plan: Plan)
    requires PurchasesOk(cfg, w.db) && OutboxOk(w.db) && Paying(w.db, ev, plan).Some?
    ensures var q := Paying(w.db, ev, plan).value;
            q.id in w.db.purchases && q.status == Paid && !Settled(w.db, q.id) && !InOutbox(w.db, q.id)
  {
    FindByPayloadOk(w.db, ev.payload);
  }

  lemma DeliveryLost(cfg: Config, w: World, ev: Event, plan: Plan, id: string)
    requires PurchasesOk(cfg, w.db) && OutboxOk(w.db)
    ensures var cmd := ConfirmPayment(ev, plan);
            Lost(Serve(cfg, w, cmd).db, id) <==> Lost(w.db, id) || id in CutBy(w.db, cmd)
  {
    CourseOfDelivery(cfg, w, ev, plan);
    if Paying(w.db, ev, plan).Some? {
      var q := Paying(w.db, ev, plan).value;
      PayingPending(cfg, w, ev, plan);
      StoreTail(cfg, w, ev, q, plan);
      AppendedLost(w.db, EventId(plan(4).nano, q.id), q.id, id);
    }
  }

  lemma AppendedLost(db: Db, e: string, q: string, id: string)
    ensures AppendEvent(db, e, q).Some? ==> (InOutbox(AppendEvent(db, e, q).value, id) <==> InOutbox(db, id) || id == q)
  {
    if AppendEvent(db, e, q).Some? {
      var t := AppendEvent(db, e, q).value;
      assert t.outbox[|db.outbox|].purchaseId == q;
      assert forall i | 0 <= i < |db.outbox| :: t.outbox[i] == db.outbox[i];
    }
  }

  // ---------- the other commands ----------

  lemma OtherStep(cfg: Config, w: World, r: Run, c: Choice, id: string)
    requires RunOk(cfg, w.db, r) && !r.Confirm? && !r.Issue?
    ensures var n := RunStep(cfg, w, r, c);
            && n.w.db.outbox == w.db.outbox && !n.run.Confirm? && !n.run.Issue?
            && (Settled(n.w.db, id) <==> Settled(w.db, id))
  {
    StepEffect(cfg, w, r, c);
  }

  lemma {:induction false} OtherDrive(cfg: Config, w: World, r: Run, plan: Plan, i: nat, id: string)
    requires WorldOk(cfg, w) && RunOk(cfg, w.db, r) && !r.Confirm? && !r.Issue?
    ensures var db := Drive(cfg, w, r, plan, i).w.db;
            db.outbox == w.db.outbox && (Settled(db, id) <==> Settled(w.db, id))
    decreases CallsLeft(r)
  {
    if !Returned(r) {
      var n := RunStep(cfg, w, r, plan(i));
      CallsDescend(cfg, w, r, plan(i));
      OtherStep(cfg, w, r, plan(i), id);
      RunAdvances(cfg, w, r, plan(i));
      OtherDrive(cfg, n.w, n.run, plan, i + 1, id);
    }
  }

  lemma SameOutbox(a: Db, b: Db, id: string)
    requires |a.outbox| == |b.outbox|
    requires forall i | 0 <= i < |a.outbox| :: b.outbox[i].purchaseId == a.outbox[i].purchaseId
    ensures InOutbox(a, id) <==> InOutbox(b, id)
  {
    if InOutbox(a, id) {
      var i :| 0 <= i < |a.outbox| && a.outbox[i].purchaseId == id;
      assert b.outbox[i].purchaseId == id;
    }
    if InOutbox(b, id) {
      var i :| 0 <= i < |b.outbox| && b.outbox[i].purchaseId == id;
      assert a.outbox[i].purchaseId == id;
    }
  }

  /** A tick works on purchases in the outbox only. */
  lemma TickLost(cfg: Config, w: World, plans: nat -> Plan, id: string)
    requires KeysMatch(w.db)
    ensures Lost(Tick(cfg, w, Served, plans).db, id) <==> Lost(w.db, id)
  {
    var events := Oldest(Unpublished(w.db.outbox), 20);
    TickOutbox(cfg, w, plans);
    SameOutbox(w.db, Tick(cfg, w, Served, plans).db, id);
    if !InOutbox(w.db, id) {
      forall j | 0 <= j < |events|
        ensures events[j].purchaseId != id
      {
        UnpublishedRows(w.db.outbox);
        assert events[j] in Unpublished(w.db.outbox);
      }
      ForeignBatch(cfg, w, events, plans, 0, id);
    }
  }

  lemma HandlerLost(cfg: Config, w: World, r: Run, plan: Plan, id: string)
    requires Sound(cfg, w) && Spawnable(w, r) && !r.Confirm? && !r.Issue?
    ensures Lost(Drive(cfg, w, r, plan, 0).w.db, id) <==> Lost(w.db, id)
  {
    OtherDrive(cfg, w, r, plan, 0, id);
  }

  lemma OtherLost(cfg: Config, w: World, cmd: Command, id: string)
    requires Sound(cfg, w) && !cmd.ConfirmPayment? && !IsTick(cmd)
    ensures Lost(Serve(cfg, w, cmd).db, id) <==> Lost(w.db, id)
  {
    match cmd
    case StartPurchase(userId, contentId, plan) => HandlerLost(cfg, w, Start(FindContent(userId, contentId)), plan, id);
    case UseAccess(token, plan) => HandlerLost(cfg, w, Use(PeekCache(token)), plan, id);
    case OutboxTick(_, _) =>
    case EditCatalog(_, _) =>
    case EvictTokens(_) =>
  }

  lemma CommandLost(cfg: Config, w: World, cmd: Command, id: string)
    requires Sound(cfg, w)
    ensures Lost(Serve(cfg, w, cmd).db, id) <==> Lost(w.db, id) || id in CutBy(w.db, cmd)
  {
    if cmd.ConfirmPayment? {
      DeliveryLost(cfg, w, cmd.ev, cmd.plan, id);
    } else if IsTick(cmd) {
      TickLost(cfg, w, cmd.plans, id);
    } else {
      OtherLost(cfg, w, cmd, id);
    }
  }

  /** A payment is lost exactly by a delivery whose update takes effect while its publish does not. */
  lemma {:induction false} LostExactlyByPlans(cfg: Config, w: World, cmds: seq<Command>, id: string)
    requires Sound(cfg, w)
    ensures Lost(ServeAll(cfg, w, cmds).db, id) <==> Lost(w.db, id) || id in CutByAll(cfg, w, cmds)
    decreases |cmds|
  {
    if cmds != [] {
      CommandLost(cfg, w, cmds[0], id);
      ServeSound(cfg, w, cmds[0]);
      LostExactlyByPlans(cfg, Serve(cfg, w, cmds[0]), cmds[1..], id);
    }
  }
}
