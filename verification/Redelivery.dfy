/** Redelivered payment events, and handlers that stop half way, in serial execution. */
module Redelivery {
  import opened Text
  import opened Domain
  import opened Tables
  import opened Protocol
  import opened Invariants
  import opened Delivery
  import opened Serial

  /** The tables as serial execution leaves them between two commands. */
  ghost predicate Sound(cfg: Config, w: World) {
    BaseOk(cfg, Alone(w)) && AllInvoiced(Alone(w))
  }

  /** Nothing in flight. */
  function Alone(w: World): Sys {
    Sys(w, map[], History(0, map[], [], {}, []))
  }

  lemma SoundAlone(cfg: Config, t: Sys)
    requires BaseOk(cfg, t) && AllInvoiced(t) && t.runs == map[]
    ensures Sound(cfg, t.w)
  {
  }

  /** Whatever is realized by an execution from such tables to one with nothing in flight. */
  lemma RealizedSound(cfg: Config, w: World, ls: seq<Label>, v: World)
    requires Sound(cfg, w) && Realizes(cfg, Alone(w), ls, v, map[])
    ensures Sound(cfg, v) && Kept(w, v)
  {
    ExecKeeps(cfg, Alone(w), ls);
    ExecInvoices(cfg, Alone(w), ls);
    SoundAlone(cfg, Exec(cfg, Alone(w), ls));
  }

  lemma ServeSound(cfg: Config, w: World, cmd: Command)
    requires Sound(cfg, w)
    ensures Sound(cfg, Serve(cfg, w, cmd)) && Kept(w, Serve(cfg, w, cmd))
  {
    var ls := ServeIsOrderly(cfg, Alone(w), cmd);
    RealizedSound(cfg, w, ls, Serve(cfg, w, cmd));
  }

  lemma InitialSound(cfg: Config, s: Sys)
    requires Initial(s)
    ensures Sound(cfg, s.w)
  {
  }

  /** The event has had its effect: its charge is processed, or its invoice is paid. */
  ghost predicate Spent(db: Db, ev: Event) {
    ev.chargeId in db.processed || exists id :: Settled(db, id) && db.purchases[id].payload == ev.payload
  }

  lemma SpentKept(cfg: Config, a: World, b: World, ev: Event)
    requires Spent(a.db, ev) && Kept(a, b)
    ensures Spent(b.db, ev)
  {
    if ev.chargeId !in a.db.processed {
      var id :| Settled(a.db, id) && a.db.purchases[id].payload == ev.payload;
      assert Settled(b.db, id) && b.db.purchases[id].payload == ev.payload;
    }
  }

  lemma PaidInvoiceFound(cfg: Config, w: World, payload: string, id: string)
    requires Sound(cfg, w) && Settled(w.db, id) && w.db.purchases[id].payload == payload
    ensures FindByPayload(w.db, payload) == Some(w.db.purchases[id])
  {
    PayloadFinds(w.db, id);
  }

  lemma PaidRefused(w: World, ev: Event, c: Choice, p: Purchase)
    requires FindByPayload(w.db, ev.payload) == Some(p) && p.status != Pending
    ensures var m := ConfirmStep(w, FindPurchase(ev), c); m.w == w && m.run.Ended?
  {
  }

  lemma SpentFinds(cfg: Config, w: World, ev: Event, c: Choice)
    requires Sound(cfg, w) && Spent(w.db, ev) && ev.chargeId !in w.db.processed
    ensures var m := ConfirmStep(w, FindPurchase(ev), c); m.w == w && m.run.Ended?
  {
    var id :| Settled(w.db, id) && w.db.purchases[id].payload == ev.payload;
    PaidInvoiceFound(cfg, w, ev.payload, id);
    PaidRefused(w, ev, c, w.db.purchases[id]);
  }

  /** A delivery of a spent event leaves every table as it was. */
  lemma SpentIsInert(cfg: Config, w: World, ev: Event, plan: Plan)
    requires Sound(cfg, w) && Spent(w.db, ev)
    ensures Drive(cfg, w, Confirm(CheckKey(ev)), plan, 0).w == w
  {
    var n := ConfirmStep(w, CheckKey(ev), plan(0));
    assert Drive(cfg, w, Confirm(CheckKey(ev)), plan, 0) == Drive(cfg, n.w, n.run, plan, 1);
    if n.run.Confirm? {
      SpentFinds(cfg, w, ev, plan(1));
      var m := ConfirmStep(w, FindPurchase(ev), plan(1));
      assert Drive(cfg, n.w, n.run, plan, 1) == Drive(cfg, m.w, m.run, plan, 2);
    }
  }

  /** The commands without those of a kind. */
  function Without(cmds: seq<Command>, drop: Command -> bool): seq<Command> {
    if cmds == [] then [] else (if drop(cmds[0]) then [] else [cmds[0]]) + Without(cmds[1..], drop)
  }

  /** All deliveries of spent events, of whatever payments, can be removed from a serial execution without
      changing its final tables, however they fail. */
  lemma {:induction false} SpentRemovable(cfg: Config, w: World, cmds: seq<Command>, drop: Command -> bool)
    requires Sound(cfg, w) && forall c | c in cmds && drop(c) :: c.ConfirmPayment? && Spent(w.db, c.ev)
    ensures ServeAll(cfg, w, cmds) == ServeAll(cfg, w, Without(cmds, drop))
    decreases |cmds|
  {
    if cmds != [] {
      var next := Serve(cfg, w, cmds[0]);
      ServeSound(cfg, w, cmds[0]);
      forall c | c in cmds[1..] && drop(c)
        ensures c.ConfirmPayment? && Spent(next.db, c.ev)
      {
        assert c in cmds;
        SpentKept(cfg, w, next, c.ev);
      }
      SpentRemovable(cfg, next, cmds[1..], drop);
      if drop(cmds[0]) {
        assert cmds[0] in cmds;
        SpentIsInert(cfg, w, cmds[0].ev, cmds[0].plan);
        assert Without(cmds, drop) == Without(cmds[1..], drop);
      } else {
        assert Without(cmds, drop)[0] == cmds[0] && Without(cmds, drop)[1..] == Without(cmds[1..], drop);
      }
    }
  }

  /** A delivery of the same payment: the charge and the invoice, whatever else the event says. Each delivery
      is stamped with its own time. */
  predicate Redelivers(c: Command, ev: Event) {
    c.ConfirmPayment? && c.ev.chargeId == ev.chargeId && c.ev.payload == ev.payload
  }

  function WithoutRedeliveries(cmds: seq<Command>, ev: Event): seq<Command> {
    Without(cmds, (c: Command) => Redelivers(c, ev))
  }

  /** Once a payment is spent, removing all its later deliveries leads to the same final tables. */
  lemma RedeliveriesRemovable(cfg: Config, w: World, cmds: seq<Command>, ev: Event)
    requires Sound(cfg, w) && Spent(w.db, ev)
    ensures ServeAll(cfg, w, cmds) == ServeAll(cfg, w, WithoutRedeliveries(cmds, ev))
  {
    SpentRemovable(cfg, w, cmds, (c: Command) => Redelivers(c, ev));
  }

  // ---------- when an event becomes spent ----------

  lemma {:induction false} DriveKeeps(cfg: Config, w: World, r: Run, plan: Plan, i: nat)
    requires WorldOk(cfg, w) && RunOk(cfg, w.db, r)
    ensures Kept(w, Drive(cfg, w, r, plan, i).w)
    decreases CallsLeft(r)
  {
    if Returned(r) {
      KeptReflexive(w);
    } else {
      var n := RunStep(cfg, w, r, plan(i));
      CallsDescend(cfg, w, r, plan(i));
      RunAdvances(cfg, w, r, plan(i));
      DriveKeeps(cfg, n.w, n.run, plan, i + 1);
      KeptTransitive(w, n.w, Drive(cfg, n.w, n.run, plan, i + 1).w);
    }
  }

  /** A run past loading its purchase: once its update took effect the event is spent. */
  lemma StoreSpends(cfg: Config, w: World, ev: Event, p: Purchase, plan: Plan, i: nat)
    requires WorldOk(cfg, w) && ConfirmOk(cfg, w.db, StorePaid(ev, p))
    ensures var d := Drive(cfg, w, Confirm(StorePaid(ev, p)), plan, i);
            && (d.w != w ==> Spent(d.w.db, ev))
            && (d.run == Ended(Accepted) ==> Spent(d.w.db, ev))
  {
    var r := Confirm(StorePaid(ev, p));
    var n := RunStep(cfg, w, r, plan(i));
    assert Drive(cfg, w, r, plan, i) == Drive(cfg, n.w, n.run, plan, i + 1);
    RunAdvances(cfg, w, r, plan(i));
    if n.w == w && n.run.Ended? {
      assert Drive(cfg, n.w, n.run, plan, i + 1) == n;
    } else {
      assert UpdatePurchase(w.db, p).Some?;
      assert Settled(n.w.db, p.id) && n.w.db.purchases[p.id].payload == ev.payload;
      DriveKeeps(cfg, n.w, n.run, plan, i + 1);
      SpentKept(cfg, n.w, Drive(cfg, n.w, n.run, plan, i + 1).w, ev);
    }
  }

  /** A delivery that changed anything at all, or that was answered with success, has spent its event:
      partial failures included, no redelivery of it will have an effect again. */
  lemma EffectSpends(cfg: Config, w: World, ev: Event, plan: Plan)
    requires Sound(cfg, w)
    ensures var d := Drive(cfg, w, Confirm(CheckKey(ev)), plan, 0);
            && (d.w != w ==> Spent(d.w.db, ev))
            && (d.run == Ended(Accepted) ==> Spent(d.w.db, ev))
  {
    var r := Confirm(CheckKey(ev));
    var n := RunStep(cfg, w, r, plan(0));
    assert Drive(cfg, w, r, plan, 0) == Drive(cfg, n.w, n.run, plan, 1);
    if n.run.Ended? {
      assert Drive(cfg, n.w, n.run, plan, 1) == n;
    } else {
      var m := RunStep(cfg, w, n.run, plan(1));
      assert Drive(cfg, n.w, n.run, plan, 1) == Drive(cfg, m.w, m.run, plan, 2);
      RunAdvances(cfg, w, n.run, plan(1));
      if m.run.Confirm? {
        StoreSpends(cfg, w, ev, m.run.confirm.copy, plan, 2);
      } else {
        assert Drive(cfg, m.w, m.run, plan, 2) == m;
      }
    }
  }

  /** After one delivery that had any effect, or was answered with success, all redeliveries of the payment
      can be removed. */
  lemma OneDeliveryEnough(cfg: Config, w: World, ev: Event, plan: Plan, cmds: seq<Command>)
    requires Sound(cfg, w)
    requires var d := Drive(cfg, w, Confirm(CheckKey(ev)), plan, 0); d.w != w || d.run == Ended(Accepted)
    ensures var v := Serve(cfg, w, ConfirmPayment(ev, plan));
            ServeAll(cfg, v, cmds) == ServeAll(cfg, v, WithoutRedeliveries(cmds, ev))
  {
    ServeSound(cfg, w, ConfirmPayment(ev, plan));
    EffectSpends(cfg, w, ev, plan);
    RedeliveriesRemovable(cfg, Serve(cfg, w, ConfirmPayment(ev, plan)), cmds, ev);
  }

  // ---------- stopping ----------

  /** The first n calls of a run, after which the process stops. */
  ghost function Stopped(cfg: Config, w: World, r: Run, plan: Plan, i: nat, n: nat): Next
    decreases n
  {
    if n == 0 || Returned(r) then Next(w, r)
    else
      var next := RunStep(cfg, w, r, plan(i));
      Stopped(cfg, next.w, next.run, plan, i + 1, n - 1)
  }

  const REFUSAL := Choice(Refused, Refused, 0, 0, "", "", 0, "", "")

  function RefusedFrom(plan: Plan, n: nat): Plan {
    (i: nat) => if i < n then plan(i) else REFUSAL
  }

  /** The one call a run makes even if it is refused: it stands before its send. */
  function RefusedSend(r: Run): seq<Sent> {
    match r
    case Issue(SendLink(_, p, _, link, raw)) => [Sent(p.id, p.userId, FinalLink(link, raw), raw, false)]
    case _ => []
  }

  lemma {:induction false} RefusedDrive(cfg: Config, w: World, r: Run, plan: Plan, i: nat, n: nat)
    requires n <= i
    ensures Drive(cfg, w, r, RefusedFrom(plan, n), i).w == w.(sent := w.sent + RefusedSend(r))
    decreases CallsLeft(r)
  {
    if !Returned(r) {
      var next := RunStep(cfg, w, r, REFUSAL);
      CallsDescend(cfg, w, r, REFUSAL);
      RefusedStep(cfg, w, r);
      RefusedDrive(cfg, next.w, next.run, plan, i + 1, n);
    }
  }

  lemma RefusedStep(cfg: Config, w: World, r: Run)
    requires !Returned(r)
    ensures var n := RunStep(cfg, w, r, REFUSAL);
            n.w == w.(sent := w.sent + RefusedSend(r)) && RefusedSend(n.run) == []
  {
  }

  lemma FirstCall(cfg: Config, w: World, r: Run, plan: Plan, other: Plan, i: nat, n: nat)
    requires !Returned(r) && n > 0 && other(i) == plan(i)
    ensures var next := RunStep(cfg, w, r, plan(i));
            && Drive(cfg, w, r, other, i) == Drive(cfg, next.w, next.run, other, i + 1)
            && Stopped(cfg, w, r, plan, i, n) == Stopped(cfg, next.w, next.run, plan, i + 1, n - 1)
  {
  }

  lemma {:induction false} StopAt(cfg: Config, w: World, r: Run, plan: Plan, i: nat, n: nat, total: nat)
    requires total == i + n
    ensures var a := Stopped(cfg, w, r, plan, i, n);
            Drive(cfg, w, r, RefusedFrom(plan, total), i).w == a.w.(sent := a.w.sent + RefusedSend(a.run))
    decreases n
  {
    if n == 0 {
      RefusedDrive(cfg, w, r, plan, i, total);
    } else if !Returned(r) {
      var next := RunStep(cfg, w, r, plan(i));
      FirstCall(cfg, w, r, plan, RefusedFrom(plan, total), i, n);
      StopAt(cfg, next.w, next.run, plan, i + 1, n - 1, total);
    }
  }

  /** A handler that stops after any number of calls leaves the world as a handler does whose calls are
      refused from there on, but for the record of the refused send if it stopped right before its send;
      so the faults of a plan cover stopping anywhere. */
  lemma StopIsRefusal(cfg: Config, w: World, r: Run, plan: Plan, i: nat, n: nat)
    ensures var a := Stopped(cfg, w, r, plan, i, n);
            Drive(cfg, w, r, RefusedFrom(plan, i + n), i).w == a.w.(sent := a.w.sent + RefusedSend(a.run))
  {
    StopAt(cfg, w, r, plan, i, n, i + n);
  }

  // ---------- stopping inside a batch ----------

  /** One event of a batch, of which so many calls are made; after eight of them only MarkPublished is left. */
  ghost function StoppedEvent(cfg: Config, w: World, e: OutboxRow, plan: Plan, m: nat): Next {
    if e.kind != CONFIRMED then Next(w, Ended(Accepted))
    else Stopped(cfg, w, Issue(LoadPurchase(e.id, e.purchaseId)), plan, 0, m)
  }

  /** A batch that stops at its n-th event, after so many of the event's calls. */
  ghost function StoppedBatch(cfg: Config, w: World, events: seq<OutboxRow>, plans: nat -> Plan,
                              i: nat, n: nat, m: nat): Next
    requires i <= n < |events|
    decreases n - i
  {
    if i == n then StoppedEvent(cfg, w, events[n], plans(n), m)
    else StoppedBatch(cfg, HandleEvent(cfg, w, events[i], plans(i)), events, plans, i + 1, n, m)
  }

  function StoppedPlans(plans: nat -> Plan, n: nat, m: nat): nat -> Plan {
    (i: nat) => if i < n then plans(i) else RefusedFrom(plans(i), if i == n then m else 0)
  }

  lemma EventStop(cfg: Config, w: World, e: OutboxRow, plan: Plan, m: nat)
    requires m <= FLAG_CALL
    ensures var a := StoppedEvent(cfg, w, e, plan, m);
            HandleEvent(cfg, w, e, RefusedFrom(plan, m)) == a.w.(sent := a.w.sent + RefusedSend(a.run))
  {
    if e.kind == CONFIRMED {
      var r := Issue(LoadPurchase(e.id, e.purchaseId));
      StopIsRefusal(cfg, w, r, plan, 0, m);
      DriveIssueOutbox(cfg, w, LoadPurchase(e.id, e.purchaseId), RefusedFrom(plan, m), 0);
    }
  }

  lemma UntriedEvent(cfg: Config, w: World, e: OutboxRow, plan: Plan)
    ensures HandleEvent(cfg, w, e, RefusedFrom(plan, 0)) == w
  {
    EventStop(cfg, w, e, plan, 0);
  }

  lemma {:induction false} UntriedEvents(cfg: Config, w: World, events: seq<OutboxRow>, plans: nat -> Plan,
                                         i: nat, n: nat, m: nat)
    requires n < i <= |events|
    ensures HandleBatch(cfg, w, events, StoppedPlans(plans, n, m), i) == w
    decreases |events| - i
  {
    if i < |events| {
      assert StoppedPlans(plans, n, m)(i) == RefusedFrom(plans(i), 0);
      UntriedEvent(cfg, w, events[i], plans(i));
      UntriedEvents(cfg, w, events, plans, i + 1, n, m);
    }
  }

  /** An outbox worker that stops anywhere in a batch, before MarkPublished of an event included, leaves the world
      as one does whose calls are refused from there on, but for the record of the refused send if it stopped
      right before one. */
  lemma {:induction false} BatchStopIsRefusal(cfg: Config, w: World, events: seq<OutboxRow>, plans: nat -> Plan,
                                              i: nat, n: nat, m: nat)
    requires i <= n < |events| && m <= FLAG_CALL
    ensures var a := StoppedBatch(cfg, w, events, plans, i, n, m);
            HandleBatch(cfg, w, events, StoppedPlans(plans, n, m), i) == a.w.(sent := a.w.sent + RefusedSend(a.run))
    decreases n - i
  {
    if i == n {
      assert StoppedPlans(plans, n, m)(n) == RefusedFrom(plans(n), m);
      EventStop(cfg, w, events[n], plans(n), m);
      UntriedEvents(cfg, HandleEvent(cfg, w, events[n], RefusedFrom(plans(n), m)), events, plans, n + 1, n, m);
    } else {
      assert StoppedPlans(plans, n, m)(i) == plans(i);
      BatchStopIsRefusal(cfg, HandleEvent(cfg, w, events[i], plans(i)), events, plans, i + 1, n, m);
    }
  }
}
