/** What the deployed system guarantees over whole executions. */
module OrderlyResults {
  import opened Domain
  import opened Tables
  import opened Protocol
  import opened Invariants
  import opened Effects
  import opened Delivery
  import opened Orderly

  lemma InitialOrderly(cfg: Config, s: Sys)
    requires Initial(s)
    ensures OrderlyOk(cfg, s)
  {
  }

  lemma OrderlyReachable(cfg: Config, s: Sys, ls: seq<Label>)
    requires Initial(s) && IsOrderly(cfg, s, ls)
    ensures OrderlyOk(cfg, Exec(cfg, s, ls))
  {
    InitialOrderly(cfg, s);
    ExecOrderly(cfg, s, ls);
  }

  // ---------- the status machine over time ----------

  predicate StatusChanged(a: Db, b: Db, id: string) {
    id in a.purchases && id in b.purchases && a.purchases[id].status != b.purchases[id].status
  }

  /** How many steps of the execution change the status of the purchase. */
  ghost function StatusChanges(cfg: Config, s: Sys, ls: seq<Label>, id: string): nat
    decreases |ls|
  {
    if ls == [] then 0
    else
      var t := Step(cfg, s, ls[0]);
      (if StatusChanged(s.w.db, t.w.db, id) then 1 else 0) + StatusChanges(cfg, t, ls[1..], id)
  }

  function RankOf(db: Db, id: string): nat {
    if id in db.purchases then StatusRank(db.purchases[id].status) else 0
  }

  /** A row that has left the pending state keeps its charge and payment time; the status can
      only move on, and error is final. */
  predicate RowLater(a: Purchase, b: Purchase) {
    && StatusRank(a.status) <= StatusRank(b.status)
    && (StatusRank(a.status) == StatusRank(b.status) ==> a.status == b.status)
    && (a.status != Pending ==> b.chargeId == a.chargeId && b.paidAt == a.paidAt)
    && a.attempts <= b.attempts
  }

  ghost predicate RowsLater(a: Db, b: Db) {
    forall id | id in a.purchases :: id in b.purchases && RowLater(a.purchases[id], b.purchases[id])
  }

  lemma MovesLater(cfg: Config, a: Db, b: Db)
    requires PurchasesOk(cfg, a) && PurchasesOk(cfg, b) && RowsMove(a, b)
    ensures RowsLater(a, b)
  {
  }

  /** Every step moves every status along an edge of the machine or not at all, so a purchase
      changes its status three times at most. */
  lemma {:induction false} StatusOnlyMovesForward(cfg: Config, s: Sys, ls: seq<Label>, id: string)
    requires OrderlyOk(cfg, s) && IsOrderly(cfg, s, ls)
    ensures var t := Exec(cfg, s, ls);
            RowsLater(s.w.db, t.w.db) && RankOf(s.w.db, id) + StatusChanges(cfg, s, ls, id) <= RankOf(t.w.db, id) <= 3
    decreases |ls|
  {
    if ls != [] {
      var t := Step(cfg, s, ls[0]);
      StepOrderly(cfg, s, ls[0]);
      MovesLater(cfg, s.w.db, t.w.db);
      StatusOnlyMovesForward(cfg, t, ls[1..], id);
      LaterTransitive(s.w.db, t.w.db, Exec(cfg, s, ls).w.db);
      RankMoves(s.w.db, t.w.db, id);
    }
  }

  lemma LaterTransitive(a: Db, b: Db, c: Db)
    requires RowsLater(a, b) && RowsLater(b, c)
    ensures RowsLater(a, c)
  {
  }

  lemma RankMoves(a: Db, b: Db, id: string)
    requires RowsMove(a, b)
    ensures RankOf(a, id) + (if StatusChanged(a, b, id) then 1 else 0) <= RankOf(b, id)
  {
  }

  lemma AtMostThreeStatusChanges(cfg: Config, s: Sys, ls: seq<Label>, id: string)
    requires Initial(s) && IsOrderly(cfg, s, ls)
    ensures StatusChanges(cfg, s, ls, id) <= 3
  {
    InitialOrderly(cfg, s);
    StatusOnlyMovesForward(cfg, s, ls, id);
  }

  /** Whoever is about to send a link sends it for a purchase whose row says access_issued;
      never from error. */
  lemma SendsOnlyWhenIssued(cfg: Config, s: Sys, ls: seq<Label>, k: nat)
    requires Initial(s) && IsOrderly(cfg, s, ls)
    requires var t := Exec(cfg, s, ls); k in t.runs && t.runs[k].Issue? && t.runs[k].issue.SendLink?
    ensures var t := Exec(cfg, s, ls); var p := t.runs[k].issue.copy;
            p.id in t.w.db.purchases && t.w.db.purchases[p.id] == p && p.status == AccessIssued
  {
    OrderlyReachable(cfg, s, ls);
    var t := Exec(cfg, s, ls);
    assert RunOk(cfg, t.w.db, t.runs[k]) && RunX(t.w, t.runs[k]);
  }

  // ---------- confirmation ----------

  /** The writes of a confirmation are durable in order: a processed key implies the outbox event,
      an outbox event implies the payment log entry, and a log entry implies the paid row. */
  lemma DurablePrefix(cfg: Config, s: Sys, ls: seq<Label>)
    requires Initial(s) && IsOrderly(cfg, s, ls)
    ensures var db := Exec(cfg, s, ls).w.db;
            && (forall c | c in db.processed ::
                  c in db.payments && exists id :: Holds(db, id, c) && InOutbox(db, id))
            && (forall id | InOutbox(db, id) ::
                  Settled(db, id) && db.purchases[id].chargeId in db.payments
                  && db.payments[db.purchases[id].chargeId].payload == db.purchases[id].payload)
            && (forall c | c in db.payments ::
                  exists id :: Holds(db, id, c) && db.purchases[id].payload == db.payments[c].payload)
  {
    OrderlyReachable(cfg, s, ls);
    var db := Exec(cfg, s, ls).w.db;
    forall id | InOutbox(db, id)
      ensures Settled(db, id) && PaymentOf(db, id)
    {
      var i :| 0 <= i < |db.outbox| && db.outbox[i].purchaseId == id;
    }
    forall c | c in db.processed
      ensures c in db.payments
    {
      var id :| Holds(db, id, c) && InOutbox(db, id);
      assert PaymentOf(db, id);
    }
  }

  /** Under any redelivery: one outbox event per purchase at most; a charge and a payment time never
      change once set; and a charge belongs to one purchase over the whole history. */
  lemma ConfirmedOnce(cfg: Config, s: Sys, early: seq<Label>, late: seq<Label>)
    requires Initial(s) && IsOrderly(cfg, s, early) && IsOrderly(cfg, Exec(cfg, s, early), late)
    ensures var a := Exec(cfg, s, early).w.db; var b := Exec(cfg, Exec(cfg, s, early), late).w.db;
            && (forall i, j | 0 <= i < |b.outbox| && 0 <= j < |b.outbox|
                              && b.outbox[i].purchaseId == b.outbox[j].purchaseId :: i == j)
            && (forall id | Settled(a, id) ::
                  id in b.purchases && b.purchases[id].chargeId == a.purchases[id].chargeId
                  && b.purchases[id].paidAt == a.purchases[id].paidAt)
            && (forall x, y | x in a.purchases && y in b.purchases && a.purchases[x].chargeId != ""
                              && a.purchases[x].chargeId == b.purchases[y].chargeId :: x == y)
  {
    OrderlyReachable(cfg, s, early);
    var t := Exec(cfg, s, early);
    ExecOrderly(cfg, t, late);
    StatusOnlyMovesForward(cfg, t, late, "");
    var a, b := t.w.db, Exec(cfg, t, late).w.db;
    forall x, y | x in a.purchases && y in b.purchases && a.purchases[x].chargeId != ""
                  && a.purchases[x].chargeId == b.purchases[y].chargeId
      ensures x == y
    {
      assert RowLater(a.purchases[x], b.purchases[x]);
    }
  }

  // ---------- publication ----------

  /** A published event means the purchase has its grant, its link was delivered and its row says so,
      now and in every continuation. */
  lemma PublishedMeansDelivered(cfg: Config, s: Sys, early: seq<Label>, late: seq<Label>, i: nat)
    requires Initial(s) && IsOrderly(cfg, s, early) && IsOrderly(cfg, Exec(cfg, s, early), late)
    requires i < |Exec(cfg, s, early).w.db.outbox| && Exec(cfg, s, early).w.db.outbox[i].published
    ensures var a := Exec(cfg, s, early).w; var b := Exec(cfg, Exec(cfg, s, early), late).w;
            Completed(a, a.db.outbox[i].purchaseId) && Completed(b, a.db.outbox[i].purchaseId)
  {
    OrderlyReachable(cfg, s, early);
    var t := Exec(cfg, s, early);
    ExecOrderly(cfg, t, late);
    ExecKeeps(cfg, t, late);
    var b := Exec(cfg, t, late).w;
    assert b.db.outbox[i].published && b.db.outbox[i].purchaseId == t.w.db.outbox[i].purchaseId;
  }

  // ---------- attempts ----------

  function Count(xs: seq<string>, id: string): nat {
    if xs == [] then 0 else Count(xs[..|xs| - 1], id) + (if xs[|xs| - 1] == id then 1 else 0)
  }

  ghost predicate Tallied(db: Db, failures: seq<string>) {
    && (forall id | id in db.purchases :: db.purchases[id].attempts == Count(failures, id))
    && (forall i | 0 <= i < |failures| :: failures[i] in db.purchases)
  }

  ghost predicate AttemptsOk(s: Sys) {
    Tallied(s.w.db, s.h.failures)
  }

  lemma {:induction false} CountAbsent(xs: seq<string>, id: string)
    requires id !in xs
    ensures Count(xs, id) == 0
  {
    if xs != [] {
      CountAbsent(xs[..|xs| - 1], id);
    }
  }

  lemma CountAppend(xs: seq<string>, ys: seq<string>, id: string)
    requires |ys| <= 1
    ensures Count(xs + ys, id) == Count(xs, id) + if ys == [id] then 1 else 0
  {
    if ys == [] {
      assert xs + ys == xs;
    } else {
      assert (xs + ys)[..|xs + ys| - 1] == xs;
    }
  }

  /** A step adds to the attempts of a row exactly what it adds to the list of stored failures. */
  lemma AttemptsMove(cfg: Config, w: World, r: Run, c: Choice, id: string)
    requires RunOk(cfg, w.db, r) && RunX(w, r)
    requires id in RunStep(cfg, w, r, c).w.db.purchases
    ensures var n := RunStep(cfg, w, r, c).w.db;
            n.purchases[id].attempts == (if id in w.db.purchases then w.db.purchases[id].attempts else 0)
                                        + (if FailureStored(w, r, c) == [id] then 1 else 0)
  {
    match r
    case Start(_) =>
    case Confirm(f) => ConfirmEffect(w, f, c);
    case Issue(i) => IssueAttempts(cfg, w, i, c, id);
    case Use(u) =>
    case Ended(_) =>
  }

  lemma IssueAttempts(cfg: Config, w: World, r: IssueRun, c: Choice, id: string)
    requires IssueX(w, r) && id in IssueStep(cfg, w, r, c).w.db.purchases
    ensures id in w.db.purchases
    ensures IssueStep(cfg, w, r, c).w.db.purchases[id].attempts
            == w.db.purchases[id].attempts + (if FailureStored(w, Issue(r), c) == [id] then 1 else 0)
  {
    if !r.StoreFailure? {
      IssueEffect(cfg, w, r, c);
    }
  }

  lemma StepAttempts(cfg: Config, s: Sys, l: Label)
    requires OrderlyOk(cfg, s) && AttemptsOk(s)
    ensures AttemptsOk(Step(cfg, s, l))
  {
    if l.Advance? && l.k in s.runs {
      AdvanceAttempts(cfg, s, l.k, l.choice);
    }
  }

  lemma AttemptsAfter(cfg: Config, w: World, r: Run, c: Choice, failures: seq<string>, id: string)
    requires RunOk(cfg, w.db, r) && RunX(w, r)
    requires id in w.db.purchases ==> w.db.purchases[id].attempts == Count(failures, id)
    requires id !in w.db.purchases ==> id !in failures
    requires id in RunStep(cfg, w, r, c).w.db.purchases
    ensures RunStep(cfg, w, r, c).w.db.purchases[id].attempts == Count(failures + FailureStored(w, r, c), id)
  {
    AttemptsMove(cfg, w, r, c, id);
    CountAppend(failures, FailureStored(w, r, c), id);
    if id !in w.db.purchases {
      CountAbsent(failures, id);
    }
  }

  lemma RunAttempts(cfg: Config, w: World, r: Run, c: Choice, failures: seq<string>)
    requires RunOk(cfg, w.db, r) && RunX(w, r) && Tallied(w.db, failures)
    requires PurchasesKept(w.db, RunStep(cfg, w, r, c).w.db)
    ensures Tallied(RunStep(cfg, w, r, c).w.db, failures + FailureStored(w, r, c))
  {
    var n := RunStep(cfg, w, r, c);
    forall id | id in n.w.db.purchases
      ensures n.w.db.purchases[id].attempts == Count(failures + FailureStored(w, r, c), id)
    {
      AttemptsAfter(cfg, w, r, c, failures, id);
    }
  }

  lemma AdvanceAttempts(cfg: Config, s: Sys, k: nat, c: Choice)
    requires OrderlyOk(cfg, s) && AttemptsOk(s) && k in s.runs
    ensures AttemptsOk(Step(cfg, s, Advance(k, c)))
  {
    var r := s.runs[k];
    assert RunOk(cfg, s.w.db, r) && RunX(s.w, r);
    assert PurchasesKept(s.w.db, RunStep(cfg, s.w, r, c).w.db) by {
      RunAdvances(cfg, s.w, r, c);
    }
    RunAttempts(cfg, s.w, r, c, s.h.failures);
  }

  lemma {:induction false} ExecAttempts(cfg: Config, s: Sys, ls: seq<Label>)
    requires OrderlyOk(cfg, s) && AttemptsOk(s) && IsOrderly(cfg, s, ls)
    ensures AttemptsOk(Exec(cfg, s, ls))
    decreases |ls|
  {
    if ls != [] {
      StepAttempts(cfg, s, ls[0]);
      StepOrderly(cfg, s, ls[0]);
      ExecAttempts(cfg, Step(cfg, s, ls[0]), ls[1..]);
    }
  }

  /** A row's attempts are the provider failures whose update was stored; with the retry limit
      they decide the status. */
  lemma AttemptsCountFailures(cfg: Config, s: Sys, ls: seq<Label>, id: string)
    requires Initial(s) && IsOrderly(cfg, s, ls) && id in Exec(cfg, s, ls).w.db.purchases
    ensures var t := Exec(cfg, s, ls);
            && t.w.db.purchases[id].attempts == Count(t.h.failures, id)
            && (cfg.maxRetries >= 1 ==>
                  (t.w.db.purchases[id].status == Error <==> Count(t.h.failures, id) >= cfg.maxRetries))
  {
    InitialOrderly(cfg, s);
    ExecAttempts(cfg, s, ls);
    Reachable(cfg, s, ls);
  }

  // ---------- lost confirmations ----------

  ghost predicate CutOk(s: Sys) {
    forall id :: id in s.h.cut <==> Stranded(s, id)
  }

  /** Among the confirm runs in flight, one at most is past loading a given purchase. */
  lemma OneConfirming(cfg: Config, s: Sys, a: nat, b: nat, id: string)
    requires RunsOk(cfg, s) && OneConfirm(s) && a in s.runs && b in s.runs
    requires id in Confirming(s.runs[a]) && id in Confirming(s.runs[b])
    ensures a == b
  {
    assert RunOk(cfg, s.w.db, s.runs[a]) && RunOk(cfg, s.w.db, s.runs[b]);
  }

  lemma StorePaidCut(w: World, ev: Event, p: Purchase, c: Choice)
    requires ConfirmX(w.db, StorePaid(ev, p)) && p.status == Paid
    ensures var r := StorePaid(ev, p); var n := ConfirmStep(w, r, c);
            (Settled(n.w.db, p.id) && !InOutbox(n.w.db, p.id) && p.id !in Confirming(n.run))
            <==> p.id in CutByStep(w, Confirm(r), c)
  {
    var r := StorePaid(ev, p);
    ConfirmEffect(w, r, c);
    OutboxPurchases(w.db, Confirm(r), ConfirmStep(w, r, c).w.db, p.id);
  }

  lemma LogEventCut(w: World, ev: Event, p: Purchase, c: Choice)
    requires ConfirmX(w.db, LogEvent(ev, p)) && p.status == Paid
    ensures var r := LogEvent(ev, p); var n := ConfirmStep(w, r, c);
            (Settled(n.w.db, p.id) && !InOutbox(n.w.db, p.id) && p.id !in Confirming(n.run))
            <==> p.id in CutByStep(w, Confirm(r), c)
  {
    var r := LogEvent(ev, p);
    ConfirmEffect(w, r, c);
    OutboxPurchases(w.db, Confirm(r), ConfirmStep(w, r, c).w.db, p.id);
  }

  lemma PublishCut(w: World, ev: Event, p: Purchase, c: Choice)
    requires ConfirmX(w.db, Publish(ev, p)) && p.status == Paid
    ensures var r := Publish(ev, p); var n := ConfirmStep(w, r, c);
            (Settled(n.w.db, p.id) && !InOutbox(n.w.db, p.id) && p.id !in Confirming(n.run))
            <==> p.id in CutByStep(w, Confirm(r), c)
  {
    var n := ConfirmStep(w, Publish(ev, p), c);
    if n.w.db.outbox != w.db.outbox {
      assert n.w.db.outbox[|w.db.outbox|].purchaseId == p.id;
    }
  }

  /** The confirm run itself: it strands its purchase exactly when it stops between the two writes. */
  lemma OwnCut(cfg: Config, w: World, r: Run, c: Choice, id: string)
    requires RunOk(cfg, w.db, r) && RunX(w, r) && id in Confirming(r)
    ensures var n := RunStep(cfg, w, r, c);
            (Settled(n.w.db, id) && !InOutbox(n.w.db, id) && id !in Confirming(n.run)) <==> id in CutByStep(w, r, c)
  {
    match r.confirm
    case StorePaid(ev, p) => StorePaidCut(w, ev, p, c);
    case LogEvent(ev, p) => LogEventCut(w, ev, p, c);
    case Publish(ev, p) => PublishCut(w, ev, p, c);
  }

  /** Any other run neither settles the purchase nor moves it into the outbox. */
  lemma ForeignCut(cfg: Config, w: World, r: Run, n: Next, id: string)
    requires RunOk(cfg, w.db, r) && PurchasesKept(w.db, n.w.db)
    requires RowEffect(w.db, r, n.w.db) && OutboxEffect(w.db, r, n.w.db) && id !in Confirming(r)
    requires OutboxOk(w.db)
    ensures Settled(n.w.db, id) <==> Settled(w.db, id)
    ensures InOutbox(n.w.db, id) <==> InOutbox(w.db, id)
  {
    OutboxPurchases(w.db, r, n.w.db, id);
    if r.Issue? && !r.issue.LoadPurchase? {
      EventForSettled(cfg, w.db, r.issue.eventId, r.issue.copy.id);
    }
  }

  lemma AdvanceOwnCut(cfg: Config, s: Sys, k: nat, c: Choice, n: Next, t: Sys, id: string)
    requires RunsOk(cfg, s) && RunsX(s) && OneConfirm(s) && k in s.runs && id in Confirming(s.runs[k])
    requires n == RunStep(cfg, s.w, s.runs[k], c) && t.w == n.w && t.runs == s.runs[k := n.run]
    ensures Stranded(t, id) <==> id in CutByStep(s.w, s.runs[k], c)
  {
    var r := s.runs[k];
    assert RunOk(cfg, s.w.db, r) && RunX(s.w, r);
    OwnCut(cfg, s.w, r, c, id);
    forall j | j in s.runs && id in Confirming(s.runs[j])
      ensures j == k
    {
      OneConfirming(cfg, s, j, k, id);
    }
    assert t.runs[k] == n.run && forall j | j in t.runs && j != k :: t.runs[j] == s.runs[j];
  }

  lemma AdvanceForeignCut(cfg: Config, s: Sys, k: nat, c: Choice, n: Next, t: Sys, id: string)
    requires PurchasesOk(cfg, s.w.db) && OutboxOk(s.w.db) && RunsOk(cfg, s)
    requires k in s.runs && id !in Confirming(s.runs[k])
    requires n == RunStep(cfg, s.w, s.runs[k], c) && t.w == n.w && t.runs == s.runs[k := n.run]
    requires Effect(s.w, s.runs[k], n) && PurchasesKept(s.w.db, n.w.db)
    ensures Stranded(t, id) <==> Stranded(s, id)
    ensures id !in CutByStep(s.w, s.runs[k], c)
  {
    var r := s.runs[k];
    assert RunOk(cfg, s.w.db, r);
    ForeignCut(cfg, s.w, r, n, id);
    if Settled(s.w.db, id) {
      NextConfirming(cfg, s.w, r, c, id);
    }
    assert t.runs[k] == n.run && forall j | j in s.runs && j != k :: t.runs[j] == s.runs[j];
  }

  lemma AdvanceCut(cfg: Config, s: Sys, k: nat, c: Choice, n: Next, t: Sys, id: string)
    requires WorldOk(cfg, s.w) && RunsOk(cfg, s) && RunsX(s) && OneConfirm(s) && k in s.runs
    requires n == RunStep(cfg, s.w, s.runs[k], c) && t.w == n.w && t.runs == s.runs[k := n.run]
    requires Effect(s.w, s.runs[k], n) && Kept(s.w, n.w)
    ensures Stranded(t, id) <==> Stranded(s, id) || id in CutByStep(s.w, s.runs[k], c)
  {
    var r := s.runs[k];
    if id in Confirming(r) {
      AdvanceOwnCut(cfg, s, k, c, n, t, id);
    } else {
      AdvanceForeignCut(cfg, s, k, c, n, t, id);
    }
  }

  lemma DropCut(cfg: Config, s: Sys, k: nat, t: Sys, id: string)
    requires RunsOk(cfg, s) && RunsX(s) && OneConfirm(s) && k in s.runs && t.w == s.w && t.runs == s.runs - {k}
    ensures Stranded(t, id) <==> Stranded(s, id) || id in CutByDrop(s.runs[k])
  {
    var r := s.runs[k];
    assert RunOk(cfg, s.w.db, r) && RunX(s.w, r);
    if id in Confirming(r) {
      forall j | j in s.runs && id in Confirming(s.runs[j])
        ensures j == k
      {
        OneConfirming(cfg, s, j, k, id);
      }
    } else {
      assert forall j | j in s.runs && j != k :: j in t.runs && t.runs[j] == s.runs[j];
    }
  }

  lemma SpawnCut(s: Sys, k: nat, r: Run, t: Sys, id: string)
    requires k !in s.runs && Confirming(r) == {} && t.w == s.w && t.runs == s.runs[k := r]
    ensures Stranded(t, id) <==> Stranded(s, id)
  {
    assert t.runs[k] == r && forall j | j in s.runs :: t.runs[j] == s.runs[j];
  }

  lemma StepCut(cfg: Config, s: Sys, l: Label)
    requires OrderlyOk(cfg, s) && CutOk(s)
    ensures CutOk(Step(cfg, s, l))
  {
    var t := Step(cfg, s, l);
    forall id
      ensures id in t.h.cut <==> Stranded(t, id)
    {
      match l
      case Spawn(k, r) =>
        if t != s {
          SpawnCut(s, k, r, t, id);
        }
      case Advance(k, c) =>
        if k in s.runs {
          AdvanceOneCut(cfg, s, k, c, id);
        }
      case Drop(k) =>
        if k in s.runs {
          DropCut(cfg, s, k, t, id);
        }
      case Edit(cid, row) => EditCut(s, t, id);
      case Evict(_) => EditCut(s, t, id);
    }
  }

  lemma EditCut(s: Sys, t: Sys, id: string)
    requires t.runs == s.runs && t.w.db.purchases == s.w.db.purchases && t.w.db.outbox == s.w.db.outbox
    ensures Stranded(t, id) <==> Stranded(s, id)
  {
    var r, n := Ended(Accepted), t.w.db;
    OutboxPurchases(s.w.db, r, n, id);
  }

  lemma AdvanceOneCut(cfg: Config, s: Sys, k: nat, c: Choice, id: string)
    requires OrderlyOk(cfg, s) && CutOk(s) && k in s.runs
    ensures var t := Step(cfg, s, Advance(k, c)); id in t.h.cut <==> Stranded(t, id)
  {
    StepEffect(cfg, s.w, s.runs[k], c);
    StepKeeps(cfg, s, Advance(k, c));
    AdvanceCut(cfg, s, k, c, RunStep(cfg, s.w, s.runs[k], c), Step(cfg, s, Advance(k, c)), id);
  }

  lemma {:induction false} ExecCut(cfg: Config, s: Sys, ls: seq<Label>)
    requires OrderlyOk(cfg, s) && CutOk(s) && IsOrderly(cfg, s, ls)
    ensures CutOk(Exec(cfg, s, ls))
    decreases |ls|
  {
    if ls != [] {
      StepCut(cfg, s, ls[0]);
      StepOrderly(cfg, s, ls[0]);
      ExecCut(cfg, Step(cfg, s, ls[0]), ls[1..]);
    }
  }

  /** Exactly the purchases whose confirm run stopped after its update and before its publish took
      effect are paid for without an outbox event and without a run that would still add one. */
  lemma LostExactlyWhenCut(cfg: Config, s: Sys, ls: seq<Label>, id: string)
    requires Initial(s) && IsOrderly(cfg, s, ls)
    ensures var t := Exec(cfg, s, ls); id in t.h.cut <==> Stranded(t, id)
  {
    InitialOrderly(cfg, s);
    ExecCut(cfg, s, ls);
  }
}
