/** The outbox worker on a backlog of events, when its calls are served: which events it publishes,
    told from the tables alone. */
module Backlog {
  import opened Text
  import opened Domain
  import opened Tables
  import opened Protocol
  import opened Invariants
  import opened Effects
  import opened Delivery
  import opened Orderly
  import opened OrderlyResults
  import opened Serial
  import opened Redelivery
  import opened Completion
  import opened OutboxProgress
  import opened CatalogSync

  // ---------- what decides about one purchase, and who can change it ----------

  ghost predicate Untouched(a: Db, b: Db, id: string) {
    && (id in a.purchases <==> id in b.purchases)
    && (id in a.purchases ==> b.purchases[id] == a.purchases[id])
    && (Granted(a, id) <==> Granted(b, id))
    && b.contents == a.contents
  }

  lemma UntouchedTransitive(a: Db, b: Db, c: Db, id: string)
    requires Untouched(a, b, id) && Untouched(b, c, id)
    ensures Untouched(a, c, id)
  {
  }

  lemma UntouchedIssuable(a: Db, b: Db, id: string)
    requires Untouched(a, b, id)
    ensures Issuable(a, id) <==> Issuable(b, id)
  {
    assert Issuable(a, id) ==> !Granted(a, id);
    assert Issuable(b, id) ==> !Granted(b, id);
  }

  lemma SameGranted(a: Db, r: Run, b: Db, id: string)
    requires GrantEffect(a, r, b) && !(r.Issue? && r.issue.CreateGrant? && r.issue.grant.purchaseId == id)
    ensures Granted(a, id) <==> Granted(b, id)
  {
    if Granted(a, id) {
      var g :| g in a.grants && a.grants[g].purchaseId == id;
      assert g in b.grants && b.grants[g].purchaseId == id;
    }
    if Granted(b, id) {
      var g :| g in b.grants && b.grants[g].purchaseId == id;
      assert g in a.grants && a.grants[g].purchaseId == id;
    }
  }

  lemma StillWorksFor(cfg: Config, w: World, r: Run, c: Choice, id: string)
    requires KeysMatch(w.db) && WorksFor(r, id)
    ensures WorksFor(RunStep(cfg, w, r, c).run, id)
  {
  }

  lemma ForeignEffect(a: Db, r: Run, b: Db, other: string, id: string)
    requires WorksFor(r, other) && other != id && RowEffect(a, r, b) && GrantEffect(a, r, b) && b.contents == a.contents
    ensures Untouched(a, b, id)
  {
    SameGranted(a, r, b, id);
  }

  /** A step of an issue run for another purchase. */
  lemma ForeignStep(cfg: Config, w: World, r: Run, c: Choice, other: string, id: string)
    requires KeysMatch(w.db) && WorksFor(r, other) && other != id
    ensures WorksFor(RunStep(cfg, w, r, c).run, other) && Untouched(w.db, RunStep(cfg, w, r, c).w.db, id)
  {
    StillWorksFor(cfg, w, r, c, other);
    StepEffect(cfg, w, r, c);
    ForeignEffect(w.db, r, RunStep(cfg, w, r, c).w.db, other, id);
  }

  lemma {:induction false} ForeignDrive(cfg: Config, w: World, r: Run, plan: Plan, i: nat, other: string, id: string)
    requires KeysMatch(w.db) && WorksFor(r, other) && other != id
    ensures var n := Drive(cfg, w, r, plan, i);
            Untouched(w.db, n.w.db, id) && KeysMatch(n.w.db) && WorksFor(n.run, other)
    decreases CallsLeft(r)
  {
    if !Returned(r) {
      var n := RunStep(cfg, w, r, plan(i));
      CallsDescend(cfg, w, r, plan(i));
      StepEffect(cfg, w, r, plan(i));
      TablesGrow(w.db, r, n.w.db);
      ForeignStep(cfg, w, r, plan(i), other, id);
      ForeignDrive(cfg, n.w, n.run, plan, i + 1, other, id);
      UntouchedTransitive(w.db, n.w.db, Drive(cfg, n.w, n.run, plan, i + 1).w.db, id);
    }
  }

  /** Handling one event leaves every other purchase alone. */
  lemma ForeignEvent(cfg: Config, w: World, e: OutboxRow, plan: Plan, id: string)
    requires KeysMatch(w.db) && e.purchaseId != id
    ensures Untouched(w.db, HandleEvent(cfg, w, e, plan).db, id)
  {
    if e.kind == CONFIRMED {
      var r := Issue(LoadPurchase(e.id, e.purchaseId));
      ForeignDrive(cfg, w, r, plan, 0, e.purchaseId, id);
      var n := Drive(cfg, w, r, plan, 0);
      ForeignStep(cfg, n.w, n.run, plan(FLAG_CALL), e.purchaseId, id);
    }
  }

  /** A run of another kind leaves a purchase alone once it is paid, unless it is about to write its row. */
  lemma {:induction false} SettledDrive(cfg: Config, w: World, r: Run, plan: Plan, i: nat, id: string)
    requires WorldOk(cfg, w) && RunOk(cfg, w.db, r) && !r.Issue? && Settled(w.db, id) && id !in Confirming(r)
    ensures Untouched(w.db, Drive(cfg, w, r, plan, i).w.db, id)
    decreases CallsLeft(r)
  {
    if !Returned(r) {
      var n := RunStep(cfg, w, r, plan(i));
      CallsDescend(cfg, w, r, plan(i));
      SettledStep(cfg, w, r, plan(i), id);
      RunAdvances(cfg, w, r, plan(i));
      SettledDrive(cfg, n.w, n.run, plan, i + 1, id);
      UntouchedTransitive(w.db, n.w.db, Drive(cfg, n.w, n.run, plan, i + 1).w.db, id);
    }
  }

  lemma SettledStep(cfg: Config, w: World, r: Run, c: Choice, id: string)
    requires PurchasesOk(cfg, w.db) && !r.Issue? && Settled(w.db, id) && id !in Confirming(r)
    ensures var n := RunStep(cfg, w, r, c);
            Untouched(w.db, n.w.db, id) && Settled(n.w.db, id) && !n.run.Issue? && id !in Confirming(n.run)
  {
    var n := RunStep(cfg, w, r, c);
    StepEffect(cfg, w, r, c);
    SameGranted(w.db, r, n.w.db, id);
    NextConfirming(cfg, w, r, c, id);
    KindKept(cfg, w, r, c);
  }

  // ---------- one batch ----------

  /** The hash of every token that is drawn is new to the table. */
  ghost predicate FreshTokens(cfg: Config, w: World, events: seq<OutboxRow>, plans: nat -> Plan, i: nat)
    requires i <= |events|
    decreases |events| - i
  {
    i == |events|
    || (FreshToken(cfg, w.db, plans(i)(3).raw)
        && FreshTokens(cfg, HandleEvent(cfg, w, events[i], plans(i)), events, plans, i + 1))
  }

  ghost predicate AllCallsServed(plans: nat -> Plan) {
    forall i: nat, j: nat :: plans(i)(j).outcome.Served?
  }

  /** Different purchases. */
  predicate DistinctPurchases(events: seq<OutboxRow>) {
    forall j, k | 0 <= j < k < |events| :: events[j].purchaseId != events[k].purchaseId
  }

  lemma RestWaits(cfg: Config, w: World, events: seq<OutboxRow>, i: nat, plan: Plan)
    requires i < |events| && BatchOf(w.db, events, i)
    ensures BatchOf(HandleEvent(cfg, w, events[i], plan).db, events, i + 1)
  {
    var v := HandleEvent(cfg, w, events[i], plan);
    HandleEventOutbox(cfg, w, events[i], plan);
    forall j | i + 1 <= j < |events|
      ensures Waiting(v.db, events[j])
    {
      StillWaiting(w.db, v.db, events[j], events[i].id);
    }
  }

  /** The event that is handled first. */
  lemma FirstPublished(cfg: Config, w: World, events: seq<OutboxRow>, plans: nat -> Plan, i: nat)
    requires i < |events| && Sound(cfg, w) && BatchOf(w.db, events, i)
    requires AllCallsServed(plans) && FreshToken(cfg, w.db, plans(i)(3).raw)
    ensures events[i].id in PublishedBy(cfg, w, events, plans, i) <==> Issuable(w.db, events[i].purchaseId)
  {
    PublishedIffHealthy(cfg, w, events[i], plans(i));
    FirstInBatch(cfg, w, events, plans, i);
    assert Healthy(cfg, w.db, events[i].purchaseId, plans(i)(3).raw) <==> Issuable(w.db, events[i].purchaseId);
  }

  lemma FirstInBatch(cfg: Config, w: World, events: seq<OutboxRow>, plans: nat -> Plan, i: nat)
    requires i < |events| && forall j | i < j < |events| :: events[j].id != events[i].id
    ensures events[i].id in PublishedBy(cfg, w, events, plans, i)
            <==> HandleEvent(cfg, w, events[i], plans(i)).db.outbox != w.db.outbox
  {
    BatchFlags(cfg, HandleEvent(cfg, w, events[i], plans(i)), events, plans, i + 1);
  }

  lemma LaterPublished(cfg: Config, w: World, events: seq<OutboxRow>, plans: nat -> Plan, i: nat, k: nat)
    requires i < k < |events| && events[i].id != events[k].id
    ensures events[k].id in PublishedBy(cfg, w, events, plans, i)
            <==> events[k].id in PublishedBy(cfg, HandleEvent(cfg, w, events[i], plans(i)), events, plans, i + 1)
  {
  }

  lemma SoundKeys(cfg: Config, w: World)
    requires Sound(cfg, w)
    ensures KeysMatch(w.db)
  {
  }

  /** Handling another event first changes nothing for the k-th one. */
  lemma LaterUnaffected(cfg: Config, w: World, events: seq<OutboxRow>, plan: Plan, i: nat, k: nat)
    requires i < k < |events| && Sound(cfg, w) && DistinctPurchases(events)
    ensures Issuable(HandleEvent(cfg, w, events[i], plan).db, events[k].purchaseId)
            <==> Issuable(w.db, events[k].purchaseId)
  {
    SoundKeys(cfg, w);
    ForeignEvent(cfg, w, events[i], plan, events[k].purchaseId);
    UntouchedIssuable(w.db, HandleEvent(cfg, w, events[i], plan).db, events[k].purchaseId);
  }

  /** An event of the batch is published exactly if its purchase is issuable when the batch begins. */
  lemma {:induction false} BatchPublishes(cfg: Config, w: World, events: seq<OutboxRow>, plans: nat -> Plan,
                                          i: nat, k: nat)
    requires i <= k < |events| && Sound(cfg, w) && BatchOf(w.db, events, i) && DistinctPurchases(events)
    requires AllCallsServed(plans) && FreshTokens(cfg, w, events, plans, i)
    ensures events[k].id in PublishedBy(cfg, w, events, plans, i) <==> Issuable(w.db, events[k].purchaseId)
    decreases k - i
  {
    var v := HandleEvent(cfg, w, events[i], plans(i));
    if i == k {
      FirstPublished(cfg, w, events, plans, i);
    } else {
      EventSound(cfg, w, events[i], plans(i));
      RestWaits(cfg, w, events, i, plans(i));
      BatchPublishes(cfg, v, events, plans, i + 1, k);
      LaterPublished(cfg, w, events, plans, i, k);
      LaterUnaffected(cfg, w, events, plans(i), i, k);
    }
  }

  lemma EventSound(cfg: Config, w: World, e: OutboxRow, plan: Plan)
    requires Sound(cfg, w) && Waiting(w.db, e)
    ensures Sound(cfg, HandleEvent(cfg, w, e, plan))
  {
    var ls := EventIsOrderly(cfg, Alone(w), e, plan);
    RealizedSound(cfg, w, ls, HandleEvent(cfg, w, e, plan));
  }

  /** A batch leaves every purchase alone that has no event in it. */
  lemma {:induction false} ForeignBatch(cfg: Config, w: World, events: seq<OutboxRow>, plans: nat -> Plan,
                                        i: nat, id: string)
    requires i <= |events| && KeysMatch(w.db) && forall j | i <= j < |events| :: events[j].purchaseId != id
    ensures Untouched(w.db, HandleBatch(cfg, w, events, plans, i).db, id)
    decreases |events| - i
  {
    if i < |events| {
      var v := HandleEvent(cfg, w, events[i], plans(i));
      ForeignEvent(cfg, w, events[i], plans(i), id);
      EventGrows(cfg, w, events[i], plans(i));
      ForeignBatch(cfg, v, events, plans, i + 1, id);
      UntouchedTransitive(w.db, v.db, HandleBatch(cfg, v, events, plans, i + 1).db, id);
    }
  }

  lemma EventGrows(cfg: Config, w: World, e: OutboxRow, plan: Plan)
    requires KeysMatch(w.db)
    ensures KeysMatch(HandleEvent(cfg, w, e, plan).db)
  {
    if e.kind == CONFIRMED {
      var r := Issue(LoadPurchase(e.id, e.purchaseId));
      DriveGrows(cfg, w, r, plan, 0);
      var n := Drive(cfg, w, r, plan, 0);
      StepEffect(cfg, n.w, n.run, plan(FLAG_CALL));
      TablesGrow(n.w.db, n.run, RunStep(cfg, n.w, n.run, plan(FLAG_CALL)).w.db);
    }
  }

  // ---------- one command ----------

  /** The tables as serial execution leaves them, started from empty ones. */
  ghost predicate Lawful(cfg: Config, w: World) {
    Sound(cfg, w) && OrderlyOk(cfg, Alone(w))
  }

  lemma OrderlyAlone(cfg: Config, t: Sys)
    requires OrderlyOk(cfg, t) && t.runs == map[]
    ensures OrderlyOk(cfg, Alone(t.w))
  {
  }

  lemma ServeLawful(cfg: Config, w: World, cmd: Command)
    requires Lawful(cfg, w)
    ensures var v := Serve(cfg, w, cmd);
            Lawful(cfg, v) && Kept(w, v) && RowsLater(w.db, v.db)
  {
    var s := Alone(w);
    ServeSound(cfg, w, cmd);
    var ls := ServeIsOrderly(cfg, s, cmd);
    ExecOrderly(cfg, s, ls);
    StatusOnlyMovesForward(cfg, s, ls, "");
    OrderlyAlone(cfg, Exec(cfg, s, ls));
  }

  /** Which of the unpublished events up to the i-th are willing: those of issuable purchases. */
  ghost predicate Tracks(db: Db, i: nat, willing: set<string>) {
    && i < |db.outbox|
    && forall j | 0 <= j <= i && !db.outbox[j].published ::
         db.outbox[j].id in willing <==> Issuable(db, db.outbox[j].purchaseId)
  }

  lemma {:induction false} DriveContents(cfg: Config, w: World, r: Run, plan: Plan, i: nat)
    ensures Drive(cfg, w, r, plan, i).w.db.contents == w.db.contents
    decreases CallsLeft(r)
  {
    if !Returned(r) {
      var n := RunStep(cfg, w, r, plan(i));
      CallsDescend(cfg, w, r, plan(i));
      StepEffect(cfg, w, r, plan(i));
      DriveContents(cfg, n.w, n.run, plan, i + 1);
    }
  }

  lemma {:induction false} BatchContents(cfg: Config, w: World, events: seq<OutboxRow>, plans: nat -> Plan, i: nat)
    requires i <= |events|
    ensures HandleBatch(cfg, w, events, plans, i).db.contents == w.db.contents
    decreases |events| - i
  {
    if i < |events| {
      var e, v := events[i], HandleEvent(cfg, w, events[i], plans(i));
      if e.kind == CONFIRMED {
        var r := Issue(LoadPurchase(e.id, e.purchaseId));
        var n := Drive(cfg, w, r, plans(i), 0);
        DriveContents(cfg, w, r, plans(i), 0);
        StepEffect(cfg, n.w, n.run, plans(i)(FLAG_CALL));
      }
      BatchContents(cfg, v, events, plans, i + 1);
    }
  }

  /** What stands in the way of a paid purchase stays there: a status past paid, a grant, or content that
      cannot be purchased as long as nobody edits the catalog. */
  lemma NeverIssuable(cfg: Config, a: Db, b: Db, id: string)
    requires PurchasesKept(a, b) && GrantsKept(a, b) && RowsLater(a, b) && b.contents == a.contents
    requires Settled(a, id) && !Issuable(a, id)
    ensures !Issuable(b, id)
  {
    if Granted(a, id) {
      var g :| g in a.grants && a.grants[g].purchaseId == id;
      assert b.grants[g].purchaseId == id;
    }
  }

  lemma EventSettled(cfg: Config, db: Db, j: nat)
    requires OutboxOk(db) && j < |db.outbox|
    ensures Settled(db, db.outbox[j].purchaseId)
  {
  }

  lemma OtherRun(cfg: Config, w: World, r: Run, plan: Plan, id: string)
    requires Sound(cfg, w) && Settled(w.db, id) && Spawnable(w, r) && !r.Issue?
    ensures Untouched(w.db, Drive(cfg, w, r, plan, 0).w.db, id)
  {
    SettledDrive(cfg, w, r, plan, 0, id);
  }

  /** A command other than a tick or an edit of the catalog decides nothing about a paid purchase. */
  lemma OtherCommand(cfg: Config, w: World, cmd: Command, id: string)
    requires Sound(cfg, w) && Settled(w.db, id) && !IsTick(cmd) && !cmd.EditCatalog?
    ensures Untouched(w.db, Serve(cfg, w, cmd).db, id)
  {
    match cmd
    case StartPurchase(userId, contentId, plan) => OtherRun(cfg, w, Start(FindContent(userId, contentId)), plan, id);
    case ConfirmPayment(ev, plan) => OtherRun(cfg, w, Confirm(CheckKey(ev)), plan, id);
    case UseAccess(token, plan) => OtherRun(cfg, w, Use(PeekCache(token)), plan, id);
    case OutboxTick(_, _) =>
    case EvictTokens(_) =>
  }

  lemma OtherTracks(cfg: Config, w: World, cmd: Command, i: nat, willing: set<string>)
    requires Sound(cfg, w) && Tracks(w.db, i, willing) && !IsTick(cmd) && !cmd.EditCatalog?
    ensures Tracks(Serve(cfg, w, cmd).db, i, willing)
  {
    var v := Serve(cfg, w, cmd).db;
    ServeAppends(cfg, w, cmd);
    forall j | 0 <= j <= i
      ensures v.outbox[j] == w.db.outbox[j]
      ensures Issuable(v, v.outbox[j].purchaseId) <==> Issuable(w.db, w.db.outbox[j].purchaseId)
    {
      var id := w.db.outbox[j].purchaseId;
      EventSettled(cfg, w.db, j);
      OtherCommand(cfg, w, cmd, id);
      UntouchedIssuable(w.db, v, id);
    }
  }

  // ---------- one tick ----------

  lemma BatchDistinct(db: Db)
    requires EventIdsUnique(db) && PublishedOnce(db)
    ensures DistinctPurchases(Oldest(Unpublished(db.outbox), 20))
  {
    var events := Oldest(Unpublished(db.outbox), 20);
    UnpublishedRows(db.outbox);
    UnpublishedDistinct(db.outbox);
    forall j, k | 0 <= j < k < |events|
      ensures events[j].purchaseId != events[k].purchaseId
    {
      assert events[j] in Unpublished(db.outbox) && events[k] in Unpublished(db.outbox);
      var a :| 0 <= a < |db.outbox| && db.outbox[a] == events[j];
      var b :| 0 <= b < |db.outbox| && db.outbox[b] == events[k];
    }
  }

  /** The tick publishes exactly the issuable ones of its batch. */
  lemma TickPublishes(cfg: Config, w: World, plans: nat -> Plan, j: nat)
    requires Lawful(cfg, w) && AllCallsServed(plans)
    requires FreshTokens(cfg, w, Oldest(Unpublished(w.db.outbox), 20), plans, 0)
    requires j < |w.db.outbox| && w.db.outbox[j] in Oldest(Unpublished(w.db.outbox), 20)
    ensures !w.db.outbox[j].published
    ensures w.db.outbox[j].id in Published(cfg, w, plans) <==> Issuable(w.db, w.db.outbox[j].purchaseId)
  {
    var events := Oldest(Unpublished(w.db.outbox), 20);
    UnpublishedRows(w.db.outbox);
    BatchWaits(w.db);
    BatchDistinct(w.db);
    var k :| 0 <= k < |events| && events[k] == w.db.outbox[j];
    BatchPublishes(cfg, w, events, plans, 0, k);
  }

  lemma TickContents(cfg: Config, w: World, plans: nat -> Plan)
    ensures Tick(cfg, w, Served, plans).db.contents == w.db.contents
  {
    BatchContents(cfg, w, Oldest(Unpublished(w.db.outbox), 20), plans, 0);
  }

  lemma TickIsServed(cfg: Config, w: World, plans: nat -> Plan)
    ensures Serve(cfg, w, OutboxTick(Served, plans)) == Tick(cfg, w, Served, plans)
  {
  }

  lemma TickLawful(cfg: Config, w: World, plans: nat -> Plan)
    requires Lawful(cfg, w)
    ensures var v := Tick(cfg, w, Served, plans);
            Kept(w, v) && RowsLater(w.db, v.db)
  {
    ServeLawful(cfg, w, OutboxTick(Served, plans));
    TickIsServed(cfg, w, plans);
  }

  /** A tick decides nothing about an event outside its batch. */
  lemma OutsideLeaves(cfg: Config, w: World, plans: nat -> Plan, j: nat)
    requires PublishedOnce(w.db) && KeysMatch(w.db)
    requires j < |w.db.outbox| && w.db.outbox[j] !in Oldest(Unpublished(w.db.outbox), 20)
    ensures var id := w.db.outbox[j].purchaseId; Issuable(Tick(cfg, w, Served, plans).db, id) <==> Issuable(w.db, id)
  {
    var id := w.db.outbox[j].purchaseId;
    var events := Oldest(Unpublished(w.db.outbox), 20);
    forall k | 0 <= k < |events|
      ensures events[k].purchaseId != id
    {
      NotItsEvent(w.db, events, k, j);
    }
    ForeignBatch(cfg, w, events, plans, 0, id);
    UntouchedIssuable(w.db, Tick(cfg, w, Served, plans).db, id);
  }

  /** An event that is unpublished after the tick: issuable now exactly if it was so before. */
  lemma TickLeaves(cfg: Config, w: World, plans: nat -> Plan, j: nat)
    requires Lawful(cfg, w) && AllCallsServed(plans)
    requires FreshTokens(cfg, w, Oldest(Unpublished(w.db.outbox), 20), plans, 0)
    requires j < |w.db.outbox| && w.db.outbox[j].id !in Published(cfg, w, plans)
    ensures var id := w.db.outbox[j].purchaseId;
            Issuable(Tick(cfg, w, Served, plans).db, id) <==> Issuable(w.db, id)
  {
    if w.db.outbox[j] in Oldest(Unpublished(w.db.outbox), 20) {
      TickPublishes(cfg, w, plans, j);
      TickLawful(cfg, w, plans);
      TickContents(cfg, w, plans);
      EventSettled(cfg, w.db, j);
      if !Issuable(w.db, w.db.outbox[j].purchaseId) {
        NeverIssuable(cfg, w.db, Tick(cfg, w, Served, plans).db, w.db.outbox[j].purchaseId);
      }
    } else {
      OutsideLeaves(cfg, w, plans, j);
    }
  }

  lemma NotItsEvent(db: Db, events: seq<OutboxRow>, k: nat, j: nat)
    requires PublishedOnce(db) && events == Oldest(Unpublished(db.outbox), 20)
    requires k < |events| && j < |db.outbox| && db.outbox[j] !in events
    ensures events[k].purchaseId != db.outbox[j].purchaseId
  {
    UnpublishedRows(db.outbox);
    assert events[k] in Unpublished(db.outbox);
    var a :| 0 <= a < |db.outbox| && db.outbox[a] == events[k];
  }

  lemma TickBehaves(cfg: Config, w: World, plans: nat -> Plan, i: nat, willing: set<string>)
    requires Lawful(cfg, w) && AllCallsServed(plans) && Tracks(w.db, i, willing)
    requires FreshTokens(cfg, w, Oldest(Unpublished(w.db.outbox), 20), plans, 0)
    ensures BehavesNow(cfg, w, plans, i, willing)
  {
    forall j | 0 <= j <= i && w.db.outbox[j] in Oldest(Unpublished(w.db.outbox), 20)
      ensures w.db.outbox[j].id in Published(cfg, w, plans) <==> w.db.outbox[j].id in willing
    {
      TickPublishes(cfg, w, plans, j);
    }
  }

  lemma TracksAt(db: Db, i: nat, willing: set<string>)
    requires Tracks(db, i, willing)
    ensures i < |db.outbox|
    ensures forall j | 0 <= j <= i ::
              !db.outbox[j].published ==> (db.outbox[j].id in willing <==> Issuable(db, db.outbox[j].purchaseId))
  {
  }

  lemma TickTracks(cfg: Config, w: World, plans: nat -> Plan, i: nat, willing: set<string>)
    requires Lawful(cfg, w) && AllCallsServed(plans) && Tracks(w.db, i, willing)
    requires FreshTokens(cfg, w, Oldest(Unpublished(w.db.outbox), 20), plans, 0)
    ensures Tracks(Tick(cfg, w, Served, plans).db, i, willing)
  {
    var v := Tick(cfg, w, Served, plans).db;
    TickOutbox(cfg, w, plans);
    TracksAt(w.db, i, willing);
    forall j | 0 <= j <= i && !v.outbox[j].published
      ensures v.outbox[j].id in willing <==> Issuable(v, v.outbox[j].purchaseId)
    {
      TickLeaves(cfg, w, plans, j);
    }
  }

  // ---------- the whole backlog ----------

  predicate OnSale(db: Db, content: string) {
    content in db.contents && db.contents[content].CanBePurchased()
  }

  /** An edit of the catalog that puts no purchased content on or off sale. */
  predicate Harmless(a: Db, b: Db) {
    forall id | id in a.purchases :: OnSale(a, a.purchases[id].contentId) <==> OnSale(b, a.purchases[id].contentId)
  }

  /** What the catalog sync writes is harmless: it keeps price and activity of a row that is there, and a row that
      is not there is of no purchase, or it is put on sale. */
  lemma SyncIsHarmless(db: Db, v: Video, price: int)
    requires VideoId(v) != "" && price > 0
    ensures var row := Merged(Lookup(db.contents, VideoId(v)), v, price);
            Harmless(db, EditContent(db, VideoId(v), Some(row)))
            <==> VideoId(v) in db.contents || forall id | id in db.purchases :: db.purchases[id].contentId != VideoId(v)
  {
    var id := VideoId(v);
    var row := Merged(Lookup(db.contents, id), v, price);
    if id !in db.contents {
      assert OnSale(EditContent(db, id, Some(row)), id) && !OnSale(db, id);
    }
  }

  lemma HarmlessEdit(w: World, content: string, row: Option<Content>, id: string)
    requires Harmless(w.db, EditContent(w.db, content, row))
    ensures Issuable(EditContent(w.db, content, row), id) <==> Issuable(w.db, id)
  {
  }

  lemma EditTracks(w: World, content: string, row: Option<Content>, i: nat, willing: set<string>)
    requires Tracks(w.db, i, willing) && Harmless(w.db, EditContent(w.db, content, row))
    ensures Tracks(EditContent(w.db, content, row), i, willing)
  {
    forall j | 0 <= j <= i
      ensures Issuable(EditContent(w.db, content, row), w.db.outbox[j].purchaseId)
              <==> Issuable(w.db, w.db.outbox[j].purchaseId)
    {
      HarmlessEdit(w, content, row, w.db.outbox[j].purchaseId);
    }
  }

  /** An edit of the catalog is harmless; and a tick has all its calls served and draws new tokens. */
  ghost predicate Quiet(cfg: Config, w: World, cmd: Command) {
    && (cmd.EditCatalog? ==> Harmless(w.db, EditContent(w.db, cmd.contentId, cmd.row)))
    && (IsTick(cmd) ==>
          AllCallsServed(cmd.plans)
          && FreshTokens(cfg, w, Oldest(Unpublished(w.db.outbox), 20), cmd.plans, 0))
  }

  ghost predicate Undisturbed(cfg: Config, w: World, cmds: seq<Command>)
    decreases |cmds|
  {
    cmds == [] || (Quiet(cfg, w, cmds[0]) && Undisturbed(cfg, Serve(cfg, w, cmds[0]), cmds[1..]))
  }

  lemma QuietTick(cfg: Config, w: World, cmd: Command, i: nat, willing: set<string>)
    requires Lawful(cfg, w) && Quiet(cfg, w, cmd) && IsTick(cmd) && Tracks(w.db, i, willing)
    ensures BehavesNow(cfg, w, cmd.plans, i, willing)
    ensures Tracks(Serve(cfg, w, cmd).db, i, willing)
  {
    TickBehaves(cfg, w, cmd.plans, i, willing);
    TickTracks(cfg, w, cmd.plans, i, willing);
    TickIsServed(cfg, w, cmd.plans);
    assert cmd == OutboxTick(Served, cmd.plans);
  }

  lemma CommandTracks(cfg: Config, w: World, cmd: Command, i: nat, willing: set<string>)
    requires Lawful(cfg, w) && Quiet(cfg, w, cmd) && Tracks(w.db, i, willing)
    ensures IsTick(cmd) ==> BehavesNow(cfg, w, cmd.plans, i, willing)
    ensures Tracks(Serve(cfg, w, cmd).db, i, willing) && Lawful(cfg, Serve(cfg, w, cmd))
  {
    if IsTick(cmd) {
      QuietTick(cfg, w, cmd, i, willing);
    } else if cmd.EditCatalog? {
      EditTracks(w, cmd.contentId, cmd.row, i, willing);
    } else {
      LawfulSound(cfg, w);
      OtherTracks(cfg, w, cmd, i, willing);
    }
    ServeLawful(cfg, w, cmd);
  }

  lemma LawfulSound(cfg: Config, w: World)
    requires Lawful(cfg, w)
    ensures Sound(cfg, w)
  {
  }

  lemma {:induction false} BacklogBehaves(cfg: Config, w: World, cmds: seq<Command>, i: nat, willing: set<string>)
    requires Lawful(cfg, w) && Undisturbed(cfg, w, cmds) && Tracks(w.db, i, willing)
    ensures Behaves(cfg, w, cmds, i, willing)
    decreases |cmds|
  {
    if cmds != [] {
      CommandTracks(cfg, w, cmds[0], i, willing);
      BacklogBehaves(cfg, Serve(cfg, w, cmds[0]), cmds[1..], i, willing);
    }
  }

  /** The events up to the i-th that wait for an issuable purchase. */
  ghost function IssuableEvents(db: Db, i: nat): set<string>
    requires i < |db.outbox|
  {
    set j | 0 <= j <= i && !db.outbox[j].published && Issuable(db, db.outbox[j].purchaseId) :: db.outbox[j].id
  }

  lemma IssuableTracks(db: Db, i: nat)
    requires EventIdsUnique(db) && i < |db.outbox|
    ensures Tracks(db, i, IssuableEvents(db, i))
  {
  }

  /** How many issuable, and how many other unpublished events are ahead of the i-th. */
  ghost function IssuableAhead(db: Db, i: nat): nat
    requires i < |db.outbox|
  {
    CountIn(AheadOf(db.outbox, i), IssuableEvents(db, i))
  }

  ghost function OthersAhead(db: Db, i: nat): nat
    requires i < |db.outbox|
  {
    Unwilling(db.outbox, i, IssuableEvents(db, i))
  }

  lemma EnoughIssuable(db: Db, i: nat, g: nat, k: nat, n: nat)
    requires i < |db.outbox| && g == IssuableAhead(db, i) && k == OthersAhead(db, i)
    requires k < 20 ==> n >= g / (20 - k) + 1
    ensures OthersAhead(db, i) < 20 ==> n >= TicksLeft(db.outbox, i, IssuableEvents(db, i))
  {
    EnoughTicks(db.outbox, i, IssuableEvents(db, i), n);
  }

  lemma BacklogFrom(cfg: Config, w: World, cmds: seq<Command>, i: nat)
    requires Lawful(cfg, w) && Undisturbed(cfg, w, cmds) && i < |w.db.outbox| && !w.db.outbox[i].published
    requires OthersAhead(w.db, i) < 20 ==> Ticks(cmds) >= TicksLeft(w.db.outbox, i, IssuableEvents(w.db, i))
    ensures var o := ServeAll(cfg, w, cmds).db.outbox;
            && i < |o|
            && (o[i].published <==> Issuable(w.db, w.db.outbox[i].purchaseId) && OthersAhead(w.db, i) < 20)
  {
    IssuableTracks(w.db, i);
    BacklogBehaves(cfg, w, cmds, i, IssuableEvents(w.db, i));
    DecidedInTime(cfg, w, cmds, i, IssuableEvents(w.db, i));
  }

  /** Served from empty tables on. Given enough undisturbed ticks, an event is published if and only if its
      purchase is issuable and fewer than 20 of the unpublished events ahead of it are not; with g issuable
      and k < 20 others ahead, g / (20 - k) + 1 ticks are enough, whatever else is served in between. */
  lemma BacklogExactly(cfg: Config, s: Sys, early: seq<Command>, cmds: seq<Command>, i: nat, g: nat, k: nat)
    requires Initial(s)
    requires var w := ServeAll(cfg, s.w, early);
             && Undisturbed(cfg, w, cmds) && i < |w.db.outbox| && !w.db.outbox[i].published
             && g == IssuableAhead(w.db, i) && k == OthersAhead(w.db, i)
    requires k < 20 ==> Ticks(cmds) >= g / (20 - k) + 1
    ensures var w := ServeAll(cfg, s.w, early); var o := ServeAll(cfg, w, cmds).db.outbox;
            i < |o| && (o[i].published <==> Issuable(w.db, w.db.outbox[i].purchaseId) && k < 20)
  {
    LawfulReachable(cfg, s, early);
    EnoughIssuable(ServeAll(cfg, s.w, early).db, i, g, k, Ticks(cmds));
    BacklogFrom(cfg, ServeAll(cfg, s.w, early), cmds, i);
  }

  lemma {:induction false} ServeAllLawful(cfg: Config, w: World, cmds: seq<Command>)
    requires Lawful(cfg, w)
    ensures Lawful(cfg, ServeAll(cfg, w, cmds))
    decreases |cmds|
  {
    if cmds != [] {
      ServeLawful(cfg, w, cmds[0]);
      ServeAllLawful(cfg, Serve(cfg, w, cmds[0]), cmds[1..]);
    }
  }

  lemma LawfulReachable(cfg: Config, s: Sys, cmds: seq<Command>)
    requires Initial(s)
    ensures Lawful(cfg, ServeAll(cfg, s.w, cmds))
  {
    InitialSound(cfg, s);
    InitialOrderly(cfg, s);
    OrderlyAlone(cfg, s);
    ServeAllLawful(cfg, s.w, cmds);
  }
}
