/** Events that can never be published, and what they do to the worker. */
module DeadEvents {
  import opened Text
  import opened Domain
  import opened Tables
  import opened Protocol
  import opened Invariants
  import opened OrderlyResults
  import opened Serial
  import opened Redelivery
  import opened Completion
  import opened OutboxProgress
  import opened Backlog

  /** The purchase is not paid and without a grant: it is missing, in error, or has its grant already. */
  ghost predicate Dead(db: Db, id: string) {
    id !in db.purchases || db.purchases[id].status != Paid || Granted(db, id)
  }

  /** An issue run on a copy that is not paid, short of the point that only paid ones pass. */
  predicate Unpaid(r: Run) {
    || r.Ended?
    || (r.Issue? && !r.issue.LoadPurchase? && !r.issue.StoreIssued? && !r.issue.SendLink? && !r.issue.FlagEvent?
        && r.issue.copy.status != Paid)
  }

  lemma UnpaidStep(cfg: Config, w: World, r: Run, c: Choice)
    requires Unpaid(r)
    ensures Unpaid(RunStep(cfg, w, r, c).run)
  {
  }

  lemma {:induction false} UnpaidDrive(cfg: Config, w: World, r: Run, plan: Plan, i: nat)
    requires Unpaid(r)
    ensures Drive(cfg, w, r, plan, i).run.Ended?
    decreases CallsLeft(r)
  {
    if !Returned(r) {
      var n := RunStep(cfg, w, r, plan(i));
      CallsDescend(cfg, w, r, plan(i));
      UnpaidStep(cfg, w, r, plan(i));
      UnpaidDrive(cfg, n.w, n.run, plan, i + 1);
    }
  }

  lemma DeadDrive(cfg: Config, w: World, e: string, id: string, plan: Plan)
    requires KeysMatch(w.db) && Dead(w.db, id)
    ensures Drive(cfg, w, Issue(LoadPurchase(e, id)), plan, 0).run.Ended?
  {
    var r := Issue(LoadPurchase(e, id));
    if Granted(w.db, id) {
      GrantedDrive(cfg, w, r, plan, 0, id);
    } else {
      var n := RunStep(cfg, w, r, plan(0));
      assert Drive(cfg, w, r, plan, 0) == Drive(cfg, n.w, n.run, plan, 1);
      UnpaidDrive(cfg, n.w, n.run, plan, 1);
    }
  }

  /** Handling such an event never publishes it. */
  lemma DeadHandled(cfg: Config, w: World, e: OutboxRow, plan: Plan)
    requires KeysMatch(w.db) && Dead(w.db, e.purchaseId)
    ensures HandleEvent(cfg, w, e, plan).db.outbox == w.db.outbox
  {
    if e.kind == CONFIRMED {
      DeadDrive(cfg, w, e.id, e.purchaseId, plan);
      DriveIssueOutbox(cfg, w, LoadPurchase(e.id, e.purchaseId), plan, 0);
    }
  }

  lemma UntouchedDead(a: Db, b: Db, id: string)
    requires Untouched(a, b, id)
    ensures Dead(a, id) <==> Dead(b, id)
  {
  }

  lemma {:induction false} DeadBatch(cfg: Config, w: World, events: seq<OutboxRow>, plans: nat -> Plan, i: nat)
    requires KeysMatch(w.db) && i <= |events| && DistinctPurchases(events)
    requires forall j | i <= j < |events| :: Dead(w.db, events[j].purchaseId)
    ensures HandleBatch(cfg, w, events, plans, i).db.outbox == w.db.outbox
    decreases |events| - i
  {
    if i < |events| {
      var v := HandleEvent(cfg, w, events[i], plans(i));
      DeadHandled(cfg, w, events[i], plans(i));
      EventGrows(cfg, w, events[i], plans(i));
      forall j | i + 1 <= j < |events|
        ensures Dead(v.db, events[j].purchaseId)
      {
        ForeignEvent(cfg, w, events[i], plans(i), events[j].purchaseId);
        UntouchedDead(w.db, v.db, events[j].purchaseId);
      }
      DeadBatch(cfg, v, events, plans, i + 1);
    }
  }

  /** What is dead stays dead. */
  lemma DeadStays(a: Db, b: Db, id: string)
    requires Dead(a, id) && Settled(a, id) && GrantsKept(a, b) && RowsLater(a, b)
    ensures Dead(b, id)
  {
    if Granted(a, id) {
      var g :| g in a.grants && a.grants[g].purchaseId == id;
      assert b.grants[g].purchaseId == id;
    }
  }

  lemma BatchSettled(db: Db, e: OutboxRow)
    requires OutboxOk(db) && e in Oldest(Unpublished(db.outbox), 20)
    ensures Settled(db, e.purchaseId) && e in db.outbox && !e.published
  {
    UnpublishedRows(db.outbox);
    assert e in Unpublished(db.outbox);
    var j :| 0 <= j < |db.outbox| && db.outbox[j] == e;
  }

  lemma DeadTick(cfg: Config, w: World, cmd: Command, events: seq<OutboxRow>)
    requires KeysMatch(w.db) && DistinctPurchases(events)
    requires IsTick(cmd) && events == Oldest(Unpublished(w.db.outbox), 20)
    requires forall e | e in events :: Dead(w.db, e.purchaseId)
    ensures Serve(cfg, w, cmd).db.outbox == w.db.outbox
  {
    DeadBatch(cfg, w, events, cmd.plans, 0);
  }

  lemma DeadCommand(cfg: Config, w: World, cmd: Command, events: seq<OutboxRow>)
    requires Lawful(cfg, w) && events == Oldest(Unpublished(w.db.outbox), 20)
    requires forall e | e in events :: Dead(w.db, e.purchaseId)
    ensures var v := Serve(cfg, w, cmd).db;
            w.db.outbox <= v.outbox && forall e | e in events :: Dead(v, e.purchaseId)
  {
    if IsTick(cmd) {
      SoundKeys(cfg, w);
      BatchDistinct(w.db);
      DeadTick(cfg, w, cmd, events);
    } else {
      ServeAppends(cfg, w, cmd);
    }
    ServeLawful(cfg, w, cmd);
    forall e | e in events
      ensures Dead(Serve(cfg, w, cmd).db, e.purchaseId)
    {
      BatchSettled(w.db, e);
      DeadStays(w.db, Serve(cfg, w, cmd).db, e.purchaseId);
    }
  }

  /** The 20 oldest unpublished events are these, and they are dead. */
  ghost predicate AllDead(cfg: Config, w: World, events: seq<OutboxRow>) {
    && Lawful(cfg, w) && events == Oldest(Unpublished(w.db.outbox), 20) && |events| == 20
    && forall e | e in events :: Dead(w.db, e.purchaseId)
  }

  lemma DeadStep(cfg: Config, w: World, cmd: Command, events: seq<OutboxRow>)
    requires AllDead(cfg, w, events)
    ensures var v := Serve(cfg, w, cmd); AllDead(cfg, v, events) == true && w.db.outbox <= v.db.outbox
  {
    DeadCommand(cfg, w, cmd, events);
    ServeLawful(cfg, w, cmd);
    OldestAppended(w.db.outbox, Serve(cfg, w, cmd).db.outbox);
  }

  lemma {:induction false} DeadForever(cfg: Config, w: World, cmds: seq<Command>, events: seq<OutboxRow>)
    requires AllDead(cfg, w, events)
    ensures var o := ServeAll(cfg, w, cmds).db.outbox; Oldest(Unpublished(o), 20) == events && w.db.outbox <= o
    decreases |cmds|
  {
    if cmds != [] {
      DeadStep(cfg, w, cmds[0], events);
      DeadForever(cfg, Serve(cfg, w, cmds[0]), cmds[1..], events);
    }
  }

  /** Served from empty tables on: when the 20 oldest unpublished events are all dead, they are the batch of
      every tick from then on, whatever is served. */
  lemma StarvedForever(cfg: Config, s: Sys, early: seq<Command>, cmds: seq<Command>, events: seq<OutboxRow>)
    requires Initial(s)
    requires var db := ServeAll(cfg, s.w, early).db;
             events == Oldest(Unpublished(db.outbox), 20) && |events| == 20
             && forall e | e in events :: Dead(db, e.purchaseId)
    ensures var w := ServeAll(cfg, s.w, early); var o := ServeAll(cfg, w, cmds).db.outbox;
            Oldest(Unpublished(o), 20) == events && w.db.outbox <= o
  {
    LawfulReachable(cfg, s, early);
    DeadForever(cfg, ServeAll(cfg, s.w, early), cmds, events);
  }

  // ---------- exactly the dead ones ----------

  /** Whatever is served, and however its calls end, handling the event does not publish it. */
  ghost predicate NeverPublishes(cfg: Config, w: World, e: OutboxRow) {
    forall cmds: seq<Command>, plan: Plan ::
      HandleEvent(cfg, ServeAll(cfg, w, cmds), e, plan).db.outbox == ServeAll(cfg, w, cmds).db.outbox
  }

  lemma {:induction false} StaysDead(cfg: Config, w: World, cmds: seq<Command>, id: string)
    requires Lawful(cfg, w) && Settled(w.db, id) && Dead(w.db, id)
    ensures Dead(ServeAll(cfg, w, cmds).db, id) && KeysMatch(ServeAll(cfg, w, cmds).db)
    decreases |cmds|
  {
    if cmds == [] {
      SoundKeys(cfg, w);
    } else {
      ServeLawful(cfg, w, cmds[0]);
      DeadStays(w.db, Serve(cfg, w, cmds[0]).db, id);
      StaysDead(cfg, Serve(cfg, w, cmds[0]), cmds[1..], id);
    }
  }

  function Purchasable(id: string): Content {
    Content(id, "", "", "", 1, true)
  }

  function ServedCall(raw: string): Choice {
    Choice(Served, Served, 0, 0, "", "", 0, raw, "")
  }

  /** A live event is published by handling it once the content can be purchased and all calls are served. */
  lemma LiveIsPublished(cfg: Config, w: World, e: OutboxRow, raw: string)
    requires Sound(cfg, w) && Waiting(w.db, e) && !Dead(w.db, e.purchaseId) && FreshToken(cfg, w.db, raw)
    ensures var content := w.db.purchases[e.purchaseId].contentId;
            var v := Serve(cfg, w, EditCatalog(content, Some(Purchasable(content))));
            HandleEvent(cfg, v, e, (i: nat) => ServedCall(raw)).db.outbox != v.db.outbox
  {
    var content := w.db.purchases[e.purchaseId].contentId;
    var cmd := EditCatalog(content, Some(Purchasable(content)));
    var v := Serve(cfg, w, cmd);
    ServeSound(cfg, w, cmd);
    assert v.db.contents[content] == Purchasable(content);
    assert Healthy(cfg, v.db, e.purchaseId, raw);
    PublishedIffHealthy(cfg, v, e, (i: nat) => ServedCall(raw));
  }

  lemma DeadNeverPublishes(cfg: Config, w: World, e: OutboxRow)
    requires Lawful(cfg, w) && Waiting(w.db, e) && Dead(w.db, e.purchaseId)
    ensures NeverPublishes(cfg, w, e)
  {
    var j :| 0 <= j < |w.db.outbox| && w.db.outbox[j] == e;
    EventSettled(cfg, w.db, j);
    forall cmds: seq<Command>, plan: Plan
      ensures HandleEvent(cfg, ServeAll(cfg, w, cmds), e, plan).db.outbox == ServeAll(cfg, w, cmds).db.outbox
    {
      StaysDead(cfg, w, cmds, e.purchaseId);
      DeadHandled(cfg, ServeAll(cfg, w, cmds), e, plan);
    }
  }

  lemma LiveMayBePublished(cfg: Config, w: World, e: OutboxRow, raw: string)
    requires Sound(cfg, w) && Waiting(w.db, e) && !Dead(w.db, e.purchaseId) && FreshToken(cfg, w.db, raw)
    ensures !NeverPublishes(cfg, w, e)
  {
    LiveIsPublished(cfg, w, e, raw);
    var content := w.db.purchases[e.purchaseId].contentId;
    var cmd := EditCatalog(content, Some(Purchasable(content)));
    assert ServeAll(cfg, w, [cmd]) == Serve(cfg, w, cmd) by {
      assert [cmd][1..] == [];
    }
  }

  /** Served from empty tables on, and as long as there is a token with a new hash: a waiting event can never be
      published again if and only if its purchase is dead. */
  lemma DeadExactly(cfg: Config, s: Sys, early: seq<Command>, e: OutboxRow, raw: string)
    requires Initial(s)
    requires var w := ServeAll(cfg, s.w, early); Waiting(w.db, e) && FreshToken(cfg, w.db, raw)
    ensures var w := ServeAll(cfg, s.w, early); NeverPublishes(cfg, w, e) <==> Dead(w.db, e.purchaseId)
  {
    var w := ServeAll(cfg, s.w, early);
    LawfulReachable(cfg, s, early);
    if Dead(w.db, e.purchaseId) {
      DeadNeverPublishes(cfg, w, e);
    } else {
      LiveMayBePublished(cfg, w, e, raw);
    }
  }
}
