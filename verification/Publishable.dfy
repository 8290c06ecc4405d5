/** Which waiting events can still be published at all, with the best of environments. */
module Publishable {
  import opened Text
  import opened Domain
  import opened Tables
  import opened Protocol
  import opened Invariants
  import opened Serial
  import opened Completion
  import opened OutboxProgress
  import opened Backlog
  import opened DeadEvents

  /** The unpublished events up to the i-th whose purchases are not dead. */
  ghost function LiveEvents(db: Db, i: nat): set<string>
    requires i < |db.outbox|
  {
    set j | 0 <= j <= i && !db.outbox[j].published && !Dead(db, db.outbox[j].purchaseId) :: db.outbox[j].id
  }

  /** How many unpublished events older than the i-th are dead. */
  ghost function DeadAhead(db: Db, i: nat): nat
    requires i < |db.outbox|
  {
    Unwilling(db.outbox, i, LiveEvents(db, i))
  }

  // ---------- no chance ----------

  lemma DeadLater(cfg: Config, w: World, e: OutboxRow, plan: Plan, id: string)
    requires KeysMatch(w.db) && e.purchaseId != id && Dead(w.db, id)
    ensures var v := HandleEvent(cfg, w, e, plan).db; KeysMatch(v) && Dead(v, id)
  {
    EventGrows(cfg, w, e, plan);
    ForeignEvent(cfg, w, e, plan, id);
    UntouchedDead(w.db, HandleEvent(cfg, w, e, plan).db, id);
  }

  /** The other events of the batch are others. */
  predicate Apart(events: seq<OutboxRow>, k: nat)
    requires k < |events|
  {
    forall j | 0 <= j < |events| && j != k ::
      events[j].id != events[k].id && events[j].purchaseId != events[k].purchaseId
  }

  lemma DeadFirst(cfg: Config, w: World, events: seq<OutboxRow>, plans: nat -> Plan, i: nat)
    requires KeysMatch(w.db) && i < |events| && Apart(events, i) && Dead(w.db, events[i].purchaseId)
    ensures events[i].id !in PublishedBy(cfg, w, events, plans, i)
  {
    DeadHandled(cfg, w, events[i], plans(i));
    FirstInBatch(cfg, w, events, plans, i);
  }

  lemma {:induction false} DeadNotPublished(cfg: Config, w: World, events: seq<OutboxRow>, plans: nat -> Plan,
                                            i: nat, k: nat)
    requires KeysMatch(w.db) && i <= k < |events| && Apart(events, k) && Dead(w.db, events[k].purchaseId)
    ensures events[k].id !in PublishedBy(cfg, w, events, plans, i)
    decreases k - i
  {
    if i == k {
      DeadFirst(cfg, w, events, plans, k);
    } else {
      DeadLater(cfg, w, events[i], plans(i), events[k].purchaseId);
      DeadNotPublished(cfg, HandleEvent(cfg, w, events[i], plans(i)), events, plans, i + 1, k);
      LaterPublished(cfg, w, events, plans, i, k);
    }
  }

  lemma BatchIds(db: Db)
    requires EventIdsUnique(db)
    ensures DistinctIds(Oldest(Unpublished(db.outbox), 20)) && DistinctIds(Unpublished(db.outbox))
  {
    UnpublishedDistinct(db.outbox);
  }

  /** A tick publishes no dead event. */
  lemma TickSparesDead(cfg: Config, w: World, plans: nat -> Plan, k: nat)
    requires Lawful(cfg, w) && k < |w.db.outbox| && Dead(w.db, w.db.outbox[k].purchaseId)
    ensures w.db.outbox[k].id !in Published(cfg, w, plans)
  {
    var events := Oldest(Unpublished(w.db.outbox), 20);
    InBatch(cfg, w, plans, k);
    if w.db.outbox[k] in events {
      var n :| 0 <= n < |events| && events[n] == w.db.outbox[k];
      SoundKeys(cfg, w);
      BatchDistinct(w.db);
      BatchIds(w.db);
      DeadNotPublished(cfg, w, events, plans, 0, n);
    }
  }

  /** A tick publishes no event with a full batch ahead of it. */
  lemma TickSparesLate(cfg: Config, w: World, plans: nat -> Plan, i: nat)
    requires EventIdsUnique(w.db) && i < |w.db.outbox| && !w.db.outbox[i].published
    requires |AheadOf(w.db.outbox, i)| >= 20
    ensures w.db.outbox[i].id !in Published(cfg, w, plans)
  {
    TickOutbox(cfg, w, plans);
    QueuePosition(w.db.outbox, i);
    BatchIds(w.db);
    NotInFront(Unpublished(w.db.outbox), |AheadOf(w.db.outbox, i)|);
  }

  /** What goes from a queue is live: the others stay as many as they were. */
  lemma {:induction false} KeepLive(q: seq<string>, gone: set<string>, live: set<string>)
    requires forall x | x in q && x in gone :: x in live
    ensures |Keep(q, gone)| - CountIn(Keep(q, gone), live) == |q| - CountIn(q, live)
  {
    if q != [] {
      assert forall x | x in q[1..] :: x in q;
      KeepLive(q[1..], gone, live);
      if q[0] !in gone {
        assert Keep(q, gone)[0] == q[0] && Keep(q, gone)[1..] == Keep(q[1..], gone);
      } else {
        assert q[0] in q && Keep(q, gone) == Keep(q[1..], gone);
      }
    }
  }

  /** The i-th event is dead, or has 20 dead ones ahead of it; whichever are live is decided once and for all. */
  ghost predicate Barred(db: Db, i: nat, live: set<string>) {
    && i < |db.outbox| && !db.outbox[i].published
    && (forall k | 0 <= k <= i && !db.outbox[k].published && db.outbox[k].id !in live ::
          Dead(db, db.outbox[k].purchaseId))
    && (db.outbox[i].id !in live || Unwilling(db.outbox, i, live) >= 20)
  }

  lemma AheadRow(db: Db, i: nat, x: string) returns (k: nat)
    requires i <= |db.outbox| && x in AheadOf(db.outbox, i)
    ensures k < i && db.outbox[k].id == x && !db.outbox[k].published
  {
    var rows := Unpublished(db.outbox[..i]);
    var n :| 0 <= n < |rows| && AheadOf(db.outbox, i)[n] == x;
    UnpublishedRows(db.outbox[..i]);
    assert rows[n] in rows;
    k :| 0 <= k < i && db.outbox[..i][k] == rows[n];
  }

  lemma TickSparesBarred(cfg: Config, w: World, plans: nat -> Plan, i: nat, live: set<string>)
    requires Lawful(cfg, w) && Barred(w.db, i, live)
    ensures w.db.outbox[i].id !in Published(cfg, w, plans)
    ensures var o := Tick(cfg, w, Served, plans).db.outbox;
            i < |o| && Unwilling(o, i, live) == Unwilling(w.db.outbox, i, live)
  {
    var gone := Published(cfg, w, plans);
    var ahead := AheadOf(w.db.outbox, i);
    TickOutbox(cfg, w, plans);
    FlaggedAhead(w.db.outbox, gone, i);
    forall x | x in ahead && x in gone
      ensures x in live
    {
      var k := AheadRow(w.db, i, x);
      if x !in live {
        TickSparesDead(cfg, w, plans, k);
      }
    }
    KeepLive(ahead, gone, live);
    if w.db.outbox[i].id !in live {
      TickSparesDead(cfg, w, plans, i);
    } else {
      TickSparesLate(cfg, w, plans, i);
    }
  }

  lemma EventStaysDead(cfg: Config, w: World, cmd: Command, k: nat)
    requires Lawful(cfg, w) && k < |w.db.outbox| && Dead(w.db, w.db.outbox[k].purchaseId)
    ensures Dead(Serve(cfg, w, cmd).db, w.db.outbox[k].purchaseId)
  {
    EventSettled(cfg, w.db, k);
    ServeLawful(cfg, w, cmd);
    DeadStays(w.db, Serve(cfg, w, cmd).db, w.db.outbox[k].purchaseId);
  }

  /** The rows up to the i-th are the same events, and those published stay so. */
  predicate SameEvents(a: seq<OutboxRow>, b: seq<OutboxRow>, i: nat) {
    && i < |a| && i < |b|
    && forall k | 0 <= k <= i ::
         b[k].id == a[k].id && b[k].purchaseId == a[k].purchaseId && (a[k].published ==> b[k].published)
  }

  lemma BarredTick(cfg: Config, w: World, plans: nat -> Plan, i: nat, live: set<string>)
    requires Lawful(cfg, w) && Barred(w.db, i, live)
    ensures var o := Tick(cfg, w, Served, plans).db.outbox;
            SameEvents(w.db.outbox, o, i) && !o[i].published && Unwilling(o, i, live) == Unwilling(w.db.outbox, i, live)
  {
    TickSparesBarred(cfg, w, plans, i, live);
    TickOutbox(cfg, w, plans);
    FlaggedSame(w.db.outbox, Published(cfg, w, plans), i);
  }

  lemma FlaggedSame(outbox: seq<OutboxRow>, gone: set<string>, i: nat)
    requires i < |outbox| && !outbox[i].published && outbox[i].id !in gone
    ensures SameEvents(outbox, FlagAll(outbox, gone), i) && !FlagAll(outbox, gone)[i].published
  {
  }

  lemma AppendedSame(a: seq<OutboxRow>, b: seq<OutboxRow>, i: nat, live: set<string>)
    requires a <= b && i < |a|
    ensures SameEvents(a, b, i) && b[i] == a[i] && Unwilling(b, i, live) == Unwilling(a, i, live)
  {
    assert b[..i] == a[..i];
  }

  lemma BarredQueue(cfg: Config, w: World, cmd: Command, i: nat, live: set<string>)
    requires Lawful(cfg, w) && Barred(w.db, i, live)
    ensures var o := Serve(cfg, w, cmd).db.outbox;
            SameEvents(w.db.outbox, o, i) && !o[i].published && Unwilling(o, i, live) == Unwilling(w.db.outbox, i, live)
  {
    if IsTick(cmd) {
      BarredTick(cfg, w, cmd.plans, i, live);
      TickIsServed(cfg, w, cmd.plans);
      assert cmd == OutboxTick(Served, cmd.plans);
    } else {
      ServeAppends(cfg, w, cmd);
      AppendedSame(w.db.outbox, Serve(cfg, w, cmd).db.outbox, i, live);
    }
  }

  lemma StaysBarred(cfg: Config, w: World, cmd: Command, i: nat, live: set<string>)
    requires Lawful(cfg, w) && Barred(w.db, i, live)
    ensures Barred(Serve(cfg, w, cmd).db, i, live)
  {
    var v := Serve(cfg, w, cmd).db;
    BarredQueue(cfg, w, cmd, i, live);
    forall k | 0 <= k <= i && !v.outbox[k].published && v.outbox[k].id !in live
      ensures Dead(v, v.outbox[k].purchaseId)
    {
      EventStaysDead(cfg, w, cmd, k);
    }
  }

  lemma {:induction false} BarredForever(cfg: Config, w: World, cmds: seq<Command>, i: nat, live: set<string>)
    requires Lawful(cfg, w) && Barred(w.db, i, live)
    ensures Barred(ServeAll(cfg, w, cmds).db, i, live)
    decreases |cmds|
  {
    if cmds != [] {
      StaysBarred(cfg, w, cmds[0], i, live);
      ServeLawful(cfg, w, cmds[0]);
      BarredForever(cfg, Serve(cfg, w, cmds[0]), cmds[1..], i, live);
    }
  }

  lemma BarredNow(cfg: Config, w: World, i: nat)
    requires EventIdsUnique(w.db) && i < |w.db.outbox| && !w.db.outbox[i].published
    requires Dead(w.db, w.db.outbox[i].purchaseId) || DeadAhead(w.db, i) >= 20
    ensures Barred(w.db, i, LiveEvents(w.db, i))
  {
  }

  // ---------- a chance: tokens enough ----------

  /** However many hashes up to that number are taken, there is a token with another one. */
  ghost predicate CanDraw(cfg: Config, room: nat) {
    forall taken: set<string> | |taken| <= room :: exists raw :: cfg.hash(raw) !in taken
  }

  ghost function Hashes(grants: map<string, Grant>): set<string> {
    set id | id in grants :: grants[id].tokenHash
  }

  lemma {:induction false} HashesFew(grants: map<string, Grant>)
    ensures |Hashes(grants)| <= |grants|
    decreases |grants|
  {
    if grants != map[] {
      var id :| id in grants;
      var rest := grants - {id};
      assert |rest| == |grants| - 1 by {
        assert grants.Keys == rest.Keys + {id};
        assert |rest.Keys| == |rest| && |grants.Keys| == |grants|;
      }
      HashesFew(rest);
      assert Hashes(grants) == Hashes(rest) + {grants[id].tokenHash};
    }
  }

  lemma DrawOne(cfg: Config, db: Db, room: nat) returns (raw: string)
    requires CanDraw(cfg, room) && |db.grants| <= room
    ensures FreshToken(cfg, db, raw)
  {
    HashesFew(db.grants);
    raw :| cfg.hash(raw) !in Hashes(db.grants);
  }

  /** An issue run adds one grant at most. */
  function GrantsToCome(r: Run): nat {
    if CallsLeft(r) >= 5 then 1 else 0
  }

  lemma GrantStep(cfg: Config, w: World, r: IssueRun, c: Choice)
    ensures var n := IssueStep(cfg, w, r, c);
            |n.w.db.grants| + GrantsToCome(n.run) <= |w.db.grants| + GrantsToCome(Issue(r))
            && (n.run.Ended? || n.run.Issue?)
  {
  }

  lemma {:induction false} GrantDrive(cfg: Config, w: World, r: Run, plan: Plan, i: nat)
    requires r.Issue? || r.Ended?
    ensures |Drive(cfg, w, r, plan, i).w.db.grants| <= |w.db.grants| + GrantsToCome(r)
    decreases CallsLeft(r)
  {
    if !Returned(r) {
      var n := RunStep(cfg, w, r, plan(i));
      CallsDescend(cfg, w, r, plan(i));
      GrantStep(cfg, w, r.issue, plan(i));
      GrantDrive(cfg, n.w, n.run, plan, i + 1);
    }
  }

  lemma EventGrants(cfg: Config, w: World, e: OutboxRow, plan: Plan)
    ensures |HandleEvent(cfg, w, e, plan).db.grants| <= |w.db.grants| + 1
  {
    if e.kind == CONFIRMED {
      GrantDrive(cfg, w, Issue(LoadPurchase(e.id, e.purchaseId)), plan, 0);
      DriveIssueOutbox(cfg, w, LoadPurchase(e.id, e.purchaseId), plan, 0);
    }
  }

  lemma {:induction false} SamePlans(cfg: Config, w: World, events: seq<OutboxRow>, a: nat -> Plan, b: nat -> Plan,
                                     i: nat)
    requires i <= |events| && forall k: nat | i <= k :: a(k) == b(k)
    ensures FreshTokens(cfg, w, events, a, i) <==> FreshTokens(cfg, w, events, b, i)
    ensures HandleBatch(cfg, w, events, a, i) == HandleBatch(cfg, w, events, b, i)
    decreases |events| - i
  {
    if i < |events| {
      SamePlans(cfg, HandleEvent(cfg, w, events[i], a(i)), events, a, b, i + 1);
    }
  }

  /** The plans for a batch: this one for the i-th event, those for the others. */
  function WithPlan(i: nat, plan: Plan, rest: nat -> Plan): nat -> Plan {
    (k: nat) => if k == i then plan else rest(k)
  }

  lemma ServedPlans(i: nat, raw: string, rest: nat -> Plan)
    requires AllCallsServed(rest)
    ensures AllCallsServed(WithPlan(i, (j: nat) => ServedCall(raw), rest))
  {
  }

  lemma DrawFirst(cfg: Config, w: World, events: seq<OutboxRow>, i: nat, plan: Plan, rest: nat -> Plan)
    requires i < |events| && FreshToken(cfg, w.db, plan(3).raw)
    requires FreshTokens(cfg, HandleEvent(cfg, w, events[i], plan), events, rest, i + 1)
    ensures FreshTokens(cfg, w, events, WithPlan(i, plan, rest), i)
    ensures HandleBatch(cfg, w, events, WithPlan(i, plan, rest), i)
            == HandleBatch(cfg, HandleEvent(cfg, w, events[i], plan), events, rest, i + 1)
  {
    SamePlans(cfg, HandleEvent(cfg, w, events[i], plan), events, WithPlan(i, plan, rest), rest, i + 1);
  }

  lemma DrawEvent(cfg: Config, w: World, e: OutboxRow, room: nat) returns (raw: string)
    requires CanDraw(cfg, room) && |w.db.grants| <= room
    ensures FreshToken(cfg, w.db, raw)
    ensures |HandleEvent(cfg, w, e, (j: nat) => ServedCall(raw)).db.grants| <= |w.db.grants| + 1
  {
    raw := DrawOne(cfg, w.db, room);
    EventGrants(cfg, w, e, (j: nat) => ServedCall(raw));
  }

  /** Plans for a batch with all calls served and a new token for every event. */
  lemma {:induction false} DrawTokens(cfg: Config, w: World, events: seq<OutboxRow>, i: nat, room: nat)
    returns (plans: nat -> Plan)
    requires i <= |events| && CanDraw(cfg, room) && |w.db.grants| + |events| - i <= room
    ensures AllCallsServed(plans) && FreshTokens(cfg, w, events, plans, i)
    ensures |HandleBatch(cfg, w, events, plans, i).db.grants| <= |w.db.grants| + |events| - i
    decreases |events| - i
  {
    if i == |events| {
      plans := (k: nat) => (j: nat) => ServedCall("");
    } else {
      var raw := DrawEvent(cfg, w, events[i], room);
      var plan: Plan := (j: nat) => ServedCall(raw);
      var rest := DrawTokens(cfg, HandleEvent(cfg, w, events[i], plan), events, i + 1, room);
      plans := WithPlan(i, plan, rest);
      ServedPlans(i, raw, rest);
      DrawFirst(cfg, w, events, i, plan, rest);
    }
  }

  lemma {:induction false} QuietTicks(cfg: Config, w: World, n: nat, room: nat) returns (cmds: seq<Command>)
    requires CanDraw(cfg, room) && |w.db.grants| + 20 * n <= room
    ensures Undisturbed(cfg, w, cmds) && Ticks(cmds) == n
    decreases n
  {
    cmds := [];
    if n > 0 {
      var events := Oldest(Unpublished(w.db.outbox), 20);
      var plans := DrawTokens(cfg, w, events, 0, room);
      var cmd := OutboxTick(Served, plans);
      var rest := QuietTicks(cfg, Serve(cfg, w, cmd), n - 1, room);
      cmds := [cmd] + rest;
      assert cmds[1..] == rest;
    }
  }

  // ---------- a chance: everything on sale ----------

  /** One edit more on sale. */
  lemma PutOnSale(cfg: Config, w: World, content: string)
    ensures var v := Serve(cfg, w, EditCatalog(content, Some(Purchasable(content))));
            && v == w.(db := w.db.(contents := v.db.contents)) && OnSale(v.db, content)
            && (forall c | OnSale(w.db, c) :: OnSale(v.db, c))
  {
  }

  /** What the first n events are for is on sale in b, and whatever is in a. */
  predicate SaleOpened(a: Db, b: Db, n: nat) {
    && b == a.(contents := b.contents) && n <= |a.outbox|
    && (forall c | c in a.contents && OnSale(a, c) :: OnSale(b, c))
    && (forall k | 0 <= k < n && a.outbox[k].purchaseId in a.purchases ::
          OnSale(b, a.purchases[a.outbox[k].purchaseId].contentId))
  }

  lemma SaleGoesOn(a: Db, b: Db, c: Db, n: nat)
    requires n < |a.outbox| && b == a.(contents := b.contents) && SaleOpened(b, c, n)
    requires forall x | x in a.contents && OnSale(a, x) :: OnSale(b, x)
    requires a.outbox[n].purchaseId in a.purchases ==> OnSale(b, a.purchases[a.outbox[n].purchaseId].contentId)
    ensures SaleOpened(a, c, n + 1)
  {
  }

  ghost predicate Opened(cfg: Config, a: World, b: World, n: nat) {
    Lawful(cfg, b) && b == a.(db := b.db) && SaleOpened(a.db, b.db, n)
  }

  lemma OpenedNext(cfg: Config, a: World, b: World, c: World, n: nat)
    requires n < |a.db.outbox| && b == a.(db := b.db) && b.db == a.db.(contents := b.db.contents)
    requires forall x | x in a.db.contents && OnSale(a.db, x) :: OnSale(b.db, x)
    requires var id := a.db.outbox[n].purchaseId;
             id in a.db.purchases ==> OnSale(b.db, a.db.purchases[id].contentId)
    requires Opened(cfg, b, c, n)
    ensures Opened(cfg, a, c, n + 1)
  {
    SaleGoesOn(a.db, b.db, c.db, n);
  }

  /** The edit for the n-th event. */
  lemma NextSale(cfg: Config, w: World, n: nat) returns (cmd: Command)
    requires Lawful(cfg, w) && n < |w.db.outbox|
    ensures var v := Serve(cfg, w, cmd); var id := w.db.outbox[n].purchaseId;
            && Lawful(cfg, v) && v == w.(db := v.db) && v.db == w.db.(contents := v.db.contents)
            && (forall c | c in w.db.contents && OnSale(w.db, c) :: OnSale(v.db, c))
            && id in w.db.purchases && OnSale(v.db, w.db.purchases[id].contentId)
  {
    EventSettled(cfg, w.db, n);
    var content := w.db.purchases[w.db.outbox[n].purchaseId].contentId;
    cmd := EditCatalog(content, Some(Purchasable(content)));
    ServeLawful(cfg, w, cmd);
    PutOnSale(cfg, w, content);
  }

  /** The catalog edited so that the purchases of the first n events can be served. */
  lemma {:induction false} OpenSale(cfg: Config, w: World, n: nat) returns (cmds: seq<Command>)
    requires Lawful(cfg, w) && n <= |w.db.outbox|
    ensures Opened(cfg, w, ServeAll(cfg, w, cmds), n)
    decreases n
  {
    if n == 0 {
      cmds := [];
    } else {
      var cmd := NextSale(cfg, w, n - 1);
      var v := Serve(cfg, w, cmd);
      var rest := OpenSale(cfg, v, n - 1);
      cmds := [cmd] + rest;
      ServeFirst(cfg, w, cmd, rest);
      OpenedNext(cfg, w, v, ServeAll(cfg, v, rest), n - 1);
    }
  }

  lemma ServeFirst(cfg: Config, w: World, cmd: Command, rest: seq<Command>)
    ensures ServeAll(cfg, w, [cmd] + rest) == ServeAll(cfg, Serve(cfg, w, cmd), rest)
  {
    assert ([cmd] + rest)[0] == cmd && ([cmd] + rest)[1..] == rest;
  }

  /** As many hashes as can be taken by the ticks it needs. */
  function RoomFor(db: Db): nat {
    |db.grants| + 20 * (|db.outbox| + 1)
  }

  lemma OpenedLive(a: Db, b: Db, i: nat)
    requires i < |a.outbox| && SaleOpened(a, b, i + 1)
    ensures IssuableEvents(b, i) == LiveEvents(a, i) && Unwilling(b.outbox, i, IssuableEvents(b, i)) == DeadAhead(a, i)
    ensures RoomFor(b) == RoomFor(a)
    ensures Issuable(b, a.outbox[i].purchaseId) <==> !Dead(a, a.outbox[i].purchaseId)
  {
    forall k | 0 <= k <= i
      ensures Issuable(b, a.outbox[k].purchaseId) <==> !Dead(a, a.outbox[k].purchaseId)
    {
      LiveOnSale(a, b, a.outbox[k].purchaseId);
    }
  }

  lemma LiveOnSale(a: Db, b: Db, id: string)
    requires b == a.(contents := b.contents) && (id in a.purchases ==> OnSale(b, a.purchases[id].contentId))
    ensures Issuable(b, id) <==> !Dead(a, id)
  {
    assert Granted(a, id) <==> exists g :: g in b.grants && b.grants[g].purchaseId == id;
  }

  lemma {:induction false} ServeConcat(cfg: Config, w: World, a: seq<Command>, b: seq<Command>)
    ensures ServeAll(cfg, w, a + b) == ServeAll(cfg, ServeAll(cfg, w, a), b)
    decreases |a|
  {
    if a == [] {
      assert a + b == b;
    } else {
      assert (a + b)[0] == a[0] && (a + b)[1..] == a[1..] + b;
      ServeConcat(cfg, Serve(cfg, w, a[0]), a[1..], b);
    }
  }

  lemma FewTicks(outbox: seq<OutboxRow>, i: nat, willing: set<string>)
    requires i <= |outbox| && Unwilling(outbox, i, willing) < 20
    ensures TicksLeft(outbox, i, willing) <= |outbox| + 1
  {
    var g := CountIn(AheadOf(outbox, i), willing);
    CountBounded(AheadOf(outbox, i), willing);
    UnpublishedRows(outbox[..i]);
    QuotientSmall(g, 20 - Unwilling(outbox, i, willing));
  }

  lemma QuotientSmall(g: nat, d: nat)
    requires d > 0
    ensures g / d <= g
  {
    if g / d > g {
      MulMonotone(g + 1, g / d, d);
      MulMonotone(1, d, g + 1);
    }
  }

  /** With everything on sale, enough ticks with their calls served publish an event that has fewer than 20
      others ahead of it. */
  lemma OnSalePublished(cfg: Config, w: World, i: nat) returns (ticks: seq<Command>)
    requires Lawful(cfg, w) && i < |w.db.outbox| && !w.db.outbox[i].published && CanDraw(cfg, RoomFor(w.db))
    requires Issuable(w.db, w.db.outbox[i].purchaseId) && Unwilling(w.db.outbox, i, IssuableEvents(w.db, i)) < 20
    ensures i < |ServeAll(cfg, w, ticks).db.outbox| && ServeAll(cfg, w, ticks).db.outbox[i].published
  {
    var willing := IssuableEvents(w.db, i);
    FewTicks(w.db.outbox, i, willing);
    ticks := QuietTicks(cfg, w, TicksLeft(w.db.outbox, i, willing), RoomFor(w.db));
    IssuableTracks(w.db, i);
    BacklogBehaves(cfg, w, ticks, i, willing);
    DecidedInTime(cfg, w, ticks, i, willing);
  }

  /** A live event with fewer than 20 dead ones ahead is published once everything is on sale and enough ticks
      have their calls served. */
  lemma LiveGetsPublished(cfg: Config, w: World, i: nat) returns (cmds: seq<Command>)
    requires Lawful(cfg, w) && i < |w.db.outbox| && !w.db.outbox[i].published && CanDraw(cfg, RoomFor(w.db))
    requires !Dead(w.db, w.db.outbox[i].purchaseId) && DeadAhead(w.db, i) < 20
    ensures i < |ServeAll(cfg, w, cmds).db.outbox| && ServeAll(cfg, w, cmds).db.outbox[i].published
  {
    var edits := OpenSale(cfg, w, i + 1);
    var v := ServeAll(cfg, w, edits);
    OpenedLive(w.db, v.db, i);
    var ticks := OnSalePublished(cfg, v, i);
    cmds := edits + ticks;
    ServeConcat(cfg, w, edits, ticks);
  }

  // ---------- exactly ----------

  /** The i-th event is unpublished, whatever has been served. */
  ghost predicate NeverPublished(cfg: Config, w: World, i: nat) {
    forall cmds: seq<Command> ::
      i < |ServeAll(cfg, w, cmds).db.outbox| && !ServeAll(cfg, w, cmds).db.outbox[i].published
  }

  lemma BarredIsNever(cfg: Config, w: World, i: nat)
    requires Lawful(cfg, w) && i < |w.db.outbox| && !w.db.outbox[i].published
    requires Dead(w.db, w.db.outbox[i].purchaseId) || DeadAhead(w.db, i) >= 20
    ensures NeverPublished(cfg, w, i)
  {
    BarredNow(cfg, w, i);
    forall cmds: seq<Command>
      ensures i < |ServeAll(cfg, w, cmds).db.outbox| && !ServeAll(cfg, w, cmds).db.outbox[i].published
    {
      BarredForever(cfg, w, cmds, i, LiveEvents(w.db, i));
    }
  }

  lemma LiveIsNotNever(cfg: Config, w: World, i: nat)
    requires Lawful(cfg, w) && i < |w.db.outbox| && !w.db.outbox[i].published && CanDraw(cfg, RoomFor(w.db))
    requires !Dead(w.db, w.db.outbox[i].purchaseId) && DeadAhead(w.db, i) < 20
    ensures !NeverPublished(cfg, w, i)
  {
    var cmds := LiveGetsPublished(cfg, w, i);
  }

  /** Served from empty tables on, and as long as tokens do not run out of hashes: an event is never published in
      any continuation, however its calls end, if and only if its purchase is dead or 20 dead events are ahead. */
  lemma NeverPublishedExactly(cfg: Config, s: Sys, early: seq<Command>, i: nat)
    requires Initial(s)
    requires var w := ServeAll(cfg, s.w, early);
             i < |w.db.outbox| && !w.db.outbox[i].published && CanDraw(cfg, RoomFor(w.db))
    ensures var w := ServeAll(cfg, s.w, early);
            NeverPublished(cfg, w, i) <==> Dead(w.db, w.db.outbox[i].purchaseId) || DeadAhead(w.db, i) >= 20
  {
    var w := ServeAll(cfg, s.w, early);
    LawfulReachable(cfg, s, early);
    if Dead(w.db, w.db.outbox[i].purchaseId) || DeadAhead(w.db, i) >= 20 {
      BarredIsNever(cfg, w, i);
    } else {
      LiveIsNotNever(cfg, w, i);
    }
  }
}
