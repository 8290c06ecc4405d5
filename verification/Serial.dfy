/** Serial execution with faults: commands are served one after the other, each call of each
    handler ending as its plan decides. Every serial execution is an orderly one. */
module Serial {
  import opened Text
  import opened Domain
  import opened Tables
  import opened Protocol
  import opened Invariants
  import opened Effects
  import opened Orderly

  const BATCH := 20
  const FLAG_CALL := 8   // position of MarkPublished after the eight calls of a successful issue run

  type Plan = nat -> Choice

  datatype Command =
    | StartPurchase(userId: int, contentId: string, plan: Plan)
    | ConfirmPayment(ev: Event, plan: Plan)
    | UseAccess(token: string, plan: Plan)
    | OutboxTick(fetch: Outcome, plans: nat -> Plan)
    | EditCatalog(contentId: string, row: Option<Content>)
    | EvictTokens(hashes: set<string>)

  /** One event of a batch: issue access, and mark the event when the handler returned no error. */
  ghost function HandleEvent(cfg: Config, w: World, e: OutboxRow, plan: Plan): World {
    if e.kind != CONFIRMED then w
    else
      var n := Drive(cfg, w, Issue(LoadPurchase(e.id, e.purchaseId)), plan, 0);
      if n.run.Ended? then n.w else RunStep(cfg, n.w, n.run, plan(FLAG_CALL)).w
  }

  ghost function HandleBatch(cfg: Config, w: World, events: seq<OutboxRow>, plans: nat -> Plan, i: nat): World
    requires i <= |events|
    decreases |events| - i
  {
    if i == |events| then w else HandleBatch(cfg, HandleEvent(cfg, w, events[i], plans(i)), events, plans, i + 1)
  }

  ghost function Tick(cfg: Config, w: World, fetch: Outcome, plans: nat -> Plan): World {
    if fetch.Served? then HandleBatch(cfg, w, Oldest(Unpublished(w.db.outbox), BATCH), plans, 0) else w
  }

  ghost function Serve(cfg: Config, w: World, cmd: Command): World {
    match cmd
    case StartPurchase(userId, contentId, plan) => Drive(cfg, w, Start(FindContent(userId, contentId)), plan, 0).w
    case ConfirmPayment(ev, plan) => Drive(cfg, w, Confirm(CheckKey(ev)), plan, 0).w
    case UseAccess(token, plan) => Drive(cfg, w, Use(PeekCache(token)), plan, 0).w
    case OutboxTick(fetch, plans) => Tick(cfg, w, fetch, plans)
    case EditCatalog(id, row) => w.(db := EditContent(w.db, id, row))
    case EvictTokens(hashes) => w.(cache := w.cache - hashes)
  }

  ghost function ServeAll(cfg: Config, w: World, cmds: seq<Command>): World
    decreases |cmds|
  {
    if cmds == [] then w else ServeAll(cfg, Serve(cfg, w, cmds[0]), cmds[1..])
  }

  // ---------- serial executions are orderly executions ----------

  ghost predicate Realizes(cfg: Config, s: Sys, ls: seq<Label>, w: World, runs: map<nat, Run>) {
    IsOrderly(cfg, s, ls) && Exec(cfg, s, ls).w == w && Exec(cfg, s, ls).runs == runs
  }

  lemma {:induction false} OrderlyConcat(cfg: Config, s: Sys, a: seq<Label>, b: seq<Label>)
    requires IsOrderly(cfg, s, a) && IsOrderly(cfg, Exec(cfg, s, a), b)
    ensures IsOrderly(cfg, s, a + b) && Exec(cfg, s, a + b) == Exec(cfg, Exec(cfg, s, a), b)
    decreases |a|
  {
    if a == [] {
      assert a + b == b;
    } else {
      assert (a + b)[1..] == a[1..] + b && (a + b)[0] == a[0];
      OrderlyConcat(cfg, Step(cfg, s, a[0]), a[1..], b);
    }
  }

  lemma OneLabel(cfg: Config, s: Sys, l: Label)
    requires Allowed(s, l)
    ensures IsOrderly(cfg, s, [l]) && Exec(cfg, s, [l]) == Step(cfg, s, l)
  {
    var t := Step(cfg, s, l);
    assert [l][1..] == [];
    assert Exec(cfg, t, []) == t && IsOrderly(cfg, t, []);
  }

  lemma {:induction false} DriveIsOrderly(cfg: Config, s: Sys, k: nat, plan: Plan, i: nat) returns (ls: seq<Label>)
    requires k in s.runs
    ensures var n := Drive(cfg, s.w, s.runs[k], plan, i); Realizes(cfg, s, ls, n.w, s.runs[k := n.run])
    decreases CallsLeft(s.runs[k])
  {
    if Returned(s.runs[k]) {
      ls := [];
      assert s.runs[k := s.runs[k]] == s.runs;
    } else {
      var l := Advance(k, plan(i));
      CallsDescend(cfg, s.w, s.runs[k], plan(i));
      var t := Step(cfg, s, l);
      var rest := DriveIsOrderly(cfg, t, k, plan, i + 1);
      ls := [l] + rest;
      OneLabel(cfg, s, l);
      OrderlyConcat(cfg, s, [l], rest);
    }
  }

  /** A run that starts alone, and is dropped when its handler has returned. */
  lemma CommandIsOrderly(cfg: Config, s: Sys, r: Run, plan: Plan) returns (ls: seq<Label>)
    requires s.runs == map[] && Spawnable(s.w, r) && Allowed(s, Spawn(0, r))
    ensures var n := Drive(cfg, s.w, r, plan, 0); Realizes(cfg, s, ls, n.w, map[])
  {
    var t := Step(cfg, s, Spawn(0, r));
    OneLabel(cfg, s, Spawn(0, r));
    var mid := DriveIsOrderly(cfg, t, 0, plan, 0);
    var u := Exec(cfg, t, mid);
    OneLabel(cfg, u, Drop(0));
    OrderlyConcat(cfg, t, mid, [Drop(0)]);
    OrderlyConcat(cfg, s, [Spawn(0, r)], mid + [Drop(0)]);
    ls := [Spawn(0, r)] + (mid + [Drop(0)]);
    assert Step(cfg, u, Drop(0)).runs == map[];
  }

  /** The event is in the outbox and not published; so are the ones after it. */
  predicate Waiting(db: Db, e: OutboxRow) {
    e in db.outbox && !e.published
  }

  lemma EventSpawns(cfg: Config, s: Sys, e: OutboxRow)
    requires EventIdsUnique(s.w.db) && s.runs == map[] && Waiting(s.w.db, e) && e.kind == CONFIRMED
    ensures var r := Issue(LoadPurchase(e.id, e.purchaseId)); Spawnable(s.w, r) && Allowed(s, Spawn(0, r))
  {
    var i :| 0 <= i < |s.w.db.outbox| && s.w.db.outbox[i] == e;
  }

  lemma EventIsOrderly(cfg: Config, s: Sys, e: OutboxRow, plan: Plan) returns (ls: seq<Label>)
    requires EventIdsUnique(s.w.db) && s.runs == map[] && Waiting(s.w.db, e)
    ensures Realizes(cfg, s, ls, HandleEvent(cfg, s.w, e, plan), map[])
  {
    if e.kind != CONFIRMED {
      ls := [];
      return;
    }
    var r := Issue(LoadPurchase(e.id, e.purchaseId));
    EventSpawns(cfg, s, e);
    var t := Step(cfg, s, Spawn(0, r));
    OneLabel(cfg, s, Spawn(0, r));
    var mid := DriveIsOrderly(cfg, t, 0, plan, 0);
    var u := Exec(cfg, t, mid);
    var last := if u.runs[0].Ended? then [] else [Advance(0, plan(FLAG_CALL))];
    if last != [] {
      OneLabel(cfg, u, last[0]);
    }
    var v := Exec(cfg, u, last);
    OneLabel(cfg, v, Drop(0));
    OrderlyConcat(cfg, u, last, [Drop(0)]);
    OrderlyConcat(cfg, t, mid, last + [Drop(0)]);
    OrderlyConcat(cfg, s, [Spawn(0, r)], mid + (last + [Drop(0)]));
    ls := [Spawn(0, r)] + (mid + (last + [Drop(0)]));
    assert Step(cfg, v, Drop(0)).runs == map[];
  }

  /** Handling one event publishes at most that event. */
  lemma {:induction false} DriveIssueOutbox(cfg: Config, w: World, r: IssueRun, plan: Plan, i: nat)
    ensures var n := Drive(cfg, w, Issue(r), plan, i);
            n.w.db.outbox == w.db.outbox
            && (n.run.Ended? || (n.run.Issue? && n.run.issue.FlagEvent? && n.run.issue.eventId == r.eventId))
    decreases CallsLeft(Issue(r))
  {
    if !Returned(Issue(r)) {
      var n := IssueStep(cfg, w, r, plan(i));
      CallsDescend(cfg, w, Issue(r), plan(i));
      IssueEffect(cfg, w, r, plan(i));
      if n.run.Issue? {
        assert n.run.issue.eventId == r.eventId;
        DriveIssueOutbox(cfg, n.w, n.run.issue, plan, i + 1);
      } else {
        assert Drive(cfg, n.w, n.run, plan, i + 1) == n;
      }
    }
  }

  lemma HandleEventOutbox(cfg: Config, w: World, e: OutboxRow, plan: Plan)
    ensures var o := HandleEvent(cfg, w, e, plan).db.outbox;
            o == w.db.outbox || o == Flagged(w.db.outbox, e.id)
  {
    DriveIssueOutbox(cfg, w, LoadPurchase(e.id, e.purchaseId), plan, 0);
  }

  lemma StillWaiting(a: Db, b: Db, e: OutboxRow, id: string)
    requires Waiting(a, e) && e.id != id && (b.outbox == a.outbox || b.outbox == Flagged(a.outbox, id))
    ensures Waiting(b, e)
  {
    var i :| 0 <= i < |a.outbox| && a.outbox[i] == e;
    assert b.outbox[i] == e;
  }

  ghost predicate BatchOf(db: Db, events: seq<OutboxRow>, i: nat) {
    && (forall j | i <= j < |events| :: Waiting(db, events[j]))
    && (forall j, k | 0 <= j < k < |events| :: events[j].id != events[k].id)
  }

  lemma {:induction false} BatchIsOrderly(cfg: Config, s: Sys, events: seq<OutboxRow>, plans: nat -> Plan, i: nat)
    returns (ls: seq<Label>)
    requires BaseOk(cfg, s) && s.runs == map[] && i <= |events| && BatchOf(s.w.db, events, i)
    ensures Realizes(cfg, s, ls, HandleBatch(cfg, s.w, events, plans, i), map[])
    decreases |events| - i
  {
    if i == |events| {
      ls := [];
    } else {
      var first := EventIsOrderly(cfg, s, events[i], plans(i));
      var t := Exec(cfg, s, first);
      ExecKeeps(cfg, s, first);
      HandleEventOutbox(cfg, s.w, events[i], plans(i));
      forall j | i + 1 <= j < |events|
        ensures Waiting(t.w.db, events[j])
      {
        StillWaiting(s.w.db, t.w.db, events[j], events[i].id);
      }
      var rest := BatchIsOrderly(cfg, t, events, plans, i + 1);
      OrderlyConcat(cfg, s, first, rest);
      ls := first + rest;
    }
  }

  lemma {:induction false} UnpublishedRows(outbox: seq<OutboxRow>)
    ensures forall e | e in Unpublished(outbox) :: e in outbox && !e.published
    ensures |Unpublished(outbox)| <= |outbox|
  {
    if outbox != [] {
      UnpublishedRows(outbox[1..]);
    }
  }

  predicate DistinctIds(rows: seq<OutboxRow>) {
    forall i, j | 0 <= i < j < |rows| :: rows[i].id != rows[j].id
  }

  lemma {:induction false} UnpublishedDistinct(outbox: seq<OutboxRow>)
    requires DistinctIds(outbox)
    ensures DistinctIds(Unpublished(outbox))
  {
    if outbox != [] {
      UnpublishedDistinct(outbox[1..]);
      UnpublishedRows(outbox[1..]);
    }
  }

  lemma BatchWaits(db: Db)
    requires EventIdsUnique(db)
    ensures BatchOf(db, Oldest(Unpublished(db.outbox), 20), 0)
  {
    UnpublishedRows(db.outbox);
    UnpublishedDistinct(db.outbox);
  }

  /** Serving one command, faults included, is an orderly execution that begins and ends with no run in flight. */
  lemma ServeIsOrderly(cfg: Config, s: Sys, cmd: Command) returns (ls: seq<Label>)
    requires BaseOk(cfg, s) && s.runs == map[]
    ensures Realizes(cfg, s, ls, Serve(cfg, s.w, cmd), map[])
  {
    match cmd
    case StartPurchase(userId, contentId, plan) =>
      ls := CommandIsOrderly(cfg, s, Start(FindContent(userId, contentId)), plan);
    case ConfirmPayment(ev, plan) => ls := CommandIsOrderly(cfg, s, Confirm(CheckKey(ev)), plan);
    case UseAccess(token, plan) => ls := CommandIsOrderly(cfg, s, Use(PeekCache(token)), plan);
    case OutboxTick(fetch, plans) =>
      if fetch.Served? {
        BatchWaits(s.w.db);
        ls := BatchIsOrderly(cfg, s, Oldest(Unpublished(s.w.db.outbox), 20), plans, 0);
      } else {
        ls := [];
      }
    case EditCatalog(id, row) =>
      ls := [Edit(id, row)];
      OneLabel(cfg, s, Edit(id, row));
    case EvictTokens(hashes) =>
      ls := [Evict(hashes)];
      OneLabel(cfg, s, Evict(hashes));
  }

  lemma {:induction false} ServeAllIsOrderly(cfg: Config, s: Sys, cmds: seq<Command>) returns (ls: seq<Label>)
    requires BaseOk(cfg, s) && s.runs == map[]
    ensures Realizes(cfg, s, ls, ServeAll(cfg, s.w, cmds), map[])
    decreases |cmds|
  {
    if cmds == [] {
      ls := [];
    } else {
      var first := ServeIsOrderly(cfg, s, cmds[0]);
      ExecKeeps(cfg, s, first);
      var rest := ServeAllIsOrderly(cfg, Exec(cfg, s, first), cmds[1..]);
      OrderlyConcat(cfg, s, first, rest);
      ls := first + rest;
    }
  }
}
