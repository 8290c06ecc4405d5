/** How fast, and when never, the outbox worker gets to an event. */
module OutboxProgress {
  import opened Domain
  import opened Tables
  import opened Protocol
  import opened Invariants
  import opened Effects
  import opened Orderly
  import opened Serial

  // ---------- what commands do to the outbox ----------

  function Ids(rows: seq<OutboxRow>): (ids: seq<string>)
    ensures |ids| == |rows|
    ensures forall i | 0 <= i < |rows| :: ids[i] == rows[i].id
  {
    seq(|rows|, i requires 0 <= i < |rows| => rows[i].id)
  }

  /** The elements of q that are not in gone, in order. */
  function Keep(q: seq<string>, gone: set<string>): seq<string> {
    if q == [] then [] else (if q[0] in gone then [] else [q[0]]) + Keep(q[1..], gone)
  }

  function FlagAll(outbox: seq<OutboxRow>, gone: set<string>): (flagged: seq<OutboxRow>)
    ensures |flagged| == |outbox|
    ensures forall i | 0 <= i < |outbox| ::
              flagged[i] == if outbox[i].id in gone then outbox[i].(published := true) else outbox[i]
  {
    seq(|outbox|, i requires 0 <= i < |outbox| =>
      if outbox[i].id in gone then outbox[i].(published := true) else outbox[i])
  }

  /** The events of a batch, from the i-th on, that end up published. */
  ghost function PublishedBy(cfg: Config, w: World, events: seq<OutboxRow>, plans: nat -> Plan, i: nat): set<string>
    requires i <= |events|
    decreases |events| - i
  {
    if i == |events| then {}
    else
      var v := HandleEvent(cfg, w, events[i], plans(i));
      (if v.db.outbox == w.db.outbox then {} else {events[i].id}) + PublishedBy(cfg, v, events, plans, i + 1)
  }

  lemma {:induction false} BatchFlags(cfg: Config, w: World, events: seq<OutboxRow>, plans: nat -> Plan, i: nat)
    requires i <= |events|
    ensures var gone := PublishedBy(cfg, w, events, plans, i);
            HandleBatch(cfg, w, events, plans, i).db.outbox == FlagAll(w.db.outbox, gone)
            && forall id | id in gone :: exists j :: i <= j < |events| && events[j].id == id
    decreases |events| - i
  {
    if i < |events| {
      var v := HandleEvent(cfg, w, events[i], plans(i));
      HandleEventOutbox(cfg, w, events[i], plans(i));
      BatchFlags(cfg, v, events, plans, i + 1);
    }
  }

  predicate IsTick(cmd: Command) {
    cmd.OutboxTick? && cmd.fetch.Served?
  }

  ghost function Published(cfg: Config, w: World, plans: nat -> Plan): set<string> {
    PublishedBy(cfg, w, Oldest(Unpublished(w.db.outbox), 20), plans, 0)
  }

  lemma TickOutbox(cfg: Config, w: World, plans: nat -> Plan)
    ensures Tick(cfg, w, Served, plans).db.outbox == FlagAll(w.db.outbox, Published(cfg, w, plans))
    ensures forall id | id in Published(cfg, w, plans) :: id in Ids(Oldest(Unpublished(w.db.outbox), 20))
  {
    var events := Oldest(Unpublished(w.db.outbox), 20);
    BatchFlags(cfg, w, events, plans, 0);
    forall id | id in Published(cfg, w, plans)
      ensures id in Ids(events)
    {
      var j :| 0 <= j < |events| && events[j].id == id;
      assert Ids(events)[j] == id;
    }
  }

  /** New rows at the end, under new ids. */
  ghost predicate Appends(a: Db, b: Db) {
    a.outbox <= b.outbox && (EventIdsUnique(a) ==> EventIdsUnique(b))
  }

  lemma AppendsTransitive(a: Db, b: Db, c: Db)
    requires Appends(a, b) && Appends(b, c)
    ensures Appends(a, c)
  {
  }

  /** A run of another kind than issue only ever appends to the outbox. */
  lemma {:induction false} DriveAppends(cfg: Config, w: World, r: Run, plan: Plan, i: nat)
    requires !r.Issue?
    ensures Appends(w.db, Drive(cfg, w, r, plan, i).w.db)
    decreases CallsLeft(r)
  {
    if !Returned(r) {
      var n := RunStep(cfg, w, r, plan(i));
      CallsDescend(cfg, w, r, plan(i));
      StepEffect(cfg, w, r, plan(i));
      KindKept(cfg, w, r, plan(i));
      DriveAppends(cfg, n.w, n.run, plan, i + 1);
      AppendsTransitive(w.db, n.w.db, Drive(cfg, n.w, n.run, plan, i + 1).w.db);
    }
  }

  lemma ServeAppends(cfg: Config, w: World, cmd: Command)
    requires !IsTick(cmd)
    ensures Appends(w.db, Serve(cfg, w, cmd).db)
  {
    match cmd
    case StartPurchase(userId, contentId, plan) => DriveAppends(cfg, w, Start(FindContent(userId, contentId)), plan, 0);
    case ConfirmPayment(ev, plan) => DriveAppends(cfg, w, Confirm(CheckKey(ev)), plan, 0);
    case UseAccess(token, plan) => DriveAppends(cfg, w, Use(PeekCache(token)), plan, 0);
    case OutboxTick(_, _) =>
    case EditCatalog(_, _) =>
    case EvictTokens(_) =>
  }

  /** No command unpublishes an event or gives two events one id. */
  lemma ServeOutbox(cfg: Config, w: World, cmd: Command, i: nat)
    requires EventIdsUnique(w.db) && i < |w.db.outbox|
    ensures var v := Serve(cfg, w, cmd).db;
            EventIdsUnique(v) && i < |v.outbox| && v.outbox[i].id == w.db.outbox[i].id
            && (w.db.outbox[i].published ==> v.outbox[i].published)
  {
    if IsTick(cmd) {
      TickOutbox(cfg, w, cmd.plans);
    } else {
      ServeAppends(cfg, w, cmd);
    }
  }

  // ---------- the queue in front of one event ----------

  /** The unpublished events older than the i-th row. */
  function AheadOf(outbox: seq<OutboxRow>, i: nat): seq<string>
    requires i <= |outbox|
  {
    Ids(Unpublished(outbox[..i]))
  }

  lemma {:induction false} UnpublishedConcat(a: seq<OutboxRow>, b: seq<OutboxRow>)
    ensures Unpublished(a + b) == Unpublished(a) + Unpublished(b)
  {
    if a == [] {
      assert a + b == b;
    } else {
      assert (a + b)[1..] == a[1..] + b;
      UnpublishedConcat(a[1..], b);
    }
  }

  lemma IdsOfFirst(row: OutboxRow, rest: seq<OutboxRow>)
    ensures Ids([row] + rest) == [row.id] + Ids(rest)
  {
  }

  lemma QueueFirst(outbox: seq<OutboxRow>)
    requires outbox != []
    ensures Ids(Unpublished(outbox))
            == (if outbox[0].published then [] else [outbox[0].id]) + Ids(Unpublished(outbox[1..]))
  {
    var rest := Unpublished(outbox[1..]);
    if outbox[0].published {
      assert Unpublished(outbox) == rest;
    } else {
      assert Unpublished(outbox) == [outbox[0]] + rest;
      IdsOfFirst(outbox[0], rest);
    }
  }

  lemma KeepFirst(outbox: seq<OutboxRow>, gone: set<string>)
    requires outbox != []
    ensures Keep(Ids(Unpublished(outbox)), gone)
            == (if outbox[0].published || outbox[0].id in gone then [] else [outbox[0].id])
               + Keep(Ids(Unpublished(outbox[1..])), gone)
  {
    QueueFirst(outbox);
    var q, rest := Ids(Unpublished(outbox)), Ids(Unpublished(outbox[1..]));
    if !outbox[0].published {
      assert q[0] == outbox[0].id && q[1..] == rest;
    } else {
      assert q == rest;
    }
  }

  lemma {:induction false} FlaggedQueue(outbox: seq<OutboxRow>, gone: set<string>)
    ensures Ids(Unpublished(FlagAll(outbox, gone))) == Keep(Ids(Unpublished(outbox)), gone)
  {
    if outbox != [] {
      var flagged := FlagAll(outbox, gone);
      FlaggedQueue(outbox[1..], gone);
      assert flagged[1..] == FlagAll(outbox[1..], gone);
      QueueFirst(outbox);
      QueueFirst(flagged);
      KeepFirst(outbox, gone);
    }
  }

  lemma FlaggedAhead(outbox: seq<OutboxRow>, gone: set<string>, i: nat)
    requires i <= |outbox|
    ensures AheadOf(FlagAll(outbox, gone), i) == Keep(AheadOf(outbox, i), gone)
  {
    assert FlagAll(outbox, gone)[..i] == FlagAll(outbox[..i], gone);
    FlaggedQueue(outbox[..i], gone);
  }

  /** Where the i-th row stands among the unpublished ones. */
  lemma QueuePosition(outbox: seq<OutboxRow>, i: nat)
    requires i < |outbox| && !outbox[i].published
    ensures var rows := Unpublished(outbox); var ahead := Unpublished(outbox[..i]);
            |ahead| < |rows| && rows[..|ahead|] == ahead && rows[|ahead|] == outbox[i]
  {
    assert outbox == outbox[..i] + outbox[i..];
    UnpublishedConcat(outbox[..i], outbox[i..]);
    assert outbox[i..][0] == outbox[i];
  }

  // ---------- the batch, told by counting rows ----------

  /** The unpublished rows before the i-th. */
  function Older(outbox: seq<OutboxRow>, i: nat): set<nat>
    requires i <= |outbox|
  {
    set k: nat | k < i && !outbox[k].published
  }

  lemma {:induction false} OlderCounted(outbox: seq<OutboxRow>, i: nat)
    requires i <= |outbox|
    ensures |Unpublished(outbox[..i])| == |Older(outbox, i)|
    decreases i
  {
    if i > 0 {
      OlderCounted(outbox, i - 1);
      assert outbox[..i] == outbox[..i - 1] + [outbox[i - 1]];
      UnpublishedConcat(outbox[..i - 1], [outbox[i - 1]]);
      assert Older(outbox, i) == Older(outbox, i - 1) + if outbox[i - 1].published then {} else {i - 1};
    }
  }

  /** A tick that gets its batch handles the unpublished rows with fewer than 20 unpublished ones before them,
      each in its place, and no others. */
  lemma BatchOfTwenty(cfg: Config, w: World, plans: nat -> Plan)
    ensures var o := w.db.outbox; var batch := Oldest(Unpublished(o), 20);
            && Tick(cfg, w, Served, plans) == HandleBatch(cfg, w, batch, plans, 0)
            && |batch| == (if |Older(o, |o|)| < 20 then |Older(o, |o|)| else 20)
            && (forall i | 0 <= i < |o| && !o[i].published && |Older(o, i)| < 20 ::
                  |Older(o, i)| < |batch| && batch[|Older(o, i)|] == o[i])
            && (forall e | e in batch ::
                  exists i :: 0 <= i < |o| && o[i] == e && !o[i].published && |Older(o, i)| < 20)
  {
    var o := w.db.outbox;
    assert o[..|o|] == o;
    OlderCounted(o, |o|);
    forall i | 0 <= i < |o| && !o[i].published && |Older(o, i)| < 20
      ensures var batch := Oldest(Unpublished(o), 20); |Older(o, i)| < |batch| && batch[|Older(o, i)|] == o[i]
    {
      OlderCounted(o, i);
      QueuePosition(o, i);
    }
    forall e | e in Oldest(Unpublished(o), 20)
      ensures exists i :: 0 <= i < |o| && o[i] == e && !o[i].published && |Older(o, i)| < 20
    {
      var n :| 0 <= n < |Oldest(Unpublished(o), 20)| && Oldest(Unpublished(o), 20)[n] == e;
      RowInBatch(o, n);
    }
  }

  lemma {:induction false} RowInBatch(o: seq<OutboxRow>, n: nat)
    requires n < |Unpublished(o)|
    ensures exists i :: 0 <= i < |o| && o[i] == Unpublished(o)[n] && !o[i].published && |Older(o, i)| == n
    decreases |o|
  {
    var last := |o| - 1;
    assert o == o[..last] + [o[last]];
    UnpublishedConcat(o[..last], [o[last]]);
    OlderCounted(o, last);
    if n < |Unpublished(o[..last])| {
      RowInBatch(o[..last], n);
      var i :| 0 <= i < last && o[..last][i] == Unpublished(o[..last])[n] && !o[..last][i].published
               && |Older(o[..last], i)| == n;
      assert Older(o[..last], i) == Older(o, i);
      assert o[i] == Unpublished(o)[n];
    } else {
      assert o[last] == Unpublished(o)[n];
    }
  }

  function CountIn(q: seq<string>, ids: set<string>): nat {
    if q == [] then 0 else (if q[0] in ids then 1 else 0) + CountIn(q[1..], ids)
  }

  lemma {:induction false} CountConcat(a: seq<string>, b: seq<string>, ids: set<string>)
    ensures CountIn(a + b, ids) == CountIn(a, ids) + CountIn(b, ids)
  {
    if a == [] {
      assert a + b == b;
    } else {
      assert (a + b)[1..] == a[1..] + b;
      CountConcat(a[1..], b, ids);
    }
  }

  lemma {:induction false} KeepConcat(a: seq<string>, b: seq<string>, gone: set<string>)
    ensures Keep(a + b, gone) == Keep(a, gone) + Keep(b, gone)
  {
    if a == [] {
      assert a + b == b;
    } else {
      assert (a + b)[1..] == a[1..] + b;
      KeepConcat(a[1..], b, gone);
    }
  }

  lemma {:induction false} KeepAll(q: seq<string>, gone: set<string>)
    requires forall x | x in q :: x !in gone
    ensures Keep(q, gone) == q
  {
    if q != [] {
      KeepAll(q[1..], gone);
    }
  }

  /** Of a stretch of the queue where exactly the willing events go, the unwilling ones stay. */
  lemma {:induction false} KeepUnwilling(q: seq<string>, gone: set<string>, willing: set<string>)
    requires forall x | x in q :: x in gone <==> x in willing
    ensures CountIn(Keep(q, gone), willing) == 0 && |Keep(q, gone)| + CountIn(q, willing) == |q|
    ensures CountIn(q, willing) <= |q|
  {
    if q != [] {
      assert forall x | x in q[1..] :: x in q;
      KeepUnwilling(q[1..], gone, willing);
      assert (Keep(q, gone) == Keep(q[1..], gone) && q[0] in willing)
             || (Keep(q, gone)[0] == q[0] && Keep(q, gone)[1..] == Keep(q[1..], gone) && q[0] !in willing);
    }
  }

  lemma {:induction false} CountBounded(q: seq<string>, ids: set<string>)
    ensures CountIn(q, ids) <= |q|
  {
    if q != [] {
      CountBounded(q[1..], ids);
    }
  }

  /** One tick with at least a full batch of events ahead: the unwilling ones ahead stay as many as
      they were, and at least 20 - unwilling of the willing ones are gone. */
  lemma FullBatch(ahead: seq<string>, gone: set<string>, willing: set<string>)
    requires |ahead| >= 20
    requires forall x | x in ahead[..20] :: x in gone <==> x in willing
    requires forall x | x in ahead[20..] :: x !in gone
    ensures var next := Keep(ahead, gone);
            && |next| - CountIn(next, willing) == |ahead| - CountIn(ahead, willing)
            && CountIn(next, willing) + (20 - (|ahead| - CountIn(ahead, willing))) <= CountIn(ahead, willing)
  {
    var head, tail := ahead[..20], ahead[20..];
    assert ahead == head + tail;
    KeepConcat(head, tail, gone);
    KeepAll(tail, gone);
    KeepUnwilling(head, gone, willing);
    CountConcat(head, tail, willing);
    CountConcat(Keep(head, gone), tail, willing);
    CountBounded(tail, willing);
  }

  // ---------- the bound ----------

  /** An event with fewer than a batch ahead of it is in the batch. */
  lemma ShortQueue(cfg: Config, w: World, plans: nat -> Plan, i: nat)
    requires i < |w.db.outbox| && !w.db.outbox[i].published && |AheadOf(w.db.outbox, i)| < 20
    ensures w.db.outbox[i] in Oldest(Unpublished(w.db.outbox), 20)
  {
    QueuePosition(w.db.outbox, i);
    var rows := Unpublished(w.db.outbox);
    var n := |AheadOf(w.db.outbox, i)|;
    assert Oldest(rows, 20)[n] == w.db.outbox[i];
  }

  /** With a full batch ahead, the batch is the front of the queue, so only its events can go. */
  lemma LongQueue(cfg: Config, w: World, plans: nat -> Plan, i: nat, willing: set<string>)
    requires EventIdsUnique(w.db) && i < |w.db.outbox| && !w.db.outbox[i].published
    requires |AheadOf(w.db.outbox, i)| >= 20
    requires forall j | 0 <= j <= i && w.db.outbox[j] in Oldest(Unpublished(w.db.outbox), 20) ::
               w.db.outbox[j].id in Published(cfg, w, plans) <==> w.db.outbox[j].id in willing
    ensures var ahead := AheadOf(w.db.outbox, i); var gone := Published(cfg, w, plans);
            && (forall x | x in ahead[..20] :: x in gone <==> x in willing)
            && (forall x | x in ahead[20..] :: x !in gone)
            && w.db.outbox[i].id !in gone
  {
    var outbox := w.db.outbox;
    var ahead := AheadOf(outbox, i);
    var rows := Unpublished(outbox);
    QueuePosition(outbox, i);
    TickOutbox(cfg, w, plans);
    UnpublishedRows(outbox);
    UnpublishedDistinct(outbox);
    var batch := Oldest(rows, 20);
    assert batch == rows[..20];
    forall x | x in ahead[..20]
      ensures x in Published(cfg, w, plans) <==> x in willing
    {
      var n :| 0 <= n < 20 && ahead[n] == x;
      assert rows[n].id == x && rows[n] == batch[n];
      UnpublishedRows(outbox[..i]);
      assert rows[n] == Unpublished(outbox[..i])[n] && rows[n] in outbox[..i];
      var j :| 0 <= j < i && outbox[j] == rows[n];
    }
    forall x | x in ahead[20..]
      ensures x !in Published(cfg, w, plans)
    {
      var n :| 20 <= n < |ahead| && ahead[n] == x;
      NotInFront(rows, n);
      assert rows[n].id == x;
    }
    NotInFront(rows, |ahead|);
  }

  lemma NotInFront(rows: seq<OutboxRow>, n: nat)
    requires DistinctIds(rows) && 20 <= n < |rows|
    ensures rows[n].id !in Ids(Oldest(rows, 20))
  {
  }

  lemma {:induction false} StaysPublished(cfg: Config, w: World, cmds: seq<Command>, i: nat)
    requires EventIdsUnique(w.db) && i < |w.db.outbox| && w.db.outbox[i].published
    ensures i < |ServeAll(cfg, w, cmds).db.outbox| && ServeAll(cfg, w, cmds).db.outbox[i].published
    decreases |cmds|
  {
    if cmds != [] {
      ServeOutbox(cfg, w, cmds[0], i);
      StaysPublished(cfg, Serve(cfg, w, cmds[0]), cmds[1..], i);
    }
  }

  lemma MulMonotone(a: nat, b: nat, c: nat)
    requires a <= b
    ensures a * c <= b * c
  {
  }

  lemma QuotientAtLeast(g: nat, q: nat, room: nat)
    requires room > 0 && q * room <= g
    ensures q <= g / room
  {
    if g / room + 1 <= q {
      MulMonotone(g / room + 1, q, room);
    }
  }

  lemma BoundShrinks(g: nat, h: nat, room: nat)
    requires room > 0 && h + room <= g
    ensures h / room + 1 <= g / room
  {
    var q := h / room;
    assert q * room <= h;
    assert (q + 1) * room == q * room + room;
    QuotientAtLeast(g, q + 1, room);
  }

  /** How many more ticks the i-th row has to wait at most. */
  function TicksLeft(outbox: seq<OutboxRow>, i: nat, willing: set<string>): nat
    requires i <= |outbox| && Unwilling(outbox, i, willing) < 20
  {
    CountIn(AheadOf(outbox, i), willing) / (20 - Unwilling(outbox, i, willing)) + 1
  }

  function Unwilling(outbox: seq<OutboxRow>, i: nat, willing: set<string>): nat
    requires i <= |outbox|
  {
    CountBounded(AheadOf(outbox, i), willing);
    |AheadOf(outbox, i)| - CountIn(AheadOf(outbox, i), willing)
  }

  /** The events up to the i-th row that are in the batch are published by the tick exactly if willing. */
  ghost predicate BehavesNow(cfg: Config, w: World, plans: nat -> Plan, i: nat, willing: set<string>) {
    forall j | 0 <= j <= i && j < |w.db.outbox| && w.db.outbox[j] in Oldest(Unpublished(w.db.outbox), 20) ::
      w.db.outbox[j].id in Published(cfg, w, plans) <==> w.db.outbox[j].id in willing
  }

  /** So they are in every tick that fetches its batch. */
  ghost predicate Behaves(cfg: Config, w: World, cmds: seq<Command>, i: nat, willing: set<string>)
    decreases |cmds|
  {
    cmds == []
    || ((IsTick(cmds[0]) ==> BehavesNow(cfg, w, cmds[0].plans, i, willing))
        && Behaves(cfg, Serve(cfg, w, cmds[0]), cmds[1..], i, willing))
  }

  function Ticks(cmds: seq<Command>): nat {
    if cmds == [] then 0 else (if IsTick(cmds[0]) then 1 else 0) + Ticks(cmds[1..])
  }

  lemma TickShrinks(cfg: Config, w: World, plans: nat -> Plan, i: nat, willing: set<string>)
    requires EventIdsUnique(w.db) && i < |w.db.outbox| && !w.db.outbox[i].published && w.db.outbox[i].id in willing
    requires BehavesNow(cfg, w, plans, i, willing) && Unwilling(w.db.outbox, i, willing) < 20
    ensures var next := Tick(cfg, w, Served, plans).db.outbox;
            && i < |next| && next[i].id == w.db.outbox[i].id
            && (next[i].published
                || (Unwilling(next, i, willing) == Unwilling(w.db.outbox, i, willing)
                    && TicksLeft(next, i, willing) < TicksLeft(w.db.outbox, i, willing)))
  {
    TickOutbox(cfg, w, plans);
    var gone := Published(cfg, w, plans);
    var ahead := AheadOf(w.db.outbox, i);
    FlaggedAhead(w.db.outbox, gone, i);
    if |ahead| < 20 {
      ShortQueue(cfg, w, plans, i);
    } else {
      LongQueue(cfg, w, plans, i, willing);
      FullBatch(ahead, gone, willing);
      var room := 20 - Unwilling(w.db.outbox, i, willing);
      BoundShrinks(CountIn(ahead, willing), CountIn(Keep(ahead, gone), willing), room);
    }
  }

  lemma {:induction false} WillingPublished(cfg: Config, w: World, cmds: seq<Command>, i: nat, willing: set<string>)
    requires EventIdsUnique(w.db) && i < |w.db.outbox| && w.db.outbox[i].id in willing
    requires Behaves(cfg, w, cmds, i, willing)
    requires Unwilling(w.db.outbox, i, willing) < 20 && Ticks(cmds) >= TicksLeft(w.db.outbox, i, willing)
    ensures i < |ServeAll(cfg, w, cmds).db.outbox| && ServeAll(cfg, w, cmds).db.outbox[i].published
    decreases |cmds|
  {
    if w.db.outbox[i].published {
      StaysPublished(cfg, w, cmds, i);
    } else {
      var v := Serve(cfg, w, cmds[0]);
      ServeOutbox(cfg, w, cmds[0], i);
      if IsTick(cmds[0]) {
        TickShrinks(cfg, w, cmds[0].plans, i, willing);
        if v.db.outbox[i].published {
          StaysPublished(cfg, v, cmds[1..], i);
        } else {
          WillingPublished(cfg, v, cmds[1..], i, willing);
        }
      } else {
        ServeAppends(cfg, w, cmds[0]);
        assert v.db.outbox[..i] == w.db.outbox[..i];
        WillingPublished(cfg, v, cmds[1..], i, willing);
      }
    }
  }

  /** Let g willing and k < 20 unwilling events be ahead of a willing event in the outbox. After
      g / (20 - k) + 1 ticks it is published, whatever other commands are served in between and
      however many newer events arrive. */
  lemma ProgressBound(cfg: Config, w: World, cmds: seq<Command>, i: nat, willing: set<string>)
    requires EventIdsUnique(w.db) && i < |w.db.outbox| && w.db.outbox[i].id in willing
    requires Behaves(cfg, w, cmds, i, willing)
    requires var g, k := CountIn(AheadOf(w.db.outbox, i), willing), Unwilling(w.db.outbox, i, willing);
             k < 20 && Ticks(cmds) >= g / (20 - k) + 1
    ensures i < |ServeAll(cfg, w, cmds).db.outbox| && ServeAll(cfg, w, cmds).db.outbox[i].published
  {
    WillingPublished(cfg, w, cmds, i, willing);
  }

  // ---------- the other half ----------

  lemma TickBlocked(cfg: Config, w: World, plans: nat -> Plan, i: nat, willing: set<string>)
    requires EventIdsUnique(w.db) && i < |w.db.outbox| && !w.db.outbox[i].published
    requires BehavesNow(cfg, w, plans, i, willing) && Unwilling(w.db.outbox, i, willing) >= 20
    ensures var next := Tick(cfg, w, Served, plans).db.outbox;
            i < |next| && !next[i].published && Unwilling(next, i, willing) == Unwilling(w.db.outbox, i, willing)
  {
    TickOutbox(cfg, w, plans);
    FlaggedAhead(w.db.outbox, Published(cfg, w, plans), i);
    LongQueue(cfg, w, plans, i, willing);
    FullBatch(AheadOf(w.db.outbox, i), Published(cfg, w, plans), willing);
  }

  /** An event with 20 or more unwilling ones ahead of it is never published, however many willing ones
      are among them and however long the worker goes on. */
  lemma {:induction false} BlockedForever(cfg: Config, w: World, cmds: seq<Command>, i: nat, willing: set<string>)
    requires EventIdsUnique(w.db) && i < |w.db.outbox| && !w.db.outbox[i].published
    requires Behaves(cfg, w, cmds, i, willing) && Unwilling(w.db.outbox, i, willing) >= 20
    ensures i < |ServeAll(cfg, w, cmds).db.outbox| && !ServeAll(cfg, w, cmds).db.outbox[i].published
    decreases |cmds|
  {
    if cmds != [] {
      var v := Serve(cfg, w, cmds[0]);
      ServeOutbox(cfg, w, cmds[0], i);
      if IsTick(cmds[0]) {
        TickBlocked(cfg, w, cmds[0].plans, i, willing);
      } else {
        ServeAppends(cfg, w, cmds[0]);
        assert v.db.outbox[..i] == w.db.outbox[..i];
      }
      BlockedForever(cfg, v, cmds[1..], i, willing);
    }
  }

  /** An unwilling event is never published. */
  lemma {:induction false} UnwillingStays(cfg: Config, w: World, cmds: seq<Command>, i: nat, willing: set<string>)
    requires EventIdsUnique(w.db) && i < |w.db.outbox| && !w.db.outbox[i].published
    requires w.db.outbox[i].id !in willing && Behaves(cfg, w, cmds, i, willing)
    ensures i < |ServeAll(cfg, w, cmds).db.outbox| && !ServeAll(cfg, w, cmds).db.outbox[i].published
    decreases |cmds|
  {
    if cmds != [] {
      var v := Serve(cfg, w, cmds[0]);
      ServeOutbox(cfg, w, cmds[0], i);
      if IsTick(cmds[0]) {
        InBatch(cfg, w, cmds[0].plans, i);
      } else {
        ServeAppends(cfg, w, cmds[0]);
      }
      UnwillingStays(cfg, v, cmds[1..], i, willing);
    }
  }

  /** What a tick publishes was in its batch. */
  lemma InBatch(cfg: Config, w: World, plans: nat -> Plan, i: nat)
    requires EventIdsUnique(w.db) && i < |w.db.outbox|
    ensures Tick(cfg, w, Served, plans).db.outbox == FlagAll(w.db.outbox, Published(cfg, w, plans))
    ensures w.db.outbox[i].id in Published(cfg, w, plans) ==> w.db.outbox[i] in Oldest(Unpublished(w.db.outbox), 20)
  {
    TickOutbox(cfg, w, plans);
    UnpublishedRows(w.db.outbox);
    var batch := Oldest(Unpublished(w.db.outbox), 20);
    if w.db.outbox[i].id in Published(cfg, w, plans) {
      var n :| 0 <= n < |batch| && Ids(batch)[n] == w.db.outbox[i].id;
      assert batch[n] == Unpublished(w.db.outbox)[n];
      var j :| 0 <= j < |w.db.outbox| && w.db.outbox[j] == batch[n];
    }
  }

  lemma DecidedInTime(cfg: Config, w: World, cmds: seq<Command>, i: nat, willing: set<string>)
    requires EventIdsUnique(w.db) && i < |w.db.outbox| && !w.db.outbox[i].published
    requires Behaves(cfg, w, cmds, i, willing)
    requires Unwilling(w.db.outbox, i, willing) < 20 ==> Ticks(cmds) >= TicksLeft(w.db.outbox, i, willing)
    ensures i < |ServeAll(cfg, w, cmds).db.outbox|
    ensures ServeAll(cfg, w, cmds).db.outbox[i].published
            <==> w.db.outbox[i].id in willing && Unwilling(w.db.outbox, i, willing) < 20
  {
    if w.db.outbox[i].id !in willing {
      UnwillingStays(cfg, w, cmds, i, willing);
    } else if Unwilling(w.db.outbox, i, willing) < 20 {
      WillingPublished(cfg, w, cmds, i, willing);
    } else {
      BlockedForever(cfg, w, cmds, i, willing);
    }
  }

  /** Given enough ticks, an event is published if and only if it is willing and fewer than 20 unwilling
      ones are ahead of it. */
  lemma PublishedExactly(cfg: Config, w: World, cmds: seq<Command>, i: nat, willing: set<string>)
    requires EventIdsUnique(w.db) && i < |w.db.outbox| && !w.db.outbox[i].published
    requires Behaves(cfg, w, cmds, i, willing)
    requires var g, k := CountIn(AheadOf(w.db.outbox, i), willing), Unwilling(w.db.outbox, i, willing);
             k < 20 ==> Ticks(cmds) >= g / (20 - k) + 1
    ensures i < |ServeAll(cfg, w, cmds).db.outbox|
    ensures ServeAll(cfg, w, cmds).db.outbox[i].published
            <==> w.db.outbox[i].id in willing && Unwilling(w.db.outbox, i, willing) < 20
  {
    EnoughTicks(w.db.outbox, i, willing, Ticks(cmds));
    DecidedInTime(cfg, w, cmds, i, willing);
  }

  lemma EnoughTicks(outbox: seq<OutboxRow>, i: nat, willing: set<string>, n: nat)
    requires i <= |outbox|
    requires var g, k := CountIn(AheadOf(outbox, i), willing), Unwilling(outbox, i, willing);
             k < 20 ==> n >= g / (20 - k) + 1
    ensures Unwilling(outbox, i, willing) < 20 ==> n >= TicksLeft(outbox, i, willing)
  {
  }

  // ---------- starvation ----------

  ghost predicate Granted(db: Db, id: string) {
    exists g :: g in db.grants && db.grants[g].purchaseId == id
  }

  /** An event the worker can never complete: of an unknown type, of a missing purchase, or of a
      purchase that has its grant already. */
  ghost predicate Doomed(db: Db, e: OutboxRow) {
    e.kind != CONFIRMED || e.purchaseId !in db.purchases || Granted(db, e.purchaseId)
  }

  predicate KeysMatch(db: Db) {
    forall id | id in db.purchases :: db.purchases[id].id == id
  }

  /** An issue run for the purchase, or one that has ended. */
  predicate WorksFor(r: Run, id: string) {
    || r.Ended?
    || (r.Issue?
        && (if r.issue.LoadPurchase? then r.issue.purchaseId == id else r.issue.copy.id == id)
        && (r.issue.CreateGrant? ==> r.issue.grant.purchaseId == id))
  }

  /** It has not got past creating the grant. */
  predicate BeforeGrant(r: Run, id: string) {
    && WorksFor(r, id)
    && (r.Issue? ==> !r.issue.CacheToken? && !r.issue.StoreIssued? && !r.issue.SendLink? && !r.issue.FlagEvent?)
  }

  lemma GrantedStep(cfg: Config, w: World, r: Run, c: Choice, id: string)
    requires KeysMatch(w.db) && Granted(w.db, id) && BeforeGrant(r, id)
    ensures BeforeGrant(RunStep(cfg, w, r, c).run, id)
  {
  }

  lemma TablesGrow(a: Db, r: Run, b: Db)
    requires RowEffect(a, r, b) && GrantEffect(a, r, b)
    ensures KeysMatch(a) ==> KeysMatch(b)
    ensures forall id | Granted(a, id) :: Granted(b, id)
    ensures a.purchases.Keys <= b.purchases.Keys && (r.Start? || a.purchases.Keys == b.purchases.Keys)
  {
    forall id | Granted(a, id)
      ensures Granted(b, id)
    {
      var g :| g in a.grants && a.grants[g].purchaseId == id;
      assert g in b.grants && b.grants[g].purchaseId == id;
    }
  }

  /** What a serial command preserves of the tables, without assuming that they are in order. */
  ghost predicate Grows(a: Db, b: Db) {
    && (KeysMatch(a) ==> KeysMatch(b))
    && (forall id | Granted(a, id) :: Granted(b, id))
    && a.purchases.Keys <= b.purchases.Keys
  }

  lemma {:induction false} DriveGrows(cfg: Config, w: World, r: Run, plan: Plan, i: nat)
    ensures Grows(w.db, Drive(cfg, w, r, plan, i).w.db)
    ensures !r.Start? ==> w.db.purchases.Keys == Drive(cfg, w, r, plan, i).w.db.purchases.Keys
    decreases CallsLeft(r)
  {
    if !Returned(r) {
      var n := RunStep(cfg, w, r, plan(i));
      CallsDescend(cfg, w, r, plan(i));
      StepEffect(cfg, w, r, plan(i));
      TablesGrow(w.db, r, n.w.db);
      assert !r.Start? ==> !n.run.Start?;
      DriveGrows(cfg, n.w, n.run, plan, i + 1);
    }
  }

  lemma {:induction false} GrantedDrive(cfg: Config, w: World, r: Run, plan: Plan, i: nat, id: string)
    requires KeysMatch(w.db) && Granted(w.db, id) && BeforeGrant(r, id)
    ensures Drive(cfg, w, r, plan, i).run.Ended?
    decreases CallsLeft(r)
  {
    if !Returned(r) {
      var n := RunStep(cfg, w, r, plan(i));
      CallsDescend(cfg, w, r, plan(i));
      StepEffect(cfg, w, r, plan(i));
      TablesGrow(w.db, r, n.w.db);
      GrantedStep(cfg, w, r, plan(i), id);
      GrantedDrive(cfg, n.w, n.run, plan, i + 1, id);
    }
  }

  lemma DoomedHandled(cfg: Config, w: World, e: OutboxRow, plan: Plan)
    requires KeysMatch(w.db) && Doomed(w.db, e)
    ensures var v := HandleEvent(cfg, w, e, plan).db;
            v.outbox == w.db.outbox && Grows(w.db, v) && v.purchases.Keys == w.db.purchases.Keys
  {
    if e.kind == CONFIRMED {
      var r := Issue(LoadPurchase(e.id, e.purchaseId));
      DriveIssueOutbox(cfg, w, LoadPurchase(e.id, e.purchaseId), plan, 0);
      DriveGrows(cfg, w, r, plan, 0);
      if Granted(w.db, e.purchaseId) {
        GrantedDrive(cfg, w, r, plan, 0, e.purchaseId);
      } else {
        var n := RunStep(cfg, w, r, plan(0));
        assert Drive(cfg, w, r, plan, 0) == Drive(cfg, n.w, n.run, plan, 1);
      }
    }
  }

  lemma DoomedKept(a: Db, b: Db, e: OutboxRow)
    requires Doomed(a, e) && Grows(a, b) && (e.purchaseId !in a.purchases ==> e.purchaseId !in b.purchases)
    ensures Doomed(b, e)
  {
  }

  lemma {:induction false} DoomedBatch(cfg: Config, w: World, events: seq<OutboxRow>, plans: nat -> Plan, i: nat)
    requires KeysMatch(w.db) && i <= |events| && forall e | e in events :: Doomed(w.db, e)
    ensures var v := HandleBatch(cfg, w, events, plans, i).db;
            v.outbox == w.db.outbox && Grows(w.db, v) && v.purchases.Keys == w.db.purchases.Keys
    decreases |events| - i
  {
    if i < |events| {
      var v := HandleEvent(cfg, w, events[i], plans(i));
      DoomedHandled(cfg, w, events[i], plans(i));
      forall e | e in events
        ensures Doomed(v.db, e)
      {
        DoomedKept(w.db, v.db, e);
      }
      DoomedBatch(cfg, v, events, plans, i + 1);
    }
  }

  /** No new purchase gets an id that a waiting event is missing. */
  predicate FreshIds(db: Db, cmd: Command, events: seq<OutboxRow>) {
    cmd.StartPurchase? ==> forall e | e in events && e.purchaseId !in db.purchases :: cmd.plan(1).newId != e.purchaseId
  }

  lemma StartFresh(cfg: Config, w: World, userId: int, contentId: string, plan: Plan, id: string)
    requires plan(1).newId != id && id !in w.db.purchases
    ensures id !in Drive(cfg, w, Start(FindContent(userId, contentId)), plan, 0).w.db.purchases
  {
    var r := Start(FindContent(userId, contentId));
    var n := RunStep(cfg, w, r, plan(0));
    assert Drive(cfg, w, r, plan, 0) == Drive(cfg, n.w, n.run, plan, 1);
    if n.run.Start? {
      var m := RunStep(cfg, w, n.run, plan(1));
      assert Drive(cfg, n.w, n.run, plan, 1) == Drive(cfg, m.w, m.run, plan, 2);
      if m.run.Start? {
        var l := RunStep(cfg, w, m.run, plan(2));
        assert Drive(cfg, m.w, m.run, plan, 2) == Drive(cfg, l.w, l.run, plan, 3);
      }
    }
  }

  lemma StartDoomed(cfg: Config, w: World, cmd: Command, events: seq<OutboxRow>)
    requires cmd.StartPurchase? && (forall e | e in events :: Doomed(w.db, e)) && FreshIds(w.db, cmd, events)
    ensures var v := Serve(cfg, w, cmd).db; Grows(w.db, v) && forall e | e in events :: Doomed(v, e)
  {
    var v := Serve(cfg, w, cmd).db;
    DriveGrows(cfg, w, Start(FindContent(cmd.userId, cmd.contentId)), cmd.plan, 0);
    forall e | e in events
      ensures Doomed(v, e)
    {
      if e.purchaseId !in w.db.purchases {
        StartFresh(cfg, w, cmd.userId, cmd.contentId, cmd.plan, e.purchaseId);
      }
      DoomedKept(w.db, v, e);
    }
  }

  lemma TickDoomed(cfg: Config, w: World, fetch: Outcome, plans: nat -> Plan, events: seq<OutboxRow>)
    requires KeysMatch(w.db) && forall e | e in events :: Doomed(w.db, e)
    requires events == Oldest(Unpublished(w.db.outbox), 20)
    ensures var v := Tick(cfg, w, fetch, plans).db;
            v.outbox == w.db.outbox && Grows(w.db, v) && v.purchases.Keys == w.db.purchases.Keys
  {
    DoomedBatch(cfg, w, events, plans, 0);
  }

  lemma ServeGrows(cfg: Config, w: World, cmd: Command)
    requires !IsTick(cmd)
    ensures var v := Serve(cfg, w, cmd).db;
            Grows(w.db, v) && (!cmd.StartPurchase? ==> w.db.purchases.Keys == v.purchases.Keys)
  {
    match cmd
    case StartPurchase(userId, contentId, plan) => DriveGrows(cfg, w, Start(FindContent(userId, contentId)), plan, 0);
    case ConfirmPayment(ev, plan) => DriveGrows(cfg, w, Confirm(CheckKey(ev)), plan, 0);
    case UseAccess(token, plan) => DriveGrows(cfg, w, Use(PeekCache(token)), plan, 0);
    case OutboxTick(_, _) =>
    case EditCatalog(_, _) =>
    case EvictTokens(_) =>
  }

  lemma ServeDoomed(cfg: Config, w: World, cmd: Command, events: seq<OutboxRow>)
    requires KeysMatch(w.db) && (forall e | e in events :: Doomed(w.db, e)) && FreshIds(w.db, cmd, events)
    requires events == Oldest(Unpublished(w.db.outbox), 20)
    ensures var v := Serve(cfg, w, cmd).db;
            Grows(w.db, v) && w.db.outbox <= v.outbox && forall e | e in events :: Doomed(v, e)
  {
    var v := Serve(cfg, w, cmd).db;
    if IsTick(cmd) {
      TickDoomed(cfg, w, cmd.fetch, cmd.plans, events);
      AllDoomedKept(w.db, v, events);
    } else {
      ServeAppends(cfg, w, cmd);
      ServeGrows(cfg, w, cmd);
      if cmd.StartPurchase? {
        StartDoomed(cfg, w, cmd, events);
      } else {
        AllDoomedKept(w.db, v, events);
      }
    }
  }

  lemma AllDoomedKept(a: Db, b: Db, events: seq<OutboxRow>)
    requires Grows(a, b) && a.purchases.Keys == b.purchases.Keys && forall e | e in events :: Doomed(a, e)
    ensures forall e | e in events :: Doomed(b, e)
  {
    forall e | e in events
      ensures Doomed(b, e)
    {
      DoomedKept(a, b, e);
    }
  }

  lemma OldestAppended(a: seq<OutboxRow>, b: seq<OutboxRow>)
    requires a <= b && |Oldest(Unpublished(a), 20)| == 20
    ensures Oldest(Unpublished(b), 20) == Oldest(Unpublished(a), 20)
  {
    assert b == a + b[|a|..];
    UnpublishedConcat(a, b[|a|..]);
  }

  /** If the 20 oldest unpublished events are all doomed, they are the batch of every tick from then on:
      no other event is ever handled or published, in any number of ticks, whatever else is served. */
  lemma {:induction false} Starvation(cfg: Config, w: World, cmds: seq<Command>, events: seq<OutboxRow>)
    requires KeysMatch(w.db) && events == Oldest(Unpublished(w.db.outbox), 20) && |events| == 20
    requires forall e | e in events :: Doomed(w.db, e)
    requires forall i | 0 <= i < |cmds| :: FreshIds(w.db, cmds[i], events)
    ensures var o := ServeAll(cfg, w, cmds).db.outbox;
            Oldest(Unpublished(o), 20) == events && w.db.outbox <= o
    decreases |cmds|
  {
    if cmds != [] {
      var v := Serve(cfg, w, cmds[0]);
      assert FreshIds(w.db, cmds[0], events);
      ServeDoomed(cfg, w, cmds[0], events);
      OldestAppended(w.db.outbox, v.db.outbox);
      forall i | 0 <= i < |cmds[1..]|
        ensures FreshIds(v.db, cmds[1..][i], events)
      {
        assert FreshIds(w.db, cmds[i + 1], events);
      }
      Starvation(cfg, v, cmds[1..], events);
    }
  }
}
