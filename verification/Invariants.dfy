/** What every execution keeps, with any number of runs of every kind in flight,
    any faults, and runs stopping anywhere. */
module Invariants {
  import opened Text
  import opened Domain
  import opened Tables
  import opened Protocol

  // ---------- facts about one record ----------

  /** The fields no handler changes once a purchase exists. */
  predicate SameIdentity(a: Purchase, b: Purchase) {
    && a.id == b.id && a.userId == b.userId && a.contentId == b.contentId
    && a.payload == b.payload && a.stars == b.stars && a.createdAt == b.createdAt
  }

  predicate RecordOk(cfg: Config, p: Purchase) {
    && p.stars > 0
    && p.status != Expired
    && (p.status == Pending <==> p.chargeId == "")
    && (p.status == Pending <==> p.paidAt.None?)
    && (cfg.maxRetries >= 1 ==> p.Accounted(cfg.maxRetries))
  }

  predicate SameGrant(a: Grant, b: Grant) {
    a.(usedAt := None) == b.(usedAt := None)
  }

  /** The table still has this grant, possibly used in the meantime. */
  predicate Held(db: Db, g: Grant) {
    g.id in db.grants && SameGrant(db.grants[g.id], g)
  }

  predicate HasGrant(db: Db, p: Purchase) {
    && GrantId(p.id) in db.grants
    && db.grants[GrantId(p.id)].purchaseId == p.id && db.grants[GrantId(p.id)].userId == p.userId
  }

  predicate Settled(db: Db, id: string) {
    id in db.purchases && db.purchases[id].status != Pending
  }

  ghost predicate InOutbox(db: Db, id: string) {
    exists i :: 0 <= i < |db.outbox| && db.outbox[i].purchaseId == id
  }

  ghost predicate EventFor(db: Db, eventId: string, id: string) {
    exists i :: 0 <= i < |db.outbox| && db.outbox[i].id == eventId && db.outbox[i].purchaseId == id
  }

  /** A copy in some run's hands: stale perhaps, but of an existing purchase. */
  predicate CopyOk(cfg: Config, db: Db, p: Purchase) {
    && p.id in db.purchases && SameIdentity(db.purchases[p.id], p)
    && RecordOk(cfg, p) && (p.status == AccessIssued ==> HasGrant(db, p))
  }

  // ---------- facts about the tables ----------

  predicate PurchasesOk(cfg: Config, db: Db) {
    forall id | id in db.purchases ::
      && db.purchases[id].id == id && RecordOk(cfg, db.purchases[id])
      && (db.purchases[id].status == AccessIssued ==> HasGrant(db, db.purchases[id]))
  }

  ghost predicate ChargesUnique(db: Db) {
    forall a, b | a in db.purchases && b in db.purchases
                  && db.purchases[a].chargeId != "" && db.purchases[a].chargeId == db.purchases[b].chargeId :: a == b
  }

  predicate GrantsOk(db: Db) {
    forall id | id in db.grants ::
      && id == db.grants[id].id && id == GrantId(db.grants[id].purchaseId)
      && Settled(db, db.grants[id].purchaseId)
      && db.purchases[db.grants[id].purchaseId].userId == db.grants[id].userId
  }

  ghost predicate HashesUnique(db: Db) {
    forall a, b | a in db.grants && b in db.grants && db.grants[a].tokenHash == db.grants[b].tokenHash :: a == b
  }

  predicate OutboxOk(db: Db) {
    forall i | 0 <= i < |db.outbox| :: db.outbox[i].kind == CONFIRMED && Settled(db, db.outbox[i].purchaseId)
  }

  ghost predicate EventIdsUnique(db: Db) {
    forall i, j | 0 <= i < |db.outbox| && 0 <= j < |db.outbox| && db.outbox[i].id == db.outbox[j].id :: i == j
  }

  predicate ContentsOk(db: Db) {
    forall id | id in db.contents :: db.contents[id].id == id && db.contents[id].price > 0
  }

  /** Every cache entry names the purchase of the grant with that token hash. */
  predicate CacheOk(w: World) {
    forall h | h in w.cache ::
      GrantId(w.cache[h]) in w.db.grants && w.db.grants[GrantId(w.cache[h])].tokenHash == h
  }

  predicate SendOk(cfg: Config, db: Db, m: Sent) {
    && GrantId(m.purchaseId) in db.grants
    && db.grants[GrantId(m.purchaseId)].tokenHash == cfg.hash(m.raw)
    && db.grants[GrantId(m.purchaseId)].userId == m.userId
    && EndsWith(m.link, "?token=" + m.raw)
  }

  predicate SendsOk(cfg: Config, w: World) {
    forall i | 0 <= i < |w.sent| :: SendOk(cfg, w.db, w.sent[i])
  }

  ghost predicate WorldOk(cfg: Config, w: World) {
    && PurchasesOk(cfg, w.db) && ChargesUnique(w.db)
    && GrantsOk(w.db) && HashesUnique(w.db)
    && OutboxOk(w.db) && EventIdsUnique(w.db)
    && ContentsOk(w.db) && CacheOk(w) && SendsOk(cfg, w)
  }

  // ---------- facts about one run in flight ----------

  ghost predicate ConfirmOk(cfg: Config, db: Db, r: ConfirmRun) {
    match r
    case CheckKey(_) => true
    case FindPurchase(ev) => ev.chargeId != ""
    case StorePaid(ev, p) =>
      CopyOk(cfg, db, p) && p.status == Paid && p.chargeId == ev.chargeId && p.payload == ev.payload
    case LogEvent(ev, p) =>
      && CopyOk(cfg, db, p) && p.status == Paid && p.chargeId == ev.chargeId && p.payload == ev.payload
      && Settled(db, p.id)
    case Publish(ev, p) =>
      && CopyOk(cfg, db, p) && p.status == Paid && p.chargeId == ev.chargeId && p.payload == ev.payload
      && Settled(db, p.id)
    case StoreKey(ev, p) =>
      && CopyOk(cfg, db, p) && p.chargeId == ev.chargeId && p.payload == ev.payload
      && Settled(db, p.id) && InOutbox(db, p.id)
  }

  /** An issue run works on a purchase that is in the outbox, from a copy that is not pending. */
  ghost predicate Working(cfg: Config, db: Db, e: string, p: Purchase) {
    CopyOk(cfg, db, p) && p.status != Pending && EventFor(db, e, p.id)
  }

  predicate GrantFor(cfg: Config, p: Purchase, g: Grant, raw: string) {
    g.id == GrantId(p.id) && g.purchaseId == p.id && g.userId == p.userId && g.tokenHash == cfg.hash(raw)
  }

  ghost predicate IssueOk(cfg: Config, db: Db, r: IssueRun) {
    match r
    case LoadPurchase(e, id) => EventFor(db, e, id)
    case LoadContent(e, p) => Working(cfg, db, e, p)
    case AskProvider(e, p, _) => Working(cfg, db, e, p)
    case StoreFailure(e, p) => Working(cfg, db, e, p)
    case MakeToken(e, p, _, _) => Working(cfg, db, e, p)
    case CreateGrant(e, p, g, _, raw) => Working(cfg, db, e, p) && GrantFor(cfg, p, g, raw) && g.usedAt.None?
    case CacheToken(e, p, g, _, raw) => Working(cfg, db, e, p) && GrantFor(cfg, p, g, raw) && Held(db, g)
    case StoreIssued(e, p, g, _, raw) =>
      Working(cfg, db, e, p) && GrantFor(cfg, p, g, raw) && Held(db, g) && p.status == AccessIssued
    case SendLink(e, p, g, _, raw) =>
      Working(cfg, db, e, p) && GrantFor(cfg, p, g, raw) && Held(db, g) && p.status == AccessIssued
    case FlagEvent(e, p) => Working(cfg, db, e, p)
  }

  predicate UseOk(cfg: Config, db: Db, r: UseRun) {
    match r
    case PeekCache(_) => true
    case FindGrant(_) => true
    case MarkGrant(token, g) => Held(db, g) && g.usedAt.None? && g.tokenHash == cfg.hash(token)
    case ForgetToken(token, g) => Held(db, g) && g.tokenHash == cfg.hash(token)
  }

  predicate StartOk(cfg: Config, r: StartRun) {
    match r
    case FindContent(_, _) => true
    case MakeId(_, _, price) => price > 0
    case Insert(p) => RecordOk(cfg, p) && p.status == Pending && p.attempts == 0
  }

  ghost predicate RunOk(cfg: Config, db: Db, r: Run) {
    match r
    case Start(s) => StartOk(cfg, s)
    case Confirm(f) => ConfirmOk(cfg, db, f)
    case Issue(i) => IssueOk(cfg, db, i)
    case Use(u) => UseOk(cfg, db, u)
    case Ended(_) => true
  }

  /** The purchase a run has created a grant for without having sent its link yet. */
  function Claim(r: Run): set<string> {
    match r
    case Issue(CacheToken(_, p, _, _, _)) => {p.id}
    case Issue(StoreIssued(_, p, _, _, _)) => {p.id}
    case Issue(SendLink(_, p, _, _, _)) => {p.id}
    case _ => {}
  }

  ghost predicate SoleClaims(s: Sys) {
    forall a, b | a in s.runs && b in s.runs && a != b :: Claim(s.runs[a]) !! Claim(s.runs[b])
  }

  ghost predicate ClaimsUnsent(s: Sys) {
    forall a, i | a in s.runs && 0 <= i < |s.w.sent| :: s.w.sent[i].purchaseId !in Claim(s.runs[a])
  }

  ghost predicate SentOnce(sent: seq<Sent>) {
    forall i, j | 0 <= i < |sent| && 0 <= j < |sent| && sent[i].purchaseId == sent[j].purchaseId :: i == j
  }

  ghost predicate RunsOk(cfg: Config, s: Sys) {
    forall k | k in s.runs :: RunOk(cfg, s.w.db, s.runs[k])
  }

  ghost predicate BaseOk(cfg: Config, s: Sys) {
    WorldOk(cfg, s.w) && RunsOk(cfg, s) && SoleClaims(s) && ClaimsUnsent(s) && SentOnce(s.w.sent)
  }

  // ---------- what no step ever undoes ----------

  ghost predicate PurchasesKept(a: Db, b: Db) {
    forall id | id in a.purchases ::
      && id in b.purchases && SameIdentity(a.purchases[id], b.purchases[id])
      && (Settled(a, id) ==> Settled(b, id))
  }

  ghost predicate GrantsKept(a: Db, b: Db) {
    forall id | id in a.grants ::
      && id in b.grants && SameGrant(a.grants[id], b.grants[id])
      && (a.grants[id].usedAt.Some? ==> b.grants[id] == a.grants[id])
  }

  ghost predicate OutboxKept(a: Db, b: Db) {
    && |a.outbox| <= |b.outbox|
    && forall i | 0 <= i < |a.outbox| ::
         && b.outbox[i].id == a.outbox[i].id && b.outbox[i].kind == a.outbox[i].kind
         && b.outbox[i].purchaseId == a.outbox[i].purchaseId
         && (a.outbox[i].published ==> b.outbox[i].published)
  }

  ghost predicate PaymentsKept(a: Db, b: Db) {
    && a.processed <= b.processed
    && forall c | c in a.payments :: c in b.payments && b.payments[c] == a.payments[c]
  }

  ghost predicate Kept(a: World, b: World) {
    && PurchasesKept(a.db, b.db) && GrantsKept(a.db, b.db) && OutboxKept(a.db, b.db) && PaymentsKept(a.db, b.db)
    && a.sent <= b.sent
  }

  lemma KeptReflexive(w: World)
    ensures Kept(w, w)
  {
  }

  lemma KeptTransitive(a: World, b: World, c: World)
    requires Kept(a, b) && Kept(b, c)
    ensures Kept(a, c)
  {
  }

  lemma GrantIdInjective(a: string, b: string)
    requires GrantId(a) == GrantId(b)
    ensures a == b
  {
    DropPrefix("grant-", a, b);
  }

  lemma HasGrantKept(a: Db, b: Db, p: Purchase)
    requires GrantsKept(a, b) && HasGrant(a, p)
    ensures HasGrant(b, p)
  {
  }

  lemma EventForKept(a: Db, b: Db, e: string, id: string)
    requires OutboxKept(a, b) && EventFor(a, e, id)
    ensures EventFor(b, e, id)
  {
    var i :| 0 <= i < |a.outbox| && a.outbox[i].id == e && a.outbox[i].purchaseId == id;
    assert b.outbox[i].id == e;
  }

  lemma InOutboxKept(a: Db, b: Db, id: string)
    requires OutboxKept(a, b) && InOutbox(a, id)
    ensures InOutbox(b, id)
  {
    var i :| 0 <= i < |a.outbox| && a.outbox[i].purchaseId == id;
    assert b.outbox[i].purchaseId == id;
  }

  lemma CopyOkKept(cfg: Config, a: Db, b: Db, p: Purchase)
    requires PurchasesKept(a, b) && GrantsKept(a, b) && CopyOk(cfg, a, p)
    ensures CopyOk(cfg, b, p)
  {
    if p.status == AccessIssued {
      HasGrantKept(a, b, p);
    }
  }

  lemma HeldKept(a: Db, b: Db, g: Grant)
    requires GrantsKept(a, b) && Held(a, g)
    ensures Held(b, g)
  {
  }

  lemma IssueOkKept(cfg: Config, a: Db, b: Db, r: IssueRun)
    requires PurchasesKept(a, b) && GrantsKept(a, b) && OutboxKept(a, b) && IssueOk(cfg, a, r)
    ensures IssueOk(cfg, b, r)
  {
    if r.LoadPurchase? {
      EventForKept(a, b, r.eventId, r.purchaseId);
    } else {
      EventForKept(a, b, r.eventId, r.copy.id);
      CopyOkKept(cfg, a, b, r.copy);
      if r.CacheToken? || r.StoreIssued? || r.SendLink? {
        HeldKept(a, b, r.grant);
      }
    }
  }

  lemma ConfirmOkKept(cfg: Config, a: Db, b: Db, r: ConfirmRun)
    requires PurchasesKept(a, b) && GrantsKept(a, b) && OutboxKept(a, b) && ConfirmOk(cfg, a, r)
    ensures ConfirmOk(cfg, b, r)
  {
    if !r.CheckKey? && !r.FindPurchase? {
      CopyOkKept(cfg, a, b, r.copy);
      if r.StoreKey? {
        InOutboxKept(a, b, r.copy.id);
      }
    }
  }

  /** A run is never disturbed by what the others do. */
  lemma RunOkKept(cfg: Config, a: World, b: World, r: Run)
    requires Kept(a, b) && RunOk(cfg, a.db, r)
    ensures RunOk(cfg, b.db, r)
  {
    match r
    case Start(_) =>
    case Confirm(f) => ConfirmOkKept(cfg, a.db, b.db, f);
    case Issue(i) => IssueOkKept(cfg, a.db, b.db, i);
    case Use(u) =>
      if u.MarkGrant? || u.ForgetToken? {
        HeldKept(a.db, b.db, u.grant);
      }
    case Ended(_) =>
  }

  // ---------- each kind of write keeps the tables in order ----------

  lemma InsertPurchaseKeeps(cfg: Config, w: World, p: Purchase)
    requires WorldOk(cfg, w) && RecordOk(cfg, p) && p.status == Pending && InsertPurchase(w.db, p).Some?
    ensures var w' := w.(db := InsertPurchase(w.db, p).value); WorldOk(cfg, w') && Kept(w, w')
  {
    var db := InsertPurchase(w.db, p).value;
    assert PurchasesKept(w.db, db);
    assert ChargesUnique(db);
  }

  lemma UpdatedPurchases(cfg: Config, db: Db, p: Purchase)
    requires PurchasesOk(cfg, db) && ChargesUnique(db)
    requires CopyOk(cfg, db, p) && p.status != Pending && UpdatePurchase(db, p).Some?
    ensures var t := UpdatePurchase(db, p).value;
            PurchasesOk(cfg, t) && ChargesUnique(t) && PurchasesKept(db, t)
  {
  }

  lemma SettledTables(a: Db, b: Db)
    requires GrantsOk(a) && OutboxOk(a) && PurchasesKept(a, b) && b.grants == a.grants && b.outbox == a.outbox
    ensures GrantsOk(b) && OutboxOk(b)
  {
  }

  lemma OnlyPurchasesKept(w: World, db: Db)
    requires db == w.db.(purchases := db.purchases) && PurchasesKept(w.db, db)
    ensures Kept(w, w.(db := db))
  {
  }

  lemma UpdatePurchaseKeeps(cfg: Config, w: World, p: Purchase)
    requires WorldOk(cfg, w) && CopyOk(cfg, w.db, p) && p.status != Pending && UpdatePurchase(w.db, p).Some?
    ensures var w' := w.(db := UpdatePurchase(w.db, p).value);
            WorldOk(cfg, w') && Kept(w, w') && w'.db.purchases == w.db.purchases[p.id := p]
  {
    var db := UpdatePurchase(w.db, p).value;
    UpdatedPurchases(cfg, w.db, p);
    SettledTables(w.db, db);
    OnlyPurchasesKept(w, db);
  }

  lemma InsertedGrants(db: Db, g: Grant)
    requires GrantsOk(db) && HashesUnique(db) && InsertGrant(db, g).Some? && g.id == GrantId(g.purchaseId)
    requires Settled(db, g.purchaseId) && db.purchases[g.purchaseId].userId == g.userId
    ensures var t := InsertGrant(db, g).value;
            GrantsOk(t) && HashesUnique(t) && GrantsKept(db, t)
  {
  }

  lemma InsertGrantKeeps(cfg: Config, w: World, p: Purchase, g: Grant, raw: string)
    requires WorldOk(cfg, w) && CopyOk(cfg, w.db, p) && Settled(w.db, p.id)
    requires GrantFor(cfg, p, g, raw) && g.usedAt.None? && InsertGrant(w.db, g).Some?
    ensures var w' := w.(db := InsertGrant(w.db, g).value);
            WorldOk(cfg, w') && Kept(w, w') && Held(w'.db, g)
  {
    var w' := w.(db := InsertGrant(w.db, g).value);
    InsertedGrants(w.db, g);
    GrantedPurchases(cfg, w.db, w'.db);
    GrantedTokens(cfg, w, w');
  }

  lemma GrantedPurchases(cfg: Config, a: Db, b: Db)
    requires PurchasesOk(cfg, a) && GrantsKept(a, b) && b.purchases == a.purchases
    ensures PurchasesOk(cfg, b)
  {
  }

  lemma OnlyUsedKept(w: World, db: Db)
    requires db == w.db.(grants := db.grants) && GrantsKept(w.db, db)
    ensures Kept(w, w.(db := db))
  {
  }

  lemma OnlyUsedGrants(a: Db, b: Db)
    requires GrantsOk(a) && HashesUnique(a) && b == a.(grants := b.grants)
    requires GrantsKept(a, b) && b.grants.Keys == a.grants.Keys
    ensures GrantsOk(b) && HashesUnique(b)
  {
  }

  lemma GrantedTokens(cfg: Config, a: World, b: World)
    requires CacheOk(a) && SendsOk(cfg, a) && GrantsKept(a.db, b.db) && b.cache == a.cache && b.sent == a.sent
    ensures CacheOk(b) && SendsOk(cfg, b)
  {
  }

  /** The tables stay in order when nothing but used_at changes. */
  lemma OnlyUsedKeeps(cfg: Config, w: World, db: Db)
    requires WorldOk(cfg, w) && db == w.db.(grants := db.grants)
    requires GrantsKept(w.db, db) && db.grants.Keys == w.db.grants.Keys
    ensures WorldOk(cfg, w.(db := db)) && Kept(w, w.(db := db))
  {
    GrantedPurchases(cfg, w.db, db);
    OnlyUsedGrants(w.db, db);
    OnlyUsedKept(w, db);
    GrantedTokens(cfg, w, w.(db := db));
  }

  lemma MarkUsedGrants(db: Db, id: string, now: Time)
    ensures var t := MarkUsed(db, id, now);
            t == db.(grants := t.grants) && GrantsKept(db, t) && t.grants.Keys == db.grants.Keys
  {
  }

  lemma MarkUsedKeeps(cfg: Config, w: World, id: string, now: Time)
    requires WorldOk(cfg, w)
    ensures var w' := w.(db := MarkUsed(w.db, id, now)); WorldOk(cfg, w') && Kept(w, w')
  {
    MarkUsedGrants(w.db, id, now);
    OnlyUsedKeeps(cfg, w, MarkUsed(w.db, id, now));
  }

  /** Nothing depends on the payment log and the processed keys. */
  lemma OnlyPaymentsKeeps(cfg: Config, w: World, db: Db)
    requires WorldOk(cfg, w) && db == w.db.(payments := db.payments, processed := db.processed)
    requires PaymentsKept(w.db, db)
    ensures WorldOk(cfg, w.(db := db)) && Kept(w, w.(db := db))
  {
    GrantedPurchases(cfg, w.db, db);
    GrantedTokens(cfg, w, w.(db := db));
  }

  lemma LogPaymentKeeps(cfg: Config, w: World, ev: Event)
    requires WorldOk(cfg, w)
    ensures var w' := w.(db := LogPayment(w.db, ev)); WorldOk(cfg, w') && Kept(w, w')
  {
    OnlyPaymentsKeeps(cfg, w, LogPayment(w.db, ev));
  }

  lemma AddKeyKeeps(cfg: Config, w: World, c: string)
    requires WorldOk(cfg, w)
    ensures var w' := w.(db := AddKey(w.db, c)); WorldOk(cfg, w') && Kept(w, w')
  {
    OnlyPaymentsKeeps(cfg, w, AddKey(w.db, c));
  }

  lemma AppendedOutbox(db: Db, e: string, id: string)
    requires OutboxOk(db) && EventIdsUnique(db) && Settled(db, id) && AppendEvent(db, e, id).Some?
    ensures var t := AppendEvent(db, e, id).value;
            && OutboxOk(t) && EventIdsUnique(t) && OutboxKept(db, t)
            && EventFor(t, e, id) && InOutbox(t, id)
  {
    var t := AppendEvent(db, e, id).value;
    assert t.outbox[|db.outbox|].id == e && t.outbox[|db.outbox|].purchaseId == id;
  }

  lemma AppendEventKeeps(cfg: Config, w: World, e: string, id: string)
    requires WorldOk(cfg, w) && Settled(w.db, id) && AppendEvent(w.db, e, id).Some?
    ensures var w' := w.(db := AppendEvent(w.db, e, id).value);
            && WorldOk(cfg, w') == true && Kept(w, w') == true
            && EventFor(w'.db, e, id) && InOutbox(w'.db, id)
  {
    AppendedOutbox(w.db, e, id);
  }

  lemma FlaggedOutbox(db: Db, e: string)
    requires OutboxOk(db) && EventIdsUnique(db)
    ensures var t := MarkPublished(db, e);
            OutboxOk(t) && EventIdsUnique(t) && OutboxKept(db, t)
  {
  }

  lemma MarkPublishedKeeps(cfg: Config, w: World, e: string)
    requires WorldOk(cfg, w)
    ensures var w' := w.(db := MarkPublished(w.db, e)); WorldOk(cfg, w') && Kept(w, w')
  {
    FlaggedOutbox(w.db, e);
  }

  lemma CachedKeeps(cfg: Config, w: World, g: Grant, c: Choice)
    requires WorldOk(cfg, w) && Held(w.db, g) && g.id == GrantId(g.purchaseId)
    ensures WorldOk(cfg, Cached(cfg, w, g, c)) && Kept(w, Cached(cfg, w, g, c))
  {
    KeptReflexive(w);
    assert CacheOk(Cached(cfg, w, g, c));
  }

  lemma SendKeeps(cfg: Config, w: World, m: Sent)
    requires WorldOk(cfg, w) && SendOk(cfg, w.db, m)
    ensures var w' := w.(sent := w.sent + [m]); WorldOk(cfg, w') && Kept(w, w')
  {
  }

  lemma OnlyContentsKept(w: World, db: Db)
    requires db == w.db.(contents := db.contents)
    ensures Kept(w, w.(db := db)) && GrantsKept(w.db, db)
  {
  }

  /** The tables stay in order when only the catalog changes, within the schema. */
  lemma OnlyContentsKeeps(cfg: Config, w: World, db: Db)
    requires WorldOk(cfg, w) && db == w.db.(contents := db.contents) && ContentsOk(db)
    ensures WorldOk(cfg, w.(db := db)) && Kept(w, w.(db := db))
  {
    OnlyContentsKept(w, db);
    GrantedPurchases(cfg, w.db, db);
    GrantedTokens(cfg, w, w.(db := db));
  }

  lemma EditKeeps(cfg: Config, w: World, id: string, row: Option<Content>)
    requires WorldOk(cfg, w)
    ensures var w' := w.(db := EditContent(w.db, id, row)); WorldOk(cfg, w') && Kept(w, w')
  {
    OnlyContentsKeeps(cfg, w, EditContent(w.db, id, row));
  }

  // ---------- one step of one run ----------

  /** What one step achieves. The lemmas state it as an equation so that the verifier
      keeps the predicate folded where they are combined. */
  ghost predicate Advances(cfg: Config, w: World, n: Next) {
    WorldOk(cfg, n.w) && Kept(w, n.w) && RunOk(cfg, n.w.db, n.run)
  }

  lemma StayAdvances(cfg: Config, w: World, r: Run)
    requires WorldOk(cfg, w) && RunOk(cfg, w.db, r)
    ensures Advances(cfg, w, Next(w, r)) == true
  {
    KeptReflexive(w);
  }

  lemma WriteAdvances(cfg: Config, w: World, db: Db, c: Choice, served: Run, failed: Reply)
    requires WorldOk(cfg, w) && WorldOk(cfg, w.(db := db))
    requires Kept(w, w.(db := db)) && RunOk(cfg, db, served)
    ensures Advances(cfg, w, Next(Written(w, db, c), if c.outcome.Served? then served else Ended(failed))) == true
  {
    KeptReflexive(w);
  }

  lemma StartAdvances(cfg: Config, w: World, r: StartRun, c: Choice)
    requires WorldOk(cfg, w) && StartOk(cfg, r)
    ensures Advances(cfg, w, StartStep(w, r, c)) == true
  {
    if r.Insert? && InsertPurchase(w.db, r.purchase).Some? {
      InsertPurchaseKeeps(cfg, w, r.purchase);
      var p := r.purchase;
      var db := InsertPurchase(w.db, p).value;
      WriteAdvances(cfg, w, db, c, Ended(Started(p.id, p.payload, p.stars)), Failed(CallFailed));
    } else {
      StayAdvances(cfg, w, StartStep(w, r, c).run);
    }
  }

  lemma FindByPayloadOk(db: Db, payload: string)
    requires FindByPayload(db, payload).Some?
    ensures var p := FindByPayload(db, payload).value;
            p.payload == payload && exists id :: id in db.purchases && db.purchases[id] == p
  {
  }

  lemma FindByHashOk(db: Db, hash: string)
    requires FindByHash(db, hash).Some?
    ensures var g := FindByHash(db, hash).value;
            g.tokenHash == hash && exists id :: id in db.grants && db.grants[id] == g
  {
  }

  lemma FindPurchaseOk(cfg: Config, w: World, ev: Event, c: Choice)
    requires PurchasesOk(cfg, w.db) && ev.chargeId != ""
    ensures RunOk(cfg, w.db, ConfirmStep(w, FindPurchase(ev), c).run)
  {
    if FindByPayload(w.db, ev.payload).Some? {
      FindByPayloadOk(w.db, ev.payload);
    }
  }

  lemma StorePaidAdvances(cfg: Config, w: World, r: ConfirmRun, c: Choice)
    requires WorldOk(cfg, w) && ConfirmOk(cfg, w.db, r) && r.StorePaid?
    ensures Advances(cfg, w, ConfirmStep(w, r, c)) == true
  {
    if UpdatePurchase(w.db, r.copy).Some? {
      UpdatePurchaseKeeps(cfg, w, r.copy);
      var db := UpdatePurchase(w.db, r.copy).value;
      CopyOkKept(cfg, w.db, db, r.copy);
      WriteAdvances(cfg, w, db, c, Confirm(LogEvent(r.ev, r.copy)), Failed(CallFailed));
    } else {
      StayAdvances(cfg, w, Ended(Failed(CallFailed)));
    }
  }

  lemma PublishedOk(cfg: Config, db: Db, r: ConfirmRun)
    requires ConfirmOk(cfg, db, r) && r.Publish? && InOutbox(db, r.copy.id)
    ensures RunOk(cfg, db, Confirm(StoreKey(r.ev, r.copy)))
  {
  }

  lemma PublishAdvances(cfg: Config, w: World, r: ConfirmRun, c: Choice)
    requires WorldOk(cfg, w) && ConfirmOk(cfg, w.db, r) && r.Publish?
    ensures Advances(cfg, w, ConfirmStep(w, r, c)) == true
  {
    var e := EventId(c.nano, r.copy.id);
    if AppendEvent(w.db, e, r.copy.id).Some? {
      AppendEventKeeps(cfg, w, e, r.copy.id);
      var db := AppendEvent(w.db, e, r.copy.id).value;
      RunOkKept(cfg, w, w.(db := db), Confirm(r));
      PublishedOk(cfg, db, r);
      WriteAdvances(cfg, w, db, c, Confirm(StoreKey(r.ev, r.copy)), Failed(CallFailed));
    } else {
      StayAdvances(cfg, w, Ended(Failed(CallFailed)));
    }
  }

  lemma LogEventAdvances(cfg: Config, w: World, r: ConfirmRun, c: Choice)
    requires WorldOk(cfg, w) && ConfirmOk(cfg, w.db, r) && r.LogEvent?
    ensures Advances(cfg, w, ConfirmStep(w, r, c)) == true
  {
    LogPaymentKeeps(cfg, w, r.ev);
    CopyOkKept(cfg, w.db, LogPayment(w.db, r.ev), r.copy);
    WriteAdvances(cfg, w, LogPayment(w.db, r.ev), c, Confirm(Publish(r.ev, r.copy)), Failed(CallFailed));
  }

  lemma StoreKeyAdvances(cfg: Config, w: World, r: ConfirmRun, c: Choice)
    requires WorldOk(cfg, w) && ConfirmOk(cfg, w.db, r) && r.StoreKey?
    ensures Advances(cfg, w, ConfirmStep(w, r, c)) == true
  {
    AddKeyKeeps(cfg, w, r.ev.chargeId);
    WriteAdvances(cfg, w, AddKey(w.db, r.ev.chargeId), c, Ended(Accepted), Failed(CallFailed));
  }

  lemma ConfirmAdvances(cfg: Config, w: World, r: ConfirmRun, c: Choice)
    requires WorldOk(cfg, w) && ConfirmOk(cfg, w.db, r)
    ensures Advances(cfg, w, ConfirmStep(w, r, c)) == true
  {
    match r
    case CheckKey(ev) => StayAdvances(cfg, w, ConfirmStep(w, r, c).run);
    case FindPurchase(ev) =>
      FindPurchaseOk(cfg, w, ev, c);
      StayAdvances(cfg, w, ConfirmStep(w, r, c).run);
    case StorePaid(_, _) => StorePaidAdvances(cfg, w, r, c);
    case LogEvent(_, _) => LogEventAdvances(cfg, w, r, c);
    case Publish(_, _) => PublishAdvances(cfg, w, r, c);
    case StoreKey(_, _) => StoreKeyAdvances(cfg, w, r, c);
  }

  lemma EventForSettled(cfg: Config, db: Db, e: string, id: string)
    requires OutboxOk(db) && EventFor(db, e, id)
    ensures Settled(db, id)
  {
  }

  /** The steps of an issue run that only read. */
  lemma IssueReads(cfg: Config, w: World, r: IssueRun, c: Choice)
    requires PurchasesOk(cfg, w.db) && OutboxOk(w.db) && IssueOk(cfg, w.db, r)
    requires r.LoadPurchase? || r.LoadContent? || r.AskProvider? || r.MakeToken?
    ensures IssueStep(cfg, w, r, c).w == w && RunOk(cfg, w.db, IssueStep(cfg, w, r, c).run)
  {
    if r.LoadPurchase? {
      EventForSettled(cfg, w.db, r.eventId, r.purchaseId);
    }
  }

  lemma StoreFailureAdvances(cfg: Config, w: World, e: string, p: Purchase, c: Choice)
    requires WorldOk(cfg, w) && Working(cfg, w.db, e, p)
    ensures Advances(cfg, w, IssueStep(cfg, w, StoreFailure(e, p), c)) == true
  {
    if UpdatePurchase(w.db, p).Some? {
      UpdatePurchaseKeeps(cfg, w, p);
      WriteAdvances(cfg, w, UpdatePurchase(w.db, p).value, c, Ended(Failed(CallFailed)), Failed(CallFailed));
    } else {
      StayAdvances(cfg, w, Ended(Failed(CallFailed)));
    }
  }

  lemma CreatedOk(cfg: Config, db: Db, r: IssueRun)
    requires IssueOk(cfg, db, r) && r.CreateGrant? && Held(db, r.grant)
    ensures RunOk(cfg, db, Issue(CacheToken(r.eventId, r.copy, r.grant, r.link, r.raw)))
  {
  }

  lemma CreateGrantAdvances(cfg: Config, w: World, r: IssueRun, c: Choice)
    requires WorldOk(cfg, w) && IssueOk(cfg, w.db, r) && r.CreateGrant?
    ensures Advances(cfg, w, IssueStep(cfg, w, r, c)) == true
  {
    if InsertGrant(w.db, r.grant).Some? {
      var db := InsertGrant(w.db, r.grant).value;
      EventForSettled(cfg, w.db, r.eventId, r.copy.id);
      InsertGrantKeeps(cfg, w, r.copy, r.grant, r.raw);
      RunOkKept(cfg, w, w.(db := db), Issue(r));
      CreatedOk(cfg, db, r);
      WriteAdvances(cfg, w, db, c, Issue(CacheToken(r.eventId, r.copy, r.grant, r.link, r.raw)), Failed(CallFailed));
    } else {
      StayAdvances(cfg, w, Ended(Failed(CallFailed)));
    }
  }

  lemma CachedRunOk(cfg: Config, w: World, r: IssueRun, c: Choice)
    requires IssueOk(cfg, w.db, r) && r.CacheToken?
    ensures var n := IssueStep(cfg, w, r, c); n.w == Cached(cfg, w, r.grant, c) && RunOk(cfg, n.w.db, n.run)
  {
  }

  lemma CacheTokenAdvances(cfg: Config, w: World, r: IssueRun, c: Choice)
    requires WorldOk(cfg, w) && IssueOk(cfg, w.db, r) && r.CacheToken?
    ensures Advances(cfg, w, IssueStep(cfg, w, r, c)) == true
  {
    CachedKeeps(cfg, w, r.grant, c);
    CachedRunOk(cfg, w, r, c);
  }

  lemma IssuedOk(cfg: Config, db: Db, r: IssueRun)
    requires IssueOk(cfg, db, r) && r.StoreIssued?
    ensures RunOk(cfg, db, Issue(SendLink(r.eventId, r.copy, r.grant, r.link, r.raw)))
  {
  }

  lemma IssuedCopy(cfg: Config, db: Db, r: IssueRun)
    requires IssueOk(cfg, db, r) && r.StoreIssued?
    ensures CopyOk(cfg, db, r.copy) && r.copy.status != Pending
  {
  }

  lemma StoreIssuedStep(cfg: Config, w: World, r: IssueRun, c: Choice)
    requires r.StoreIssued?
    ensures IssueStep(cfg, w, r, c)
            == if UpdatePurchase(w.db, r.copy).None? then Next(w, Ended(Failed(CallFailed)))
               else Next(Written(w, UpdatePurchase(w.db, r.copy).value, c),
                         if c.outcome.Served? then Issue(SendLink(r.eventId, r.copy, r.grant, r.link, r.raw))
                         else Ended(Failed(CallFailed)))
  {
  }

  lemma StoreIssuedAdvances(cfg: Config, w: World, r: IssueRun, c: Choice)
    requires WorldOk(cfg, w) && IssueOk(cfg, w.db, r) && r.StoreIssued?
    ensures Advances(cfg, w, IssueStep(cfg, w, r, c)) == true
  {
    if UpdatePurchase(w.db, r.copy).Some? {
      var db := UpdatePurchase(w.db, r.copy).value;
      IssuedCopy(cfg, w.db, r);
      UpdatePurchaseKeeps(cfg, w, r.copy);
      RunOkKept(cfg, w, w.(db := db), Issue(r));
      IssuedOk(cfg, db, r);
      WriteAdvances(cfg, w, db, c, Issue(SendLink(r.eventId, r.copy, r.grant, r.link, r.raw)), Failed(CallFailed));
    } else {
      StayAdvances(cfg, w, Ended(Failed(CallFailed)));
    }
    StoreIssuedStep(cfg, w, r, c);
  }

  lemma LinkCarriesToken(link: string, raw: string)
    ensures EndsWith(FinalLink(link, raw), "?token=" + raw)
  {
    var t := "?token=" + raw;
    assert FinalLink(link, raw) == link + t;
    assert (link + t)[|link|..] == t;
  }

  lemma SendLinkAdvances(cfg: Config, w: World, r: IssueRun, c: Choice)
    requires WorldOk(cfg, w) && IssueOk(cfg, w.db, r) && r.SendLink?
    ensures Advances(cfg, w, IssueStep(cfg, w, r, c)) == true
  {
    LinkCarriesToken(r.link, r.raw);
    SendKeeps(cfg, w, Sent(r.copy.id, r.copy.userId, FinalLink(r.link, r.raw), r.raw, c.outcome.Served?));
  }

  lemma FlagEventAdvances(cfg: Config, w: World, r: IssueRun, c: Choice)
    requires WorldOk(cfg, w) && IssueOk(cfg, w.db, r) && r.FlagEvent?
    ensures Advances(cfg, w, IssueStep(cfg, w, r, c)) == true
  {
    MarkPublishedKeeps(cfg, w, r.eventId);
    WriteAdvances(cfg, w, MarkPublished(w.db, r.eventId), c, Ended(Accepted), Accepted);
  }

  lemma IssueReadAdvances(cfg: Config, w: World, r: IssueRun, c: Choice)
    requires WorldOk(cfg, w) && IssueOk(cfg, w.db, r)
    requires r.LoadPurchase? || r.LoadContent? || r.AskProvider? || r.MakeToken?
    ensures Advances(cfg, w, IssueStep(cfg, w, r, c)) == true
  {
    IssueReads(cfg, w, r, c);
    StayAdvances(cfg, w, IssueStep(cfg, w, r, c).run);
  }

  lemma AfterGrantAdvances(cfg: Config, w: World, r: IssueRun, c: Choice)
    requires WorldOk(cfg, w) && IssueOk(cfg, w.db, r)
    requires r.CacheToken? || r.StoreIssued? || r.SendLink? || r.FlagEvent?
    ensures Advances(cfg, w, IssueStep(cfg, w, r, c)) == true
  {
    if r.CacheToken? {
      CacheTokenAdvances(cfg, w, r, c);
    } else if r.StoreIssued? {
      StoreIssuedAdvances(cfg, w, r, c);
    } else if r.SendLink? {
      SendLinkAdvances(cfg, w, r, c);
    } else {
      FlagEventAdvances(cfg, w, r, c);
    }
  }

  lemma IssueAdvances(cfg: Config, w: World, r: IssueRun, c: Choice)
    requires WorldOk(cfg, w) && IssueOk(cfg, w.db, r)
    ensures Advances(cfg, w, IssueStep(cfg, w, r, c)) == true
  {
    match r
    case StoreFailure(e, p) => StoreFailureAdvances(cfg, w, e, p, c);
    case CreateGrant(_, _, _, _, _) => CreateGrantAdvances(cfg, w, r, c);
    case CacheToken(_, _, _, _, _) => AfterGrantAdvances(cfg, w, r, c);
    case StoreIssued(_, _, _, _, _) => AfterGrantAdvances(cfg, w, r, c);
    case SendLink(_, _, _, _, _) => AfterGrantAdvances(cfg, w, r, c);
    case FlagEvent(_, _) => AfterGrantAdvances(cfg, w, r, c);
    case _ => IssueReadAdvances(cfg, w, r, c);
  }

  lemma FindGrantOk(cfg: Config, w: World, token: string, c: Choice)
    requires GrantsOk(w.db)
    ensures RunOk(cfg, w.db, UseStep(cfg, w, FindGrant(token), c).run)
  {
    if FindByHash(w.db, cfg.hash(token)).Some? {
      FindByHashOk(w.db, cfg.hash(token));
    }
  }

  lemma ForgetKeeps(cfg: Config, w: World, hashes: set<string>)
    requires WorldOk(cfg, w)
    ensures var w' := w.(cache := w.cache - hashes); WorldOk(cfg, w') == true && Kept(w, w') == true
  {
  }

  lemma MarkGrantAdvances(cfg: Config, w: World, r: UseRun, c: Choice)
    requires WorldOk(cfg, w) && UseOk(cfg, w.db, r) && r.MarkGrant?
    ensures Advances(cfg, w, UseStep(cfg, w, r, c)) == true
  {
    var db := MarkUsed(w.db, r.grant.id, c.now);
    MarkUsedKeeps(cfg, w, r.grant.id, c.now);
    HeldKept(w.db, db, r.grant);
    WriteAdvances(cfg, w, db, c, Use(ForgetToken(r.token, r.grant)), Failed(CallFailed));
  }

  lemma FindGrantAdvances(cfg: Config, w: World, token: string, c: Choice)
    requires WorldOk(cfg, w)
    ensures Advances(cfg, w, UseStep(cfg, w, FindGrant(token), c)) == true
  {
    FindGrantOk(cfg, w, token, c);
    StayAdvances(cfg, w, UseStep(cfg, w, FindGrant(token), c).run);
  }

  lemma ForgetAdvances(cfg: Config, w: World, r: UseRun, c: Choice)
    requires WorldOk(cfg, w) && r.ForgetToken?
    ensures Advances(cfg, w, UseStep(cfg, w, r, c)) == true
  {
    if !cfg.hasCache || c.cacheOutcome.Refused? {
      StayAdvances(cfg, w, UseStep(cfg, w, r, c).run);
    } else {
      ForgetKeeps(cfg, w, {cfg.hash(r.token)});
    }
  }

  lemma UseAdvances(cfg: Config, w: World, r: UseRun, c: Choice)
    requires WorldOk(cfg, w) && UseOk(cfg, w.db, r)
    ensures Advances(cfg, w, UseStep(cfg, w, r, c)) == true
  {
    match r
    case PeekCache(token) =>
      StayAdvances(cfg, w, Use(FindGrant(token)));
    case FindGrant(token) => FindGrantAdvances(cfg, w, token, c);
    case MarkGrant(token, g) => MarkGrantAdvances(cfg, w, r, c);
    case ForgetToken(token, g) => ForgetAdvances(cfg, w, r, c);
  }

  lemma RunAdvances(cfg: Config, w: World, r: Run, c: Choice)
    requires WorldOk(cfg, w) && RunOk(cfg, w.db, r)
    ensures Advances(cfg, w, RunStep(cfg, w, r, c)) == true
  {
    match r
    case Start(s) => StartAdvances(cfg, w, s, c);
    case Confirm(f) => ConfirmAdvances(cfg, w, f, c);
    case Issue(i) => IssueAdvances(cfg, w, i, c);
    case Use(u) => UseAdvances(cfg, w, u, c);
    case Ended(_) => StayAdvances(cfg, w, r);
  }

  /** A claim on a purchase starts only while it has no grant, and ends with the one send. */
  ghost predicate ClaimMoves(w: World, r: Run, n: Next) {
    && (Claim(n.run) <= Claim(r) || forall id | id in Claim(n.run) :: GrantId(id) !in w.db.grants)
    && (n.w.sent == w.sent
        || (|n.w.sent| == |w.sent| + 1 && w.sent <= n.w.sent && Claim(n.run) == {}
            && n.w.sent[|w.sent|].purchaseId in Claim(r)))
  }

  lemma ClaimAdvances(cfg: Config, w: World, r: Run, c: Choice)
    requires RunOk(cfg, w.db, r)
    ensures ClaimMoves(w, r, RunStep(cfg, w, r, c))
  {
    var n := RunStep(cfg, w, r, c);
    if r.Issue? && r.issue.CreateGrant? {
      assert n.w.sent == w.sent;
      assert n.run.Issue? ==> GrantId(r.issue.copy.id) !in w.db.grants;
    } else if r.Issue? && r.issue.SendLink? {
      assert Claim(n.run) == {};
    } else {
      assert Claim(n.run) <= Claim(r);
      assert n.w.sent == w.sent;
    }
  }

  lemma ClaimHasGrant(cfg: Config, db: Db, r: Run, id: string)
    requires RunOk(cfg, db, r) && id in Claim(r)
    ensures GrantId(id) in db.grants
  {
  }

  // ---------- one label ----------

  lemma ClaimsDisjoint(cfg: Config, w: World, r: Run, n: Next, other: Run)
    requires ClaimMoves(w, r, n) && RunOk(cfg, w.db, other) && Claim(r) !! Claim(other)
    ensures Claim(n.run) !! Claim(other)
  {
    forall id | id in Claim(n.run) && id in Claim(other)
      ensures false
    {
      ClaimHasGrant(cfg, w.db, other, id);
    }
  }

  lemma AdvanceClaims(cfg: Config, s: Sys, k: nat, n: Next, t: Sys)
    requires RunsOk(cfg, s) && SoleClaims(s)
    requires k in s.runs && ClaimMoves(s.w, s.runs[k], n) && t.w == n.w && t.runs == s.runs[k := n.run]
    ensures SoleClaims(t)
  {
    forall b | b in s.runs && b != k
      ensures Claim(n.run) !! Claim(s.runs[b])
    {
      ClaimsDisjoint(cfg, s.w, s.runs[k], n, s.runs[b]);
    }
  }

  lemma AdvanceSends(cfg: Config, s: Sys, k: nat, n: Next, t: Sys)
    requires SendsOk(cfg, s.w) && SoleClaims(s) && ClaimsUnsent(s) && SentOnce(s.w.sent)
    requires k in s.runs && ClaimMoves(s.w, s.runs[k], n) && t.w == n.w && t.runs == s.runs[k := n.run]
    ensures ClaimsUnsent(t) && SentOnce(t.w.sent)
  {
  }

  lemma OthersKeep(cfg: Config, s: Sys, t: Sys)
    requires RunsOk(cfg, s) && Kept(s.w, t.w)
    ensures forall j | j in s.runs :: RunOk(cfg, t.w.db, s.runs[j])
  {
    forall j | j in s.runs
      ensures RunOk(cfg, t.w.db, s.runs[j])
    {
      RunOkKept(cfg, s.w, t.w, s.runs[j]);
    }
  }

  lemma AdvanceKeeps(cfg: Config, s: Sys, k: nat, c: Choice)
    requires BaseOk(cfg, s) && k in s.runs
    ensures var t := Step(cfg, s, Advance(k, c)); BaseOk(cfg, t) && Kept(s.w, t.w)
  {
    var t := Step(cfg, s, Advance(k, c));
    var n := RunStep(cfg, s.w, s.runs[k], c);
    RunAdvances(cfg, s.w, s.runs[k], c);
    OthersKeep(cfg, s, t);
    assert RunsOk(cfg, t);
    ClaimAdvances(cfg, s.w, s.runs[k], c);
    AdvanceClaims(cfg, s, k, n, t);
    AdvanceSends(cfg, s, k, n, t);
  }

  lemma OutsideKeeps(cfg: Config, s: Sys, t: Sys)
    requires BaseOk(cfg, s) && WorldOk(cfg, t.w) && Kept(s.w, t.w) && t.runs == s.runs && t.w.sent == s.w.sent
    ensures BaseOk(cfg, t)
  {
    OthersKeep(cfg, s, t);
  }

  lemma SpawnOk(cfg: Config, w: World, r: Run)
    requires Spawnable(w, r)
    ensures RunOk(cfg, w.db, r) && Claim(r) == {}
  {
  }

  lemma SpawnClaims(s: Sys, k: nat, r: Run)
    requires SoleClaims(s) && ClaimsUnsent(s) && Claim(r) == {}
    ensures SoleClaims(s.(runs := s.runs[k := r])) && ClaimsUnsent(s.(runs := s.runs[k := r]))
  {
  }

  lemma SpawnKeeps(cfg: Config, s: Sys, k: nat, r: Run)
    requires BaseOk(cfg, s)
    ensures BaseOk(cfg, Step(cfg, s, Spawn(k, r)))
  {
    if k !in s.runs && Spawnable(s.w, r) {
      SpawnOk(cfg, s.w, r);
      SpawnClaims(s, k, r);
    }
  }

  lemma StepKeeps(cfg: Config, s: Sys, l: Label)
    requires BaseOk(cfg, s)
    ensures BaseOk(cfg, Step(cfg, s, l)) && Kept(s.w, Step(cfg, s, l).w)
  {
    var t := Step(cfg, s, l);
    KeptReflexive(s.w);
    match l
    case Spawn(k, r) => SpawnKeeps(cfg, s, k, r);
    case Advance(k, c) =>
      if k in s.runs {
        AdvanceKeeps(cfg, s, k, c);
      }
    case Drop(k) =>
    case Edit(id, row) =>
      EditKeeps(cfg, s.w, id, row);
      OutsideKeeps(cfg, s, t);
    case Evict(hashes) =>
      ForgetKeeps(cfg, s.w, hashes);
      OutsideKeeps(cfg, s, t);
  }

  // ---------- whole executions ----------

  /** Every execution from a state in order ends in one, and undoes nothing. */
  lemma {:induction false} ExecKeeps(cfg: Config, s: Sys, ls: seq<Label>)
    requires BaseOk(cfg, s)
    ensures BaseOk(cfg, Exec(cfg, s, ls)) && Kept(s.w, Exec(cfg, s, ls).w)
    decreases |ls|
  {
    if ls != [] {
      var t := Step(cfg, s, ls[0]);
      StepKeeps(cfg, s, ls[0]);
      ExecKeeps(cfg, t, ls[1..]);
      KeptTransitive(s.w, t.w, Exec(cfg, s, ls).w);
    }
  }

  lemma Reachable(cfg: Config, s: Sys, ls: seq<Label>)
    requires Initial(s)
    ensures BaseOk(cfg, Exec(cfg, s, ls))
  {
    ExecKeeps(cfg, s, ls);
  }
}
