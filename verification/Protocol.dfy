/** The four use cases as step machines over the shared tables. One step is one
    repository, provider, token, sender or cache call, together with the local
    computation up to the next call. Every run keeps its own copies of the rows it read. */
module Protocol {
  import opened Text
  import opened Domain
  import opened Tables

  /** What does not change during a deployment: the token hash, the retry limit of the
      issue handler, and whether a token cache is configured. */
  datatype Config = Config(hash: string -> string, maxRetries: int, hasCache: bool)

  /** One call of SendAccessLink. */
  datatype Sent = Sent(purchaseId: string, userId: int, link: string, raw: string, delivered: bool)

  datatype World = World(db: Db, cache: map<string, string>, sent: seq<Sent>)

  /** How a call ends: served; refused without effect; or carried out although the caller
      sees an error. */
  datatype Outcome = Served | Refused | Unacknowledged

  /** Everything the environment decides for one call. */
  datatype Choice = Choice(
    outcome: Outcome, cacheOutcome: Outcome, now: Time, nano: nat,
    newId: string, link: string, expiresAt: Time, raw: string, message: string)

  datatype Reply =
    | Accepted
    | Failed(failure: Failure)
    | Started(purchaseId: string, payload: string, amount: int)
    | Redeemed(redeemedPurchase: string, redeemedUser: int)

  datatype StartRun =
    | FindContent(userId: int, contentId: string)
    | MakeId(userId: int, contentId: string, price: int)
    | Insert(purchase: Purchase)

  datatype ConfirmRun =
    | CheckKey(ev: Event)
    | FindPurchase(ev: Event)
    | StorePaid(ev: Event, copy: Purchase)
    | LogEvent(ev: Event, copy: Purchase)
    | Publish(ev: Event, copy: Purchase)
    | StoreKey(ev: Event, copy: Purchase)

  datatype IssueRun =
    | LoadPurchase(eventId: string, purchaseId: string)
    | LoadContent(eventId: string, copy: Purchase)
    | AskProvider(eventId: string, copy: Purchase, content: Content)
    | StoreFailure(eventId: string, copy: Purchase)
    | MakeToken(eventId: string, copy: Purchase, link: string, expiresAt: Time)
    | CreateGrant(eventId: string, copy: Purchase, grant: Grant, link: string, raw: string)
    | CacheToken(eventId: string, copy: Purchase, grant: Grant, link: string, raw: string)
    | StoreIssued(eventId: string, copy: Purchase, grant: Grant, link: string, raw: string)
    | SendLink(eventId: string, copy: Purchase, grant: Grant, link: string, raw: string)
    | FlagEvent(eventId: string, copy: Purchase)

  datatype UseRun =
    | PeekCache(token: string)
    | FindGrant(token: string)
    | MarkGrant(token: string, grant: Grant)
    | ForgetToken(token: string, grant: Grant)

  datatype Run =
    | Start(start: StartRun)
    | Confirm(confirm: ConfirmRun)
    | Issue(issue: IssueRun)
    | Use(use: UseRun)
    | Ended(reply: Reply)

  datatype Next = Next(w: World, run: Run)

  function Fail(w: World, f: Failure): Next {
    Next(w, Ended(Failed(f)))
  }

  /** A write that reaches the tables unless it was refused. */
  function Written(w: World, db: Db, c: Choice): World {
    if c.outcome.Refused? then w else w.(db := db)
  }

  function GrantId(purchaseId: string): string {
    "grant-" + purchaseId
  }

  function FinalLink(link: string, raw: string): string {
    link + "?token=" + raw
  }

  // ---------- start purchase ----------

  function NewPurchase(id: string, userId: int, contentId: string, price: int, now: Time): Purchase {
    Purchase(id, userId, contentId, Pending, InvoicePayload(contentId, id, userId), "",
             price, now, None, 0, "", None, None)
  }

  ghost function StartStep(w: World, r: StartRun, c: Choice): Next {
    match r
    case FindContent(userId, contentId) =>
      if !c.outcome.Served? || contentId !in w.db.contents then Fail(w, ContentNotFound)
      else if !w.db.contents[contentId].CanBePurchased() then Fail(w, ContentInactive)
      else Next(w, Start(MakeId(userId, contentId, w.db.contents[contentId].price)))
    case MakeId(userId, contentId, price) =>
      if !c.outcome.Served? then Fail(w, CallFailed)
      else Next(w, Start(Insert(NewPurchase(c.newId, userId, contentId, price, c.now))))
    case Insert(p) =>
      match InsertPurchase(w.db, p)
      case None => Fail(w, CallFailed)
      case Some(db) =>
        Next(Written(w, db, c),
             Ended(if c.outcome.Served? then Started(p.id, p.payload, p.stars) else Failed(CallFailed)))
  }

  // ---------- confirm payment ----------

  ghost function ConfirmStep(w: World, r: ConfirmRun, c: Choice): Next {
    match r
    case CheckKey(ev) =>
      if ev.chargeId == "" then Fail(w, EmptyChargeId)
      else if !c.outcome.Served? then Fail(w, CallFailed)
      else if ev.chargeId in w.db.processed then Next(w, Ended(Accepted))
      else Next(w, Confirm(FindPurchase(ev)))
    case FindPurchase(ev) =>
      if !c.outcome.Served? then Fail(w, PurchaseNotFound)
      else (
        match FindByPayload(w.db, ev.payload)
        case None => Fail(w, PurchaseNotFound)
        case Some(p) =>
          match p.MarkPaid(ev.chargeId, c.now)
          case Err(f) => Fail(w, f)
          case Ok(q) => Next(w, Confirm(StorePaid(ev, q))))
    case StorePaid(ev, p) =>
      (match UpdatePurchase(w.db, p)
       case None => Fail(w, CallFailed)
       case Some(db) =>
         Next(Written(w, db, c), if c.outcome.Served? then Confirm(LogEvent(ev, p)) else Ended(Failed(CallFailed))))
    case LogEvent(ev, p) =>
      Next(Written(w, LogPayment(w.db, ev), c),
           if c.outcome.Served? then Confirm(Publish(ev, p)) else Ended(Failed(CallFailed)))
    case Publish(ev, p) =>
      (match AppendEvent(w.db, EventId(c.nano, p.id), p.id)
       case None => Fail(w, CallFailed)
       case Some(db) =>
         Next(Written(w, db, c), if c.outcome.Served? then Confirm(StoreKey(ev, p)) else Ended(Failed(CallFailed))))
    case StoreKey(ev, p) =>
      Next(Written(w, AddKey(w.db, ev.chargeId), c),
           Ended(if c.outcome.Served? then Accepted else Failed(CallFailed)))
  }

  // ---------- issue access, and publishing the outbox event ----------

  function NewGrant(cfg: Config, p: Purchase, raw: string, now: Time, expiresAt: Time): Grant {
    Grant(GrantId(p.id), p.id, p.userId, cfg.hash(raw), now, expiresAt, None)
  }

  function Cached(cfg: Config, w: World, g: Grant, c: Choice): World {
    if !cfg.hasCache || c.cacheOutcome.Refused? then w
    else w.(cache := w.cache[g.tokenHash := g.purchaseId])
  }

  ghost function IssueStep(cfg: Config, w: World, r: IssueRun, c: Choice): Next {
    match r
    case LoadPurchase(e, id) =>
      if !c.outcome.Served? || id !in w.db.purchases then Fail(w, PurchaseNotFound)
      else Next(w, Issue(LoadContent(e, w.db.purchases[id])))
    case LoadContent(e, p) =>
      if !c.outcome.Served? || p.contentId !in w.db.contents then Fail(w, ContentNotFound)
      else if !w.db.contents[p.contentId].CanBePurchased() then Fail(w, ContentInactive)
      else Next(w, Issue(AskProvider(e, p, w.db.contents[p.contentId])))
    case AskProvider(e, p, content) =>
      if c.outcome.Served? then Next(w, Issue(MakeToken(e, p, c.link, c.expiresAt)))
      else Next(w, Issue(StoreFailure(e, p.RegisterFailure(c.message, c.now, cfg.maxRetries))))
    case StoreFailure(e, p) =>
      (match UpdatePurchase(w.db, p)
       case None => Fail(w, CallFailed)
       case Some(db) => Fail(Written(w, db, c), CallFailed))
    case MakeToken(e, p, link, expiresAt) =>
      if !c.outcome.Served? then Fail(w, CallFailed)
      else Next(w, Issue(CreateGrant(e, p, NewGrant(cfg, p, c.raw, c.now, expiresAt), link, c.raw)))
    case CreateGrant(e, p, g, link, raw) =>
      (match InsertGrant(w.db, g)
       case None => Fail(w, CallFailed)
       case Some(db) =>
         Next(Written(w, db, c),
              if c.outcome.Served? then Issue(CacheToken(e, p, g, link, raw)) else Ended(Failed(CallFailed))))
    case CacheToken(e, p, g, link, raw) =>
      (match p.MarkAccessIssued()
       case Err(f) => Fail(Cached(cfg, w, g, c), f)
       case Ok(q) => Next(Cached(cfg, w, g, c), Issue(StoreIssued(e, q, g, link, raw))))
    case StoreIssued(e, p, g, link, raw) =>
      (match UpdatePurchase(w.db, p)
       case None => Fail(w, CallFailed)
       case Some(db) =>
         Next(Written(w, db, c),
              if c.outcome.Served? then Issue(SendLink(e, p, g, link, raw)) else Ended(Failed(CallFailed))))
    case SendLink(e, p, g, link, raw) =>
      Next(w.(sent := w.sent + [Sent(p.id, p.userId, FinalLink(link, raw), raw, c.outcome.Served?)]),
           if c.outcome.Served? then Issue(FlagEvent(e, p)) else Ended(Failed(CallFailed)))
    case FlagEvent(e, p) =>
      Next(Written(w, MarkPublished(w.db, e), c), Ended(Accepted))
  }

  // ---------- use access ----------

  ghost function UseStep(cfg: Config, w: World, r: UseRun, c: Choice): Next {
    match r
    case PeekCache(token) =>
      Next(w, Use(FindGrant(token)))
    case FindGrant(token) =>
      if !c.outcome.Served? then Fail(w, InvalidToken)
      else (
        match FindByHash(w.db, cfg.hash(token))
        case None => Fail(w, InvalidToken)
        case Some(g) =>
          if g.usedAt.Some? then Fail(w, TokenUsed)
          else if c.now > g.expiresAt then Fail(w, TokenExpired)
          else Next(w, Use(MarkGrant(token, g))))
    case MarkGrant(token, g) =>
      Next(Written(w, MarkUsed(w.db, g.id, c.now), c),
           if c.outcome.Served? then Use(ForgetToken(token, g)) else Ended(Failed(CallFailed)))
    case ForgetToken(token, g) =>
      Next(if !cfg.hasCache || c.cacheOutcome.Refused? then w else w.(cache := w.cache - {cfg.hash(token)}),
           Ended(Redeemed(g.purchaseId, g.userId)))
  }

  ghost function RunStep(cfg: Config, w: World, r: Run, c: Choice): Next {
    match r
    case Start(s) => StartStep(w, s, c)
    case Confirm(f) => ConfirmStep(w, f, c)
    case Issue(i) => IssueStep(cfg, w, i, c)
    case Use(u) => UseStep(cfg, w, u, c)
    case Ended(_) => Next(w, r)
  }

  // ---------- many runs at once ----------

  /** One accepted redemption: when its read and its mark took place. */
  datatype Acceptance = Acceptance(grantId: string, readAt: nat, markAt: nat)

  /** Observations about a whole execution; no handler reads them. */
  datatype History = History(
    clock: nat,
    readAt: map<nat, nat>,        // per use run in flight, when it read an unused grant
    failures: seq<string>,        // purchases whose provider failure was stored, in order
    cut: set<string>,             // purchases whose confirm run stopped between its update and its publish
    accepted: seq<Acceptance>)

  datatype Sys = Sys(w: World, runs: map<nat, Run>, h: History)

  datatype Label =
    | Spawn(k: nat, run: Run)
    | Advance(k: nat, choice: Choice)
    | Drop(k: nat)                                       // the run stops between two calls
    | Edit(contentId: string, row: Option<Content>)      // an administrator or the catalog sync
    | Evict(hashes: set<string>)                         // the cache loses entries

  /** What a caller, the bot loop or the scheduler may begin with. */
  ghost predicate Spawnable(w: World, r: Run) {
    match r
    case Start(FindContent(_, _)) => true
    case Confirm(CheckKey(_)) => true
    case Use(PeekCache(_)) => true
    case Issue(LoadPurchase(e, id)) =>
      exists i :: 0 <= i < |w.db.outbox| && w.db.outbox[i].id == e && w.db.outbox[i].purchaseId == id
                  && w.db.outbox[i].kind == CONFIRMED
    case _ => false
  }

  /** The purchase, if any, that a confirm run leaves without an outbox event by stopping here. */
  function CutByDrop(r: Run): set<string> {
    match r
    case Confirm(LogEvent(_, p)) => {p.id}
    case Confirm(Publish(_, p)) => {p.id}
    case _ => {}
  }

  ghost function CutByStep(w: World, r: Run, c: Choice): set<string> {
    match r
    case Confirm(StorePaid(_, p)) =>
      if UpdatePurchase(w.db, p).Some? && c.outcome.Unacknowledged? then {p.id} else {}
    case Confirm(LogEvent(_, p)) => if c.outcome.Served? then {} else {p.id}
    case Confirm(Publish(_, p)) =>
      if AppendEvent(w.db, EventId(c.nano, p.id), p.id).None? || c.outcome.Refused? then {p.id} else {}
    case _ => {}
  }

  ghost function FailureStored(w: World, r: Run, c: Choice): seq<string> {
    match r
    case Issue(StoreFailure(_, p)) =>
      if UpdatePurchase(w.db, p).Some? && !c.outcome.Refused? then [p.id] else []
    case _ => []
  }

  function Record(h: History, k: nat, r: Run, next: Run, failures: seq<string>, cut: set<string>): History {
    var h' := h.(clock := h.clock + 1, failures := h.failures + failures, cut := h.cut + cut);
    match (r, next)
    case (Use(FindGrant(_)), Use(MarkGrant(_, _))) => h'.(readAt := h.readAt[k := h.clock])
    case (Use(MarkGrant(_, g)), Use(ForgetToken(_, _))) =>
      h'.(accepted := h.accepted + [Acceptance(g.id, if k in h.readAt then h.readAt[k] else h.clock, h.clock)])
    case _ => h'
  }

  /** A label that is not enabled changes nothing, so every list of labels is an execution. */
  ghost function Step(cfg: Config, s: Sys, l: Label): Sys {
    match l
    case Spawn(k, r) =>
      if k !in s.runs && Spawnable(s.w, r) then s.(runs := s.runs[k := r]) else s
    case Advance(k, c) =>
      if k !in s.runs then s
      else
        var r := s.runs[k];
        var n := RunStep(cfg, s.w, r, c);
        Sys(n.w, s.runs[k := n.run], Record(s.h, k, r, n.run, FailureStored(s.w, r, c), CutByStep(s.w, r, c)))
    case Drop(k) =>
      if k !in s.runs then s
      else s.(runs := s.runs - {k}, h := s.h.(cut := s.h.cut + CutByDrop(s.runs[k])))
    case Edit(id, row) => s.(w := s.w.(db := EditContent(s.w.db, id, row)))
    case Evict(hashes) => s.(w := s.w.(cache := s.w.cache - hashes))
  }

  ghost function Exec(cfg: Config, s: Sys, ls: seq<Label>): Sys
    decreases |ls|
  {
    if ls == [] then s else Exec(cfg, Step(cfg, s, ls[0]), ls[1..])
  }

  /** Empty tables, apart from a catalog that meets the schema. */
  predicate Initial(s: Sys) {
    && s.w.db.purchases == map[] && s.w.db.grants == map[] && s.w.db.payments == map[]
    && s.w.db.processed == {} && s.w.db.outbox == []
    && (forall id | id in s.w.db.contents :: s.w.db.contents[id].id == id && s.w.db.contents[id].price > 0)
    && s.w.cache == map[] && s.w.sent == [] && s.runs == map[]
    && s.h == History(0, map[], [], {}, [])
  }

  lemma {:induction false} ExecConcat(cfg: Config, s: Sys, a: seq<Label>, b: seq<Label>)
    ensures Exec(cfg, s, a + b) == Exec(cfg, Exec(cfg, s, a), b)
    decreases |a|
  {
    if a == [] {
      assert a + b == b;
    } else {
      assert (a + b)[1..] == a[1..] + b;
      ExecConcat(cfg, Step(cfg, s, a[0]), a[1..], b);
    }
  }

  // ---------- one run from beginning to end ----------

  function CallsLeft(r: Run): nat {
    match r
    case Start(s) => (match s case FindContent(_, _) => 3 case MakeId(_, _, _) => 2 case Insert(_) => 1)
    case Confirm(f) =>
      (match f
       case CheckKey(_) => 6
       case FindPurchase(_) => 5
       case StorePaid(_, _) => 4
       case LogEvent(_, _) => 3
       case Publish(_, _) => 2
       case StoreKey(_, _) => 1)
    case Issue(i) =>
      (match i
       case LoadPurchase(_, _) => 9
       case LoadContent(_, _) => 8
       case AskProvider(_, _, _) => 7
       case StoreFailure(_, _) => 1
       case MakeToken(_, _, _, _) => 6
       case CreateGrant(_, _, _, _, _) => 5
       case CacheToken(_, _, _, _, _) => 4
       case StoreIssued(_, _, _, _, _) => 3
       case SendLink(_, _, _, _, _) => 2
       case FlagEvent(_, _) => 1)
    case Use(u) =>
      (match u case PeekCache(_) => 4 case FindGrant(_) => 3 case MarkGrant(_, _) => 2 case ForgetToken(_, _) => 1)
    case Ended(_) => 0
  }

  lemma CallsDescend(cfg: Config, w: World, r: Run, c: Choice)
    requires !r.Ended?
    ensures CallsLeft(RunStep(cfg, w, r, c).run) < CallsLeft(r)
  {
  }

  /** The handler has returned. For an issue run what is left is the outbox processor's own call. */
  predicate Returned(r: Run) {
    r.Ended? || (r.Issue? && r.issue.FlagEvent?)
  }

  /** What a handler makes of the tables when it runs alone: plan(i) decides its i-th call. */
  ghost function Drive(cfg: Config, w: World, r: Run, plan: nat -> Choice, i: nat): Next
    decreases CallsLeft(r)
  {
    if Returned(r) then Next(w, r)
    else
      CallsDescend(cfg, w, r, plan(i));
      var n := RunStep(cfg, w, r, plan(i));
      Drive(cfg, n.w, n.run, plan, i + 1)
  }
}
