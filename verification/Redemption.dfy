/** One-time redemption of tokens: what the read-then-mark handler guarantees when redemptions
    race, and what it guarantees when a token is redeemed by one run at a time. */
module Redemption {
  import opened Text
  import opened Domain
  import opened Tables
  import opened Protocol
  import opened Invariants

  predicate Marking(r: Run) {
    r.Use? && r.use.MarkGrant?
  }

  predicate Used(db: Db, grantId: string) {
    grantId in db.grants && db.grants[grantId].usedAt.Some?
  }

  ghost predicate ReadsTimed(s: Sys) {
    forall k | k in s.runs && Marking(s.runs[k]) :: k in s.h.readAt && s.h.readAt[k] < s.h.clock
  }

  ghost predicate AcceptedTimed(s: Sys) {
    forall i | 0 <= i < |s.h.accepted| ::
      s.h.accepted[i].readAt < s.h.accepted[i].markAt < s.h.clock && Used(s.w.db, s.h.accepted[i].grantId)
  }

  /** A run still holding an unused copy of the grant read it before any accepted mark. */
  ghost predicate ReadsBeforeMarks(s: Sys) {
    forall i, k | 0 <= i < |s.h.accepted| && k in s.runs && Marking(s.runs[k])
                  && s.runs[k].use.grant.id == s.h.accepted[i].grantId && k in s.h.readAt ::
      s.h.readAt[k] < s.h.accepted[i].markAt
  }

  /** Accepted redemptions of one grant pairwise overlap in time. */
  ghost predicate Overlapping(accepted: seq<Acceptance>) {
    forall i, j | 0 <= i < |accepted| && 0 <= j < |accepted| && accepted[i].grantId == accepted[j].grantId ::
      accepted[i].readAt < accepted[j].markAt
  }

  ghost predicate RedemptionsOk(s: Sys) {
    ReadsTimed(s) && AcceptedTimed(s) && ReadsBeforeMarks(s) && Overlapping(s.h.accepted)
  }

  lemma UsedKept(a: Db, b: Db, id: string)
    requires GrantsKept(a, b) && Used(a, id)
    ensures Used(b, id) && b.grants[id] == a.grants[id]
  {
  }

  /** A run starts marking only a grant that is unused at that very moment. */
  lemma StartsMarking(cfg: Config, w: World, r: Run, c: Choice)
    requires GrantsOk(w.db) && Marking(RunStep(cfg, w, r, c).run)
    ensures r.Use? && r.use.FindGrant?
    ensures !Used(w.db, RunStep(cfg, w, r, c).run.use.grant.id)
  {
    FindByHashOk(w.db, cfg.hash(r.use.token));
  }

  lemma MarksUsed(cfg: Config, w: World, r: Run, c: Choice)
    requires RunOk(cfg, w.db, r) && Marking(r)
    ensures var n := RunStep(cfg, w, r, c);
            !Marking(n.run)
            && (n.run.Use? && n.run.use.ForgetToken? ==> Used(n.w.db, r.use.grant.id) && n.run.use.grant == r.use.grant)
  {
  }

  /** What the history records for a step of run k that leaves it at next. */
  ghost predicate Recorded(s: Sys, k: nat, next: Run, t: Sys) {
    && k in s.runs && t.runs == s.runs[k := next] && t.h.clock == s.h.clock + 1 && GrantsKept(s.w.db, t.w.db)
    && t.h.readAt == (if Marking(next) then s.h.readAt[k := s.h.clock] else s.h.readAt)
    && (t.h.accepted == s.h.accepted
        || (Marking(s.runs[k]) && k in s.h.readAt && Used(t.w.db, s.runs[k].use.grant.id)
            && t.h.accepted == s.h.accepted + [Acceptance(s.runs[k].use.grant.id, s.h.readAt[k], s.h.clock)]))
    && (Marking(next) ==> !Marking(s.runs[k]) && !Used(s.w.db, next.use.grant.id))
  }

  lemma AdvanceKeepsGrants(cfg: Config, w: World, r: Run, c: Choice)
    requires WorldOk(cfg, w) && RunOk(cfg, w.db, r)
    ensures GrantsKept(w.db, RunStep(cfg, w, r, c).w.db)
  {
    RunAdvances(cfg, w, r, c);
  }

  lemma MarkRecorded(cfg: Config, s: Sys, k: nat, c: Choice)
    requires k in s.runs && RunOk(cfg, s.w.db, s.runs[k]) && ReadsTimed(s) && Marking(s.runs[k])
    requires GrantsKept(s.w.db, RunStep(cfg, s.w, s.runs[k], c).w.db)
    ensures Recorded(s, k, RunStep(cfg, s.w, s.runs[k], c).run, Step(cfg, s, Advance(k, c))) == true
  {
    MarksUsed(cfg, s.w, s.runs[k], c);
  }

  lemma OtherRecorded(cfg: Config, s: Sys, k: nat, c: Choice)
    requires GrantsOk(s.w.db) && k in s.runs && !Marking(s.runs[k])
    requires GrantsKept(s.w.db, RunStep(cfg, s.w, s.runs[k], c).w.db)
    ensures Recorded(s, k, RunStep(cfg, s.w, s.runs[k], c).run, Step(cfg, s, Advance(k, c))) == true
  {
    if Marking(RunStep(cfg, s.w, s.runs[k], c).run) {
      StartsMarking(cfg, s.w, s.runs[k], c);
    }
  }

  lemma AdvanceRecorded(cfg: Config, s: Sys, k: nat, c: Choice)
    requires WorldOk(cfg, s.w) && k in s.runs && RunOk(cfg, s.w.db, s.runs[k]) && ReadsTimed(s)
    ensures Recorded(s, k, RunStep(cfg, s.w, s.runs[k], c).run, Step(cfg, s, Advance(k, c))) == true
  {
    AdvanceKeepsGrants(cfg, s.w, s.runs[k], c);
    if Marking(s.runs[k]) {
      MarkRecorded(cfg, s, k, c);
    } else {
      OtherRecorded(cfg, s, k, c);
    }
  }

  lemma AcceptedStillUsed(s: Sys, k: nat, next: Run, t: Sys)
    requires RedemptionsOk(s) && Recorded(s, k, next, t)
    ensures ReadsTimed(t) && AcceptedTimed(t) && Overlapping(t.h.accepted)
  {
    forall i | 0 <= i < |s.h.accepted|
      ensures Used(t.w.db, s.h.accepted[i].grantId)
    {
      UsedKept(s.w.db, t.w.db, s.h.accepted[i].grantId);
    }
  }

  lemma NoLateReader(s: Sys, k: nat, next: Run, t: Sys)
    requires RedemptionsOk(s) && Recorded(s, k, next, t)
    ensures ReadsBeforeMarks(t)
  {
    forall i, j | 0 <= i < |t.h.accepted| && j in t.runs && Marking(t.runs[j])
                  && t.runs[j].use.grant.id == t.h.accepted[i].grantId && j in t.h.readAt
      ensures t.h.readAt[j] < t.h.accepted[i].markAt
    {
      if i < |s.h.accepted| {
        assert t.h.accepted[i] == s.h.accepted[i];
      }
    }
  }

  lemma AdvanceRedemptions(cfg: Config, s: Sys, k: nat, c: Choice)
    requires WorldOk(cfg, s.w) && k in s.runs && RunOk(cfg, s.w.db, s.runs[k]) && RedemptionsOk(s)
    ensures RedemptionsOk(Step(cfg, s, Advance(k, c)))
  {
    var t := Step(cfg, s, Advance(k, c));
    var next := RunStep(cfg, s.w, s.runs[k], c).run;
    AdvanceRecorded(cfg, s, k, c);
    AcceptedStillUsed(s, k, next, t);
    NoLateReader(s, k, next, t);
  }

  lemma OtherRedemptions(cfg: Config, s: Sys, l: Label)
    requires RedemptionsOk(s) && !l.Advance?
    ensures RedemptionsOk(Step(cfg, s, l))
  {
  }

  lemma StepRedemptions(cfg: Config, s: Sys, l: Label)
    requires BaseOk(cfg, s) && RedemptionsOk(s)
    ensures RedemptionsOk(Step(cfg, s, l))
  {
    if !l.Advance? {
      OtherRedemptions(cfg, s, l);
    } else if l.k in s.runs {
      AdvanceRedemptions(cfg, s, l.k, l.choice);
    }
  }

  lemma {:induction false} ExecRedemptions(cfg: Config, s: Sys, ls: seq<Label>)
    requires BaseOk(cfg, s) && RedemptionsOk(s)
    ensures RedemptionsOk(Exec(cfg, s, ls))
    decreases |ls|
  {
    if ls != [] {
      StepRedemptions(cfg, s, ls[0]);
      StepKeeps(cfg, s, ls[0]);
      ExecRedemptions(cfg, Step(cfg, s, ls[0]), ls[1..]);
    }
  }

  /** However redemptions race: any two accepted redemptions of a token overlap in time. */
  lemma AcceptedOverlap(cfg: Config, s: Sys, ls: seq<Label>)
    requires Initial(s)
    ensures Overlapping(Exec(cfg, s, ls).h.accepted)
  {
    ExecRedemptions(cfg, s, ls);
  }

  /** Once a grant is marked, used_at never changes, and every later redemption that can read the
      table is told that the token was used. */
  lemma UsedStaysUsed(cfg: Config, s: Sys, early: seq<Label>, late: seq<Label>, id: string, token: string, c: Choice)
    requires Initial(s) && Used(Exec(cfg, s, early).w.db, id) && c.outcome.Served?
    requires Exec(cfg, s, early).w.db.grants[id].tokenHash == cfg.hash(token)
    ensures var a := Exec(cfg, s, early).w; var b := Exec(cfg, Exec(cfg, s, early), late).w;
            id in b.db.grants && b.db.grants[id] == a.db.grants[id]
            && UseStep(cfg, b, FindGrant(token), c) == Next(b, Ended(Failed(TokenUsed)))
  {
    Reachable(cfg, s, early);
    ExecKeeps(cfg, Exec(cfg, s, early), late);
    var b := Exec(cfg, Exec(cfg, s, early), late).w;
    UsedKept(Exec(cfg, s, early).w.db, b.db, id);
    GrantFound(b.db, id);
  }

  lemma GrantFound(db: Db, id: string)
    requires HashesUnique(db) && id in db.grants
    ensures FindByHash(db, db.grants[id].tokenHash) == Some(db.grants[id])
  {
  }

  // ---------- one redemption of a token at a time ----------

  predicate Redeems(cfg: Config, r: Run, hash: string) {
    r.Use? && cfg.hash(r.use.token) == hash
  }

  predicate WaitsItsTurn(cfg: Config, s: Sys, l: Label) {
    match l
    case Spawn(_, Use(PeekCache(token))) => forall j | j in s.runs :: !Redeems(cfg, s.runs[j], cfg.hash(token))
    case _ => true
  }

  ghost predicate TakesTurns(cfg: Config, s: Sys, ls: seq<Label>)
    decreases |ls|
  {
    ls == [] || (WaitsItsTurn(cfg, s, ls[0]) && TakesTurns(cfg, Step(cfg, s, ls[0]), ls[1..]))
  }

  ghost predicate OneRedeemer(cfg: Config, s: Sys) {
    forall a, b | a in s.runs && b in s.runs && s.runs[a].Use? && s.runs[b].Use?
                  && cfg.hash(s.runs[a].use.token) == cfg.hash(s.runs[b].use.token) :: a == b
  }

  ghost predicate AcceptedOnce(s: Sys) {
    && (forall i, j | 0 <= i < |s.h.accepted| && 0 <= j < |s.h.accepted|
                      && s.h.accepted[i].grantId == s.h.accepted[j].grantId :: i == j)
    && (forall i, k | 0 <= i < |s.h.accepted| && k in s.runs && Marking(s.runs[k]) ::
          s.runs[k].use.grant.id != s.h.accepted[i].grantId)
  }

  lemma TokenKept(cfg: Config, w: World, r: Run, c: Choice)
    ensures var n := RunStep(cfg, w, r, c).run; n.Use? ==> r.Use? && n.use.token == r.use.token
  {
  }

  /** Two runs that hold the same grant redeem tokens of the same hash. */
  lemma SameGrantSameHash(cfg: Config, db: Db, r: Run, q: Run)
    requires RunOk(cfg, db, r) && RunOk(cfg, db, q) && Marking(r) && Marking(q) && r.use.grant.id == q.use.grant.id
    ensures cfg.hash(r.use.token) == cfg.hash(q.use.token)
  {
  }

  lemma AdvanceTurn(cfg: Config, s: Sys, k: nat, next: Run, t: Sys)
    requires RunsOk(cfg, s) && AcceptedTimed(s) && OneRedeemer(cfg, s) && AcceptedOnce(s) && Recorded(s, k, next, t)
    ensures AcceptedOnce(t)
  {
    var r := s.runs[k];
    if Marking(r) {
      forall j | j in s.runs && j != k && Marking(s.runs[j])
        ensures s.runs[j].use.grant.id != r.use.grant.id
      {
        if s.runs[j].use.grant.id == r.use.grant.id {
          SameGrantSameHash(cfg, s.w.db, r, s.runs[j]);
        }
      }
    }
  }

  lemma StepRedeemer(cfg: Config, s: Sys, l: Label)
    requires OneRedeemer(cfg, s) && WaitsItsTurn(cfg, s, l)
    ensures OneRedeemer(cfg, Step(cfg, s, l))
  {
    if l.Advance? && l.k in s.runs {
      TokenKept(cfg, s.w, s.runs[l.k], l.choice);
    }
  }

  lemma StepTurn(cfg: Config, s: Sys, l: Label)
    requires BaseOk(cfg, s) && RedemptionsOk(s) && OneRedeemer(cfg, s) && AcceptedOnce(s)
    ensures AcceptedOnce(Step(cfg, s, l)) == true
  {
    if l.Advance? && l.k in s.runs {
      RecordedTurn(cfg, s, l.k, l.choice);
    }
  }

  lemma RecordedTurn(cfg: Config, s: Sys, k: nat, c: Choice)
    requires WorldOk(cfg, s.w) && RunsOk(cfg, s) && k in s.runs && ReadsTimed(s) && AcceptedTimed(s)
    requires OneRedeemer(cfg, s) && AcceptedOnce(s)
    ensures AcceptedOnce(Step(cfg, s, Advance(k, c))) == true
  {
    AdvanceRecorded(cfg, s, k, c);
    AdvanceTurn(cfg, s, k, RunStep(cfg, s.w, s.runs[k], c).run, Step(cfg, s, Advance(k, c)));
  }

  lemma {:induction false} ExecTurns(cfg: Config, s: Sys, ls: seq<Label>)
    requires BaseOk(cfg, s) && RedemptionsOk(s) && OneRedeemer(cfg, s) && AcceptedOnce(s) && TakesTurns(cfg, s, ls)
    ensures AcceptedOnce(Exec(cfg, s, ls))
    decreases |ls|
  {
    if ls != [] {
      StepRedeemer(cfg, s, ls[0]);
      StepTurn(cfg, s, ls[0]);
      StepRedemptions(cfg, s, ls[0]);
      StepKeeps(cfg, s, ls[0]);
      ExecTurns(cfg, Step(cfg, s, ls[0]), ls[1..]);
    }
  }

  /** When redemptions of one token take turns, each token is accepted at most once. */
  lemma EachTokenOnce(cfg: Config, s: Sys, ls: seq<Label>, i: nat, j: nat)
    requires Initial(s) && TakesTurns(cfg, s, ls)
    requires i < |Exec(cfg, s, ls).h.accepted| && j < |Exec(cfg, s, ls).h.accepted|
    requires Exec(cfg, s, ls).h.accepted[i].grantId == Exec(cfg, s, ls).h.accepted[j].grantId
    ensures i == j
  {
    ExecTurns(cfg, s, ls);
  }

  // ---------- from the link to the purchase ----------

  /** The redemption handler accepts what IsUsable accepts, and also the very instant of expiry. */
  lemma AcceptsUsableOrAtExpiry(cfg: Config, w: World, token: string, c: Choice)
    requires FindByHash(w.db, cfg.hash(token)).Some? && c.outcome.Served?
    ensures var g := FindByHash(w.db, cfg.hash(token)).value;
            UseStep(cfg, w, FindGrant(token), c).run == Use(MarkGrant(token, g))
            <==> g.IsUsable(c.now) || (g.usedAt.None? && c.now == g.expiresAt)
    ensures var g := FindByHash(w.db, cfg.hash(token)).value; !g.IsUsable(g.expiresAt)
  {
  }

  /** Every link ever sent ends in its raw token, which leads back to exactly the purchase and user it was sent for.
      With all calls served, the redemption succeeds if and only if the grant is unused and not yet
      past its expiry, whatever other purchases, grants and redemptions happened in between. */
  lemma SentTokenRedeems(cfg: Config, s: Sys, early: seq<Label>, late: seq<Label>, i: nat, plan: nat -> Choice)
    requires Initial(s) && i < |Exec(cfg, s, early).w.sent|
    requires forall j: nat :: plan(j).outcome.Served?
    ensures var m := Exec(cfg, s, early).w.sent[i];
            var b := Exec(cfg, Exec(cfg, s, early), late).w;
            var g := GrantId(m.purchaseId);
            var reply := Drive(cfg, b, Use(PeekCache(m.raw)), plan, 0).run;
            && EndsWith(m.link, "?token=" + m.raw)
            && g in b.db.grants && m.purchaseId in b.db.purchases && b.db.purchases[m.purchaseId].userId == m.userId
            && reply == Ended(if b.db.grants[g].usedAt.Some? then Failed(TokenUsed)
                              else if plan(1).now > b.db.grants[g].expiresAt then Failed(TokenExpired)
                              else Redeemed(m.purchaseId, m.userId))
  {
    Reachable(cfg, s, early);
    ExecKeeps(cfg, Exec(cfg, s, early), late);
    var b := Exec(cfg, Exec(cfg, s, early), late).w;
    var m := Exec(cfg, s, early).w.sent[i];
    assert b.sent[i] == m;
    RedeemSent(cfg, b, i, plan);
  }

  lemma RedeemSent(cfg: Config, w: World, i: nat, plan: nat -> Choice)
    requires GrantsOk(w.db) && HashesUnique(w.db) && SendsOk(cfg, w) && i < |w.sent|
    requires forall j: nat :: plan(j).outcome.Served?
    ensures var m := w.sent[i]; var g := GrantId(m.purchaseId);
            var reply := Drive(cfg, w, Use(PeekCache(m.raw)), plan, 0).run;
            && EndsWith(m.link, "?token=" + m.raw)
            && g in w.db.grants && m.purchaseId in w.db.purchases && w.db.purchases[m.purchaseId].userId == m.userId
            && reply == Ended(if w.db.grants[g].usedAt.Some? then Failed(TokenUsed)
                              else if plan(1).now > w.db.grants[g].expiresAt then Failed(TokenExpired)
                              else Redeemed(m.purchaseId, m.userId))
  {
    var m := w.sent[i];
    assert SendOk(cfg, w.db, m);
    var g := w.db.grants[GrantId(m.purchaseId)];
    GrantIdInjective(g.purchaseId, m.purchaseId);
    GrantFound(w.db, GrantId(m.purchaseId));
    DriveUse(cfg, w, m.raw, g, plan);
  }

  lemma DriveUse(cfg: Config, w: World, token: string, g: Grant, plan: nat -> Choice)
    requires FindByHash(w.db, cfg.hash(token)) == Some(g)
    requires forall j: nat :: plan(j).outcome.Served?
    ensures Drive(cfg, w, Use(PeekCache(token)), plan, 0).run
            == Ended(if g.usedAt.Some? then Failed(TokenUsed)
                     else if plan(1).now > g.expiresAt then Failed(TokenExpired)
                     else Redeemed(g.purchaseId, g.userId))
  {
    var r1 := Use(FindGrant(token));
    assert Drive(cfg, w, Use(PeekCache(token)), plan, 0) == Drive(cfg, w, r1, plan, 1);
    var n := UseStep(cfg, w, FindGrant(token), plan(1));
    assert Drive(cfg, w, r1, plan, 1) == Drive(cfg, n.w, n.run, plan, 2);
    if n.run.Use? {
      var n2 := UseStep(cfg, n.w, MarkGrant(token, g), plan(2));
      assert Drive(cfg, n.w, n.run, plan, 2) == Drive(cfg, n2.w, n2.run, plan, 3);
      var n3 := UseStep(cfg, n2.w, ForgetToken(token, g), plan(3));
      assert Drive(cfg, n2.w, n2.run, plan, 3) == Drive(cfg, n3.w, n3.run, plan, 4);
    }
  }
}
