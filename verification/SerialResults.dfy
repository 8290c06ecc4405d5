/** The guarantees of serial execution with faults, between any two commands. */
module SerialResults {
  import opened Domain
  import opened Tables
  import opened Protocol
  import opened Invariants
  import opened Delivery
  import opened Orderly
  import opened OrderlyResults
  import opened Redemption
  import opened Serial
  import opened Redelivery
  import opened LostPayments

  /** A serial execution is an orderly one, so its tables are in the order that orderly executions keep;
      and between commands a paid purchase lacks its outbox event exactly when one of the deliveries served,
      by its plan, carried out its update but not its publish. The history of the execution says the same. */
  lemma SerialTables(cfg: Config, s: Sys, cmds: seq<Command>) returns (ls: seq<Label>)
    requires Initial(s)
    ensures var w := ServeAll(cfg, s.w, cmds);
            && Realizes(cfg, s, ls, w, map[])
            && WorldOk(cfg, w) && TablesX(w) && SentOnce(w.sent)
            && (forall id :: Lost(w.db, id) <==> id in CutByAll(cfg, s.w, cmds))
            && Exec(cfg, s, ls).h.cut == CutByAll(cfg, s.w, cmds)
  {
    InitialOrderly(cfg, s);
    ls := ServeAllIsOrderly(cfg, s, cmds);
    var t := Exec(cfg, s, ls);
    ExecOrderly(cfg, s, ls);
    ExecCut(cfg, s, ls);
    InitialSound(cfg, s);
    forall id
      ensures Lost(t.w.db, id) <==> id in CutByAll(cfg, s.w, cmds)
      ensures Lost(t.w.db, id) <==> id in t.h.cut
    {
      LostExactlyByPlans(cfg, s.w, cmds, id);
      assert id in t.h.cut <==> Stranded(t, id);
    }
  }

  lemma {:induction false} ServeAllKeeps(cfg: Config, w: World, cmds: seq<Command>)
    requires Sound(cfg, w)
    ensures Sound(cfg, ServeAll(cfg, w, cmds)) && Kept(w, ServeAll(cfg, w, cmds))
    decreases |cmds|
  {
    if cmds == [] {
      KeptReflexive(w);
    } else {
      var v := Serve(cfg, w, cmds[0]);
      ServeSound(cfg, w, cmds[0]);
      ServeAllKeeps(cfg, v, cmds[1..]);
      KeptTransitive(w, v, ServeAll(cfg, v, cmds[1..]));
    }
  }

  // ---------- redelivered payments ----------

  lemma SoundReachable(cfg: Config, s: Sys, cmds: seq<Command>)
    requires Initial(s)
    ensures Sound(cfg, ServeAll(cfg, s.w, cmds))
  {
    InitialSound(cfg, s);
    ServeAllKeeps(cfg, s.w, cmds);
  }

  /** From empty tables on: after one delivery that had any effect, or was answered with success, however many
      calls of it failed, removing every redelivery of the payment leads to the same final tables. */
  lemma PaymentDeliveredOnce(cfg: Config, s: Sys, early: seq<Command>, ev: Event, plan: Plan, late: seq<Command>)
    requires Initial(s)
    requires var w := ServeAll(cfg, s.w, early);
             var d := Drive(cfg, w, Confirm(CheckKey(ev)), plan, 0);
             d.w != w || d.run == Ended(Accepted)
    ensures var v := Serve(cfg, ServeAll(cfg, s.w, early), ConfirmPayment(ev, plan));
            ServeAll(cfg, v, late) == ServeAll(cfg, v, WithoutRedeliveries(late, ev))
  {
    SoundReachable(cfg, s, early);
    OneDeliveryEnough(cfg, ServeAll(cfg, s.w, early), ev, plan, late);
  }

  // ---------- each token is accepted at most once ----------

  ghost predicate TokenSpent(cfg: Config, db: Db, token: string) {
    exists id :: Used(db, id) && db.grants[id].tokenHash == cfg.hash(token)
  }

  lemma SpentRefused(cfg: Config, w: World, token: string, plan: Plan)
    requires HashesUnique(w.db) && TokenSpent(cfg, w.db, token)
    ensures Drive(cfg, w, Use(PeekCache(token)), plan, 0).run in {Ended(Failed(TokenUsed)), Ended(Failed(InvalidToken))}
  {
    var id :| Used(w.db, id) && w.db.grants[id].tokenHash == cfg.hash(token);
    GrantFound(w.db, id);
    var r := Use(FindGrant(token));
    assert Drive(cfg, w, Use(PeekCache(token)), plan, 0) == Drive(cfg, w, r, plan, 1);
    var n := UseStep(cfg, w, FindGrant(token), plan(1));
    assert Drive(cfg, w, r, plan, 1) == Drive(cfg, n.w, n.run, plan, 2);
  }

  /** An accepted redemption has marked the grant of its token. */
  lemma RedeemedSpends(cfg: Config, w: World, token: string, plan: Plan)
    requires GrantsOk(w.db)
    requires var d := Drive(cfg, w, Use(PeekCache(token)), plan, 0); d.run.Ended? && d.run.reply.Redeemed?
    ensures TokenSpent(cfg, Drive(cfg, w, Use(PeekCache(token)), plan, 0).w.db, token)
  {
    var r := Use(FindGrant(token));
    assert Drive(cfg, w, Use(PeekCache(token)), plan, 0) == Drive(cfg, w, r, plan, 1);
    var n := UseStep(cfg, w, FindGrant(token), plan(1));
    assert Drive(cfg, w, r, plan, 1) == Drive(cfg, n.w, n.run, plan, 2);
    if n.run.Use? {
      FindByHashOk(w.db, cfg.hash(token));
      var g := n.run.use.grant;
      var m := UseStep(cfg, w, MarkGrant(token, g), plan(2));
      assert Drive(cfg, n.w, n.run, plan, 2) == Drive(cfg, m.w, m.run, plan, 3);
      if m.run.Use? {
        var l := UseStep(cfg, m.w, ForgetToken(token, g), plan(3));
        assert Drive(cfg, m.w, m.run, plan, 3) == Drive(cfg, l.w, l.run, plan, 4);
        assert Used(l.w.db, g.id);
      }
    }
  }

  /** In serial execution each token is accepted at most once: after one accepted redemption, and
      whatever is served next, the token is refused. */
  lemma AcceptedOnceSerially(cfg: Config, w: World, token: string, plan: Plan, cmds: seq<Command>, again: Plan)
    requires Sound(cfg, w)
    requires var d := Drive(cfg, w, Use(PeekCache(token)), plan, 0); d.run.Ended? && d.run.reply.Redeemed?
    ensures var v := ServeAll(cfg, Drive(cfg, w, Use(PeekCache(token)), plan, 0).w, cmds);
            Drive(cfg, v, Use(PeekCache(token)), again, 0).run
            in {Ended(Failed(TokenUsed)), Ended(Failed(InvalidToken))}
  {
    var u := Drive(cfg, w, Use(PeekCache(token)), plan, 0).w;
    var v := ServeAll(cfg, u, cmds);
    ServeSound(cfg, w, UseAccess(token, plan));
    ServeAllKeeps(cfg, u, cmds);
    RedeemedSpends(cfg, w, token, plan);
    var id :| Used(u.db, id) && u.db.grants[id].tokenHash == cfg.hash(token);
    UsedKept(u.db, v.db, id);
    assert HashesUnique(v.db);
    SpentRefused(cfg, v, token, again);
  }
}
