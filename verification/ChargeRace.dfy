/** When a purchase keeps the charge it was paid with, in the interleaved system. */
module ChargeRace {
  import opened Tables
  import opened Protocol
  import opened Invariants
  import opened Effects
  import opened Orderly
  import opened StatusMachine

  /** Every paid row keeps its charge and its payment time. */
  ghost predicate PaymentsStay(a: Db, b: Db) {
    forall id | Settled(a, id) :: id in b.purchases && SamePayment(b.purchases[id], a.purchases[id])
  }

  /** The run is about to write a paid row with another charge or payment time than it has. */
  predicate Rewrites(db: Db, r: Run) {
    && RowToWrite(r).Some? && !r.Start?
    && var p := RowToWrite(r).value; Settled(db, p.id) && !SamePayment(p, db.purchases[p.id])
  }

  /** Such a write that the table accepts. */
  ghost predicate Rewrite(s: Sys, l: Label) {
    l.Advance? && l.k in s.runs && Rewrites(s.w.db, s.runs[l.k])
    && !l.choice.outcome.Refused? && FitsAmong(s.w.db, RowToWrite(s.runs[l.k]).value)
  }

  lemma WriterPayments(cfg: Config, w: World, r: Run, c: Choice)
    requires RunOk(cfg, w.db, r) && RowToWrite(r).Some? && !r.Start?
    requires !c.outcome.Refused? && FitsAmong(w.db, RowToWrite(r).value)
    ensures PaymentsStay(w.db, RunStep(cfg, w, r, c).w.db) <==> !Rewrites(w.db, r)
  {
    var p := RowToWrite(r).value;
    assert RunStep(cfg, w, r, c).w.db.purchases == w.db.purchases[p.id := p];
  }

  lemma SilentPayments(cfg: Config, w: World, r: Run, c: Choice)
    requires RunOk(cfg, w.db, r)
    requires RowToWrite(r).None? || r.Start? || c.outcome.Refused? || !FitsAmong(w.db, RowToWrite(r).value)
    ensures PaymentsStay(w.db, RunStep(cfg, w, r, c).w.db)
  {
    StepEffect(cfg, w, r, c);
    assert RowEffect(w.db, r, RunStep(cfg, w, r, c).w.db);
  }

  lemma StepPaymentsExactly(cfg: Config, s: Sys, l: Label)
    requires RunsOk(cfg, s)
    ensures PaymentsStay(s.w.db, Step(cfg, s, l).w.db) <==> !Rewrite(s, l)
  {
    if l.Advance? && l.k in s.runs {
      var r, c := s.runs[l.k], l.choice;
      assert RunOk(cfg, s.w.db, r);
      if RowToWrite(r).None? || r.Start? || c.outcome.Refused? || !FitsAmong(s.w.db, RowToWrite(r).value) {
        SilentPayments(cfg, s.w, r, c);
      } else {
        WriterPayments(cfg, s.w, r, c);
      }
    }
  }

  ghost predicate AlwaysStay(cfg: Config, s: Sys, ls: seq<Label>)
    decreases |ls|
  {
    ls == [] || (PaymentsStay(s.w.db, Step(cfg, s, ls[0]).w.db) && AlwaysStay(cfg, Step(cfg, s, ls[0]), ls[1..]))
  }

  ghost predicate NeverRewrites(cfg: Config, s: Sys, ls: seq<Label>)
    decreases |ls|
  {
    ls == [] || (!Rewrite(s, ls[0]) && NeverRewrites(cfg, Step(cfg, s, ls[0]), ls[1..]))
  }

  /** With any runs in flight: every paid row keeps its charge and payment time throughout an execution if and
      only if no write that the table accepts hits a paid row from a copy with another charge or payment time. */
  lemma {:induction false} ChargesStayExactly(cfg: Config, s: Sys, ls: seq<Label>)
    requires BaseOk(cfg, s)
    ensures AlwaysStay(cfg, s, ls) <==> NeverRewrites(cfg, s, ls)
    decreases |ls|
  {
    if ls != [] {
      StepPaymentsExactly(cfg, s, ls[0]);
      StepKeeps(cfg, s, ls[0]);
      ChargesStayExactly(cfg, Step(cfg, s, ls[0]), ls[1..]);
    }
  }

  lemma MovesPayments(a: Db, b: Db)
    requires RowsMove(a, b)
    ensures PaymentsStay(a, b)
  {
  }

  /** One worker and one confirmation per payload at a time are enough. */
  lemma {:induction false} OrderlyNeverRewrites(cfg: Config, s: Sys, ls: seq<Label>)
    requires OrderlyOk(cfg, s) && IsOrderly(cfg, s, ls)
    ensures NeverRewrites(cfg, s, ls)
    decreases |ls|
  {
    if ls != [] {
      StepOrderly(cfg, s, ls[0]);
      MovesPayments(s.w.db, Step(cfg, s, ls[0]).w.db);
      StepPaymentsExactly(cfg, s, ls[0]);
      OrderlyNeverRewrites(cfg, Step(cfg, s, ls[0]), ls[1..]);
    }
  }

  /** A rewrite comes from others only: after this run loaded the row it was paid for, or paid for anew. */
  lemma RewritesSinceLoad(cfg: Config, s: Sys, k: nat, c: Choice, ls: seq<Label>)
    requires BaseOk(cfg, s) && k in s.runs && Loading(s.runs[k]) && Drop(k) !in ls
    requires var t := Exec(cfg, Step(cfg, s, Advance(k, c)), ls); k in t.runs && Rewrites(t.w.db, t.runs[k])
    ensures var t := Exec(cfg, Step(cfg, s, Advance(k, c)), ls);
            var id := RowToWrite(t.runs[k]).value.id;
            && id in s.w.db.purchases && Settled(t.w.db, id)
            && (!Settled(s.w.db, id) || !SamePayment(t.w.db.purchases[id], s.w.db.purchases[id]))
  {
    WritesWhatItLoaded(cfg, s, k, c, ls);
  }

  // ---------- one confirmation per payload is enough ----------

  /** No confirmation begins while another one of its payload is in flight. */
  predicate WaitsForConfirm(s: Sys, l: Label) {
    match l
    case Spawn(_, Confirm(CheckKey(ev))) => forall j | j in s.runs :: !ConfirmsPayload(s.runs[j], ev.payload)
    case _ => true
  }

  ghost predicate ConfirmsTakeTurns(cfg: Config, s: Sys, ls: seq<Label>)
    decreases |ls|
  {
    ls == [] || (WaitsForConfirm(s, ls[0]) && ConfirmsTakeTurns(cfg, Step(cfg, s, ls[0]), ls[1..]))
  }

  /** A confirmation about to store its copy finds the row pending; a copy held by an issue run, by any of any
      number of workers, has the payment of its row. */
  predicate Truthful(db: Db, r: Run) {
    match r
    case Confirm(StorePaid(_, p)) => p.id in db.purchases && !Settled(db, p.id)
    case Issue(i) => i.LoadPurchase? || (i.copy.id in db.purchases && SamePayment(i.copy, db.purchases[i.copy.id]))
    case _ => true
  }

  ghost predicate AllTruthful(s: Sys) {
    OneConfirm(s) && forall k | k in s.runs :: Truthful(s.w.db, s.runs[k])
  }

  lemma TruthfulWrites(cfg: Config, db: Db, r: Run)
    requires RunOk(cfg, db, r) && Truthful(db, r)
    ensures !Rewrites(db, r)
  {
  }

  lemma ConfirmStaysTruthful(cfg: Config, w: World, r: ConfirmRun, c: Choice)
    requires PurchasesOk(cfg, w.db)
    ensures var n := ConfirmStep(w, r, c); Truthful(n.w.db, n.run)
  {
    if r.FindPurchase? && FindByPayload(w.db, r.ev.payload).Some? {
      FindByPayloadOk(w.db, r.ev.payload);
    }
  }

  lemma IssueStaysTruthful(cfg: Config, w: World, r: IssueRun, c: Choice)
    requires PurchasesOk(cfg, w.db) && Truthful(w.db, Issue(r))
    ensures var n := IssueStep(cfg, w, r, c); Truthful(n.w.db, n.run)
  {
  }

  lemma StaysTruthful(cfg: Config, w: World, r: Run, c: Choice)
    requires PurchasesOk(cfg, w.db) && Truthful(w.db, r)
    ensures var n := RunStep(cfg, w, r, c); Truthful(n.w.db, n.run)
  {
    match r
    case Confirm(f) => ConfirmStaysTruthful(cfg, w, f, c);
    case Issue(i) => IssueStaysTruthful(cfg, w, i, c);
    case _ => KindKept(cfg, w, r, c);
  }

  /** The row another run relies on: a pending one is written by a confirmation of its payload only, and writing
      a paid one truthfully keeps its payment. */
  lemma OtherStaysTruthful(cfg: Config, a: Db, r: Run, b: Db, q: Run)
    requires OutboxOk(a) && RunOk(cfg, a, r) && RunOk(cfg, a, q) && Truthful(a, r) && Truthful(a, q)
    requires RowEffect(a, r, b) && PurchasesKept(a, b)
    requires r.Confirm? && q.Confirm? ==> r.confirm.ev.payload != q.confirm.ev.payload
    ensures Truthful(b, q)
  {
    if r.Issue? && !r.issue.LoadPurchase? {
      EventForSettled(cfg, a, r.issue.eventId, r.issue.copy.id);
    }
    if q.Issue? && !q.issue.LoadPurchase? {
      EventForSettled(cfg, a, q.issue.eventId, q.issue.copy.id);
    }
  }

  lemma AdvanceTruthful(cfg: Config, s: Sys, k: nat, c: Choice)
    requires WorldOk(cfg, s.w) && RunsOk(cfg, s) && AllTruthful(s) && k in s.runs
    ensures var t := Step(cfg, s, Advance(k, c)); forall j | j in t.runs :: Truthful(t.w.db, t.runs[j])
  {
    var r := s.runs[k];
    var n := RunStep(cfg, s.w, r, c);
    StepEffect(cfg, s.w, r, c);
    RunAdvances(cfg, s.w, r, c);
    StaysTruthful(cfg, s.w, r, c);
    forall j | j in s.runs && j != k
      ensures Truthful(n.w.db, s.runs[j])
    {
      OtherStaysTruthful(cfg, s.w.db, r, n.w.db, s.runs[j]);
    }
  }

  lemma StepOneConfirm(cfg: Config, s: Sys, l: Label)
    requires OneConfirm(s) && WaitsForConfirm(s, l)
    ensures OneConfirm(Step(cfg, s, l))
  {
    if l.Advance? && l.k in s.runs {
      KindKept(cfg, s.w, s.runs[l.k], l.choice);
    }
  }

  lemma StepTruthful(cfg: Config, s: Sys, l: Label)
    requires BaseOk(cfg, s) && AllTruthful(s) && WaitsForConfirm(s, l)
    ensures AllTruthful(Step(cfg, s, l))
  {
    StepOneConfirm(cfg, s, l);
    if l.Advance? && l.k in s.runs {
      AdvanceTruthful(cfg, s, l.k, l.choice);
    }
  }

  lemma StepNoRewrite(cfg: Config, s: Sys, l: Label)
    requires RunsOk(cfg, s) && AllTruthful(s)
    ensures !Rewrite(s, l)
  {
    if l.Advance? && l.k in s.runs {
      TruthfulWrites(cfg, s.w.db, s.runs[l.k]);
    }
  }

  /** With any number of issue workers: as long as no two confirmations of one payload overlap, no paid row is
      ever rewritten; so two of them overlapped wherever one is. */
  lemma {:induction false} OneConfirmationEnough(cfg: Config, s: Sys, ls: seq<Label>)
    requires BaseOk(cfg, s) && AllTruthful(s) && ConfirmsTakeTurns(cfg, s, ls)
    ensures NeverRewrites(cfg, s, ls)
    decreases |ls|
  {
    if ls != [] {
      StepNoRewrite(cfg, s, ls[0]);
      StepTruthful(cfg, s, ls[0]);
      StepKeeps(cfg, s, ls[0]);
      OneConfirmationEnough(cfg, Step(cfg, s, ls[0]), ls[1..]);
    }
  }

  /** From empty tables on: every paid row keeps its charge and payment time throughout, unless two confirmations
      of one payload overlap. */
  lemma ChargesStayUnlessOverlap(cfg: Config, s: Sys, ls: seq<Label>)
    requires Initial(s)
    ensures AlwaysStay(cfg, s, ls) || !ConfirmsTakeTurns(cfg, s, ls)
  {
    if ConfirmsTakeTurns(cfg, s, ls) {
      OneConfirmationEnough(cfg, s, ls);
      ChargesStayExactly(cfg, s, ls);
    }
  }
}
