/** When the status machine survives whole-row writes of stale copies, in the interleaved system. */
module StatusMachine {
  import opened Domain
  import opened Tables
  import opened Protocol
  import opened Invariants
  import opened Effects
  import opened Orderly

  predicate StatusMoves(a: Status, b: Status) {
    a == b || StatusEdge(a, b)
  }

  /** Every row moves along an edge of the machine, or keeps its status. */
  ghost predicate StatusesMove(a: Db, b: Db) {
    forall id | id in a.purchases :: id in b.purchases && StatusMoves(a.purchases[id].status, b.purchases[id].status)
  }

  /** The row is further along already than the status this run is about to write. */
  predicate Overtaken(db: Db, r: Run) {
    && RowToWrite(r).Some? && !r.Start?
    && var p := RowToWrite(r).value;
       p.id in db.purchases && StatusRank(db.purchases[p.id].status) > StatusRank(p.status)
  }

  /** A write from an overtaken copy that the table accepts. */
  ghost predicate StaleWrite(s: Sys, l: Label) {
    l.Advance? && l.k in s.runs && Overtaken(s.w.db, s.runs[l.k])
    && !l.choice.outcome.Refused? && FitsAmong(s.w.db, RowToWrite(s.runs[l.k]).value)
  }

  lemma WriterMoves(cfg: Config, w: World, r: Run, c: Choice)
    requires WorldOk(cfg, w) && RunOk(cfg, w.db, r) && RowToWrite(r).Some? && !r.Start?
    requires !c.outcome.Refused? && FitsAmong(w.db, RowToWrite(r).value)
    ensures StatusesMove(w.db, RunStep(cfg, w, r, c).w.db) <==> !Overtaken(w.db, r)
  {
    var p := RowToWrite(r).value;
    var n := RunStep(cfg, w, r, c);
    if r.Issue? {
      EventForSettled(cfg, w.db, r.issue.eventId, p.id);
    }
    assert n.w.db.purchases == w.db.purchases[p.id := p];
    assert StatusesMove(w.db, n.w.db) <==> StatusMoves(w.db.purchases[p.id].status, p.status);
  }

  lemma SilentStep(cfg: Config, w: World, r: Run, c: Choice)
    requires WorldOk(cfg, w) && RunOk(cfg, w.db, r)
    requires RowToWrite(r).None? || r.Start? || c.outcome.Refused? || !FitsAmong(w.db, RowToWrite(r).value)
    ensures StatusesMove(w.db, RunStep(cfg, w, r, c).w.db)
  {
    StepEffect(cfg, w, r, c);
    assert RowEffect(w.db, r, RunStep(cfg, w, r, c).w.db);
  }

  lemma StepMovesExactly(cfg: Config, s: Sys, l: Label)
    requires BaseOk(cfg, s)
    ensures StatusesMove(s.w.db, Step(cfg, s, l).w.db) <==> !StaleWrite(s, l)
  {
    if l.Advance? && l.k in s.runs {
      var r, c := s.runs[l.k], l.choice;
      assert RunOk(cfg, s.w.db, r);
      if RowToWrite(r).None? || r.Start? || c.outcome.Refused? || !FitsAmong(s.w.db, RowToWrite(r).value) {
        SilentStep(cfg, s.w, r, c);
      } else {
        WriterMoves(cfg, s.w, r, c);
      }
    }
  }

  ghost predicate AlwaysMoves(cfg: Config, s: Sys, ls: seq<Label>)
    decreases |ls|
  {
    ls == [] || (StatusesMove(s.w.db, Step(cfg, s, ls[0]).w.db) && AlwaysMoves(cfg, Step(cfg, s, ls[0]), ls[1..]))
  }

  ghost predicate NeverStale(cfg: Config, s: Sys, ls: seq<Label>)
    decreases |ls|
  {
    ls == [] || (!StaleWrite(s, ls[0]) && NeverStale(cfg, Step(cfg, s, ls[0]), ls[1..]))
  }

  /** With any runs in flight: the statuses move along the machine's edges throughout an execution if and
      only if no row is ever written from a copy that was overtaken. */
  lemma {:induction false} MachineHoldsExactly(cfg: Config, s: Sys, ls: seq<Label>)
    requires BaseOk(cfg, s)
    ensures AlwaysMoves(cfg, s, ls) <==> NeverStale(cfg, s, ls)
    decreases |ls|
  {
    if ls != [] {
      StepMovesExactly(cfg, s, ls[0]);
      StepKeeps(cfg, s, ls[0]);
      MachineHoldsExactly(cfg, Step(cfg, s, ls[0]), ls[1..]);
    }
  }

  /** One worker and one confirmation per payload at a time are enough: no copy is ever overtaken. */
  lemma {:induction false} OrderlyNeverStale(cfg: Config, s: Sys, ls: seq<Label>)
    requires OrderlyOk(cfg, s) && IsOrderly(cfg, s, ls)
    ensures NeverStale(cfg, s, ls)
    decreases |ls|
  {
    if ls != [] {
      StepOrderly(cfg, s, ls[0]);
      MovesStatuses(s.w.db, Step(cfg, s, ls[0]).w.db);
      StepMovesExactly(cfg, s, ls[0]);
      OrderlyNeverStale(cfg, Step(cfg, s, ls[0]), ls[1..]);
    }
  }

  lemma MovesStatuses(a: Db, b: Db)
    requires RowsMove(a, b)
    ensures StatusesMove(a, b)
  {
  }

  // ---------- where an overtaken copy comes from ----------

  predicate Loading(r: Run) {
    (r.Confirm? && r.confirm.FindPurchase?) || (r.Issue? && r.issue.LoadPurchase?)
  }

  /** What the run still writes, it derives from this row. */
  predicate ReadFrom(r: Run, row: Purchase) {
    match r
    case Start(_) => false
    case Confirm(CheckKey(_)) => false
    case Confirm(FindPurchase(_)) => false
    case Confirm(StorePaid(_, p)) => p.id == row.id && row.status == Pending
    case Issue(i) => IssueReadFrom(i, row)
    case Use(_) => false
    case _ => true
  }

  predicate SamePayment(a: Purchase, b: Purchase) {
    a.chargeId == b.chargeId && a.paidAt == b.paidAt
  }

  predicate IssueReadFrom(r: IssueRun, row: Purchase) {
    match r
    case LoadPurchase(_, _) => false
    case StoreFailure(_, p) =>
      p.id == row.id && SamePayment(p, row) && (p.status == row.status || p.status == Error)
    case StoreIssued(_, p, _, _, _) =>
      p.id == row.id && SamePayment(p, row) && p.status == AccessIssued && row.status == Paid
    case SendLink(_, _, _, _, _) => true
    case FlagEvent(_, _) => true
    case _ => r.copy == row
  }

  lemma LoadReads(cfg: Config, w: World, r: Run, c: Choice) returns (id: string)
    requires PurchasesOk(cfg, w.db) && Loading(r)
    ensures RunStep(cfg, w, r, c).run.Ended?
            || (id in w.db.purchases && ReadFrom(RunStep(cfg, w, r, c).run, w.db.purchases[id]))
  {
    id := "";
    match r
    case Confirm(FindPurchase(ev)) =>
      if FindByPayload(w.db, ev.payload).Some? {
        FindByPayloadOk(w.db, ev.payload);
        id := FindByPayload(w.db, ev.payload).value.id;
      }
    case Issue(LoadPurchase(_, purchaseId)) => id := purchaseId;
  }

  lemma IssueStepReadFrom(cfg: Config, w: World, r: IssueRun, c: Choice, row: Purchase)
    requires IssueReadFrom(r, row)
    ensures ReadFrom(IssueStep(cfg, w, r, c).run, row)
  {
  }

  lemma ConfirmStepReadFrom(w: World, r: ConfirmRun, c: Choice, row: Purchase)
    requires !r.CheckKey? && !r.FindPurchase?
    ensures ReadFrom(ConfirmStep(w, r, c).run, row)
  {
  }

  lemma StepReadFrom(cfg: Config, w: World, r: Run, c: Choice, row: Purchase)
    requires ReadFrom(r, row)
    ensures ReadFrom(RunStep(cfg, w, r, c).run, row)
  {
    match r
    case Issue(i) => IssueStepReadFrom(cfg, w, i, c, row);
    case Confirm(f) => ConfirmStepReadFrom(w, f, c, row);
    case Ended(_) =>
  }

  /** A run works from the row it loaded for as long as it is not stopped. */
  lemma {:induction false} ExecReadFrom(cfg: Config, s: Sys, ls: seq<Label>, k: nat, row: Purchase)
    requires k in s.runs && ReadFrom(s.runs[k], row) && Drop(k) !in ls
    ensures var t := Exec(cfg, s, ls); k in t.runs && ReadFrom(t.runs[k], row)
    decreases |ls|
  {
    if ls != [] {
      var t := Step(cfg, s, ls[0]);
      assert ls[0] != Drop(k);
      if ls[0].Advance? && ls[0].k == k {
        StepReadFrom(cfg, s.w, s.runs[k], ls[0].choice, row);
      } else {
        assert t.runs[k] == s.runs[k];
      }
      ExecReadFrom(cfg, t, ls[1..], k, row);
    }
  }

  /** A run that loads its row now and is about to write one later: it writes the row it loaded. */
  lemma WritesWhatItLoaded(cfg: Config, s: Sys, k: nat, c: Choice, ls: seq<Label>)
    requires BaseOk(cfg, s) && k in s.runs && Loading(s.runs[k]) && Drop(k) !in ls
    requires var t := Exec(cfg, Step(cfg, s, Advance(k, c)), ls); k in t.runs && RowToWrite(t.runs[k]).Some?
    ensures var t := Exec(cfg, Step(cfg, s, Advance(k, c)), ls);
            var id := RowToWrite(t.runs[k]).value.id;
            id in s.w.db.purchases && s.w.db.purchases[id].id == id && ReadFrom(t.runs[k], s.w.db.purchases[id])
  {
    var id := LoadReads(cfg, s.w, s.runs[k], c);
    var u := Step(cfg, s, Advance(k, c));
    if !u.runs[k].Ended? {
      ExecReadFrom(cfg, u, ls, k, s.w.db.purchases[id]);
    } else {
      EndedStays(cfg, u, ls, k);
    }
  }

  /** A run is overtaken only by others: between its load of the row and its write, somebody else changed
      the row's status. */
  lemma OvertakenSinceLoad(cfg: Config, s: Sys, k: nat, c: Choice, ls: seq<Label>)
    requires BaseOk(cfg, s) && k in s.runs && Loading(s.runs[k]) && Drop(k) !in ls
    requires var t := Exec(cfg, Step(cfg, s, Advance(k, c)), ls); k in t.runs && Overtaken(t.w.db, t.runs[k])
    ensures var t := Exec(cfg, Step(cfg, s, Advance(k, c)), ls);
            var id := RowToWrite(t.runs[k]).value.id;
            && id in s.w.db.purchases && id in t.w.db.purchases
            && t.w.db.purchases[id].status != s.w.db.purchases[id].status
  {
    WritesWhatItLoaded(cfg, s, k, c, ls);
  }

  lemma {:induction false} EndedStays(cfg: Config, s: Sys, ls: seq<Label>, k: nat)
    requires k in s.runs && s.runs[k].Ended? && Drop(k) !in ls
    ensures var t := Exec(cfg, s, ls); k in t.runs && t.runs[k].Ended?
    decreases |ls|
  {
    if ls != [] {
      assert ls[0] != Drop(k);
      EndedStays(cfg, Step(cfg, s, ls[0]), ls[1..], k);
    }
  }
}
