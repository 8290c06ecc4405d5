/** Exactly when racing redemptions make the system accept a token more than once. */
module TokenRace {
  import opened Protocol
  import opened Invariants
  import opened Effects
  import opened Redemption

  /** The label is the mark of a redemption that passed its checks. */
  predicate MarkOf(s: Sys, l: Label, id: string) {
    l.Advance? && l.k in s.runs && Marking(s.runs[l.k]) && s.runs[l.k].use.grant.id == id
  }

  /** The grants whose use nobody was told of: they were marked by a call whose caller saw an error. */
  function Untold(s: Sys, l: Label, untold: set<string>): set<string> {
    if !l.Advance? || l.k !in s.runs || !Marking(s.runs[l.k]) then untold
    else
      var id := s.runs[l.k].use.grant.id;
      match l.choice.outcome
      case Served => untold - {id}
      case Refused => untold
      case Unacknowledged => if id in s.w.db.grants && !Used(s.w.db, id) then untold + {id} else untold
  }

  /** A mark that is answered with success although used_at is set: the guard of the update
      matches no row, and nobody looks at the affected-row count. */
  predicate HitsUsed(s: Sys, l: Label) {
    l.Advance? && l.k in s.runs && Marking(s.runs[l.k]) && l.choice.outcome.Served?
    && Used(s.w.db, s.runs[l.k].use.grant.id)
  }

  /** Such a mark, of a grant whose use somebody was told of. */
  predicate Late(s: Sys, l: Label, untold: set<string>) {
    HitsUsed(s, l) && s.runs[l.k].use.grant.id !in untold
  }

  ghost predicate NeverLate(cfg: Config, s: Sys, ls: seq<Label>, untold: set<string>)
    decreases |ls|
  {
    ls == []
    || (!Late(s, ls[0], untold) && NeverLate(cfg, Step(cfg, s, ls[0]), ls[1..], Untold(s, ls[0], untold)))
  }

  predicate Distinct(accepted: seq<Acceptance>) {
    forall i, j | 0 <= i < |accepted| && 0 <= j < |accepted| && accepted[i].grantId == accepted[j].grantId :: i == j
  }

  predicate Accepts(accepted: seq<Acceptance>, id: string) {
    exists i :: 0 <= i < |accepted| && accepted[i].grantId == id
  }

  /** A grant is used exactly when a redemption of it was accepted or its use is untold, never both. */
  ghost predicate UsesTold(s: Sys, untold: set<string>) {
    && (forall id | Used(s.w.db, id) :: id in untold || Accepts(s.h.accepted, id))
    && (forall id | id in untold :: Used(s.w.db, id) && !Accepts(s.h.accepted, id))
  }

  // ---------- one step ----------

  /** What a step adds to the accepted redemptions: the served mark, if it is one. */
  lemma StepAccepts(cfg: Config, s: Sys, l: Label)
    ensures var t := Step(cfg, s, l);
            if l.Advance? && l.k in s.runs && Marking(s.runs[l.k]) && l.choice.outcome.Served?
            then |t.h.accepted| == |s.h.accepted| + 1 && t.h.accepted[..|s.h.accepted|] == s.h.accepted
                 && t.h.accepted[|s.h.accepted|].grantId == s.runs[l.k].use.grant.id
            else t.h.accepted == s.h.accepted
  {
  }

  lemma AcceptedStays(cfg: Config, s: Sys, l: Label, id: string)
    requires Accepts(s.h.accepted, id)
    ensures Accepts(Step(cfg, s, l).h.accepted, id)
  {
    StepAccepts(cfg, s, l);
    var i :| 0 <= i < |s.h.accepted| && s.h.accepted[i].grantId == id;
    assert Step(cfg, s, l).h.accepted[i].grantId == id;
  }

  /** A step uses a grant only by a mark that is not refused. */
  lemma StepUses(cfg: Config, s: Sys, l: Label, id: string)
    requires BaseOk(cfg, s) && Used(Step(cfg, s, l).w.db, id) && !Used(s.w.db, id)
    ensures l.Advance? && l.k in s.runs && Marking(s.runs[l.k]) && !l.choice.outcome.Refused?
            && s.runs[l.k].use.grant.id == id
  {
    if l.Advance? && l.k in s.runs {
      StepEffect(cfg, s.w, s.runs[l.k], l.choice);
      assert RunOk(cfg, s.w.db, s.runs[l.k]);
    }
  }

  /** Whom a step tells: nobody new, unless it is the served mark of the grant. */
  lemma StepTells(cfg: Config, s: Sys, l: Label, id: string)
    ensures Accepts(Step(cfg, s, l).h.accepted, id)
            <==> Accepts(s.h.accepted, id) || (MarkOf(s, l, id) && l.choice.outcome.Served?)
  {
    StepAccepts(cfg, s, l);
    if Accepts(s.h.accepted, id) {
      AcceptedStays(cfg, s, l, id);
    }
  }

  lemma LostMarkUses(cfg: Config, s: Sys, l: Label, id: string)
    requires MarkOf(s, l, id) && !l.choice.outcome.Refused? && id in s.w.db.grants
    ensures Used(Step(cfg, s, l).w.db, id)
  {
  }

  lemma UsedIsTold(cfg: Config, s: Sys, l: Label, untold: set<string>, id: string)
    requires BaseOk(cfg, s) && UsesTold(s, untold) && Used(Step(cfg, s, l).w.db, id)
    ensures id in Untold(s, l, untold) || Accepts(Step(cfg, s, l).h.accepted, id)
  {
    StepTells(cfg, s, l, id);
    if !Used(s.w.db, id) {
      StepUses(cfg, s, l, id);
      assert RunOk(cfg, s.w.db, s.runs[l.k]);
    }
  }

  lemma UntoldIsUsed(cfg: Config, s: Sys, l: Label, untold: set<string>, id: string)
    requires UsesTold(s, untold) && AcceptedTimed(s) && GrantsKept(s.w.db, Step(cfg, s, l).w.db)
    requires id in Untold(s, l, untold)
    ensures Used(Step(cfg, s, l).w.db, id) && !Accepts(Step(cfg, s, l).h.accepted, id)
  {
    StepTells(cfg, s, l, id);
    if Used(s.w.db, id) {
      UsedKept(s.w.db, Step(cfg, s, l).w.db, id);
    } else {
      LostMarkUses(cfg, s, l, id);
    }
  }

  lemma StepUsesTold(cfg: Config, s: Sys, l: Label, untold: set<string>)
    requires BaseOk(cfg, s) && RedemptionsOk(s) && UsesTold(s, untold)
    ensures UsesTold(Step(cfg, s, l), Untold(s, l, untold))
  {
    var t := Step(cfg, s, l);
    StepKeeps(cfg, s, l);
    forall id | Used(t.w.db, id)
      ensures id in Untold(s, l, untold) || Accepts(t.h.accepted, id)
    {
      UsedIsTold(cfg, s, l, untold, id);
    }
    forall id | id in Untold(s, l, untold)
      ensures Used(t.w.db, id) && !Accepts(t.h.accepted, id)
    {
      UntoldIsUsed(cfg, s, l, untold, id);
    }
  }

  lemma PunctualStep(cfg: Config, s: Sys, l: Label, untold: set<string>)
    requires RedemptionsOk(s) && UsesTold(s, untold) && Distinct(s.h.accepted) && !Late(s, l, untold)
    ensures Distinct(Step(cfg, s, l).h.accepted)
  {
    StepAccepts(cfg, s, l);
    forall i | 0 <= i < |s.h.accepted|
      ensures Accepts(s.h.accepted, s.h.accepted[i].grantId)
    {
    }
  }

  lemma LateStep(cfg: Config, s: Sys, l: Label, untold: set<string>)
    requires UsesTold(s, untold) && Late(s, l, untold)
    ensures !Distinct(Step(cfg, s, l).h.accepted)
  {
    StepAccepts(cfg, s, l);
    var t := Step(cfg, s, l);
    var i :| 0 <= i < |s.h.accepted| && s.h.accepted[i].grantId == s.runs[l.k].use.grant.id;
    assert t.h.accepted[i].grantId == t.h.accepted[|s.h.accepted|].grantId;
  }

  lemma {:induction false} StaysRepeated(cfg: Config, s: Sys, ls: seq<Label>)
    requires !Distinct(s.h.accepted)
    ensures !Distinct(Exec(cfg, s, ls).h.accepted)
    decreases |ls|
  {
    if ls != [] {
      var t := Step(cfg, s, ls[0]);
      StepAccepts(cfg, s, ls[0]);
      var i, j :| 0 <= i < |s.h.accepted| && 0 <= j < |s.h.accepted| && i != j
                  && s.h.accepted[i].grantId == s.h.accepted[j].grantId;
      assert t.h.accepted[i].grantId == t.h.accepted[j].grantId;
      StaysRepeated(cfg, t, ls[1..]);
    }
  }

  // ---------- whole executions ----------

  lemma {:induction false} DistinctExactly(cfg: Config, s: Sys, ls: seq<Label>, untold: set<string>)
    requires BaseOk(cfg, s) && RedemptionsOk(s) && UsesTold(s, untold) && Distinct(s.h.accepted)
    ensures Distinct(Exec(cfg, s, ls).h.accepted) <==> NeverLate(cfg, s, ls, untold)
    decreases |ls|
  {
    if ls != [] {
      var t := Step(cfg, s, ls[0]);
      if Late(s, ls[0], untold) {
        LateStep(cfg, s, ls[0], untold);
        StaysRepeated(cfg, t, ls[1..]);
      } else {
        PunctualStep(cfg, s, ls[0], untold);
        StepUsesTold(cfg, s, ls[0], untold);
        StepRedemptions(cfg, s, ls[0]);
        StepKeeps(cfg, s, ls[0]);
        DistinctExactly(cfg, t, ls[1..], Untold(s, ls[0], untold));
      }
    }
  }

  /** However redemptions race, and whatever calls fail: every token is accepted at most once if and
      only if no mark is late. */
  lemma AcceptedOnceExactly(cfg: Config, s: Sys, ls: seq<Label>)
    requires Initial(s)
    ensures Distinct(Exec(cfg, s, ls).h.accepted) <==> NeverLate(cfg, s, ls, {})
  {
    DistinctExactly(cfg, s, ls, {});
  }

  // ---------- told from the guard of the update alone ----------

  ghost predicate NeverHitsUsed(cfg: Config, s: Sys, ls: seq<Label>)
    decreases |ls|
  {
    ls == [] || (!HitsUsed(s, ls[0]) && NeverHitsUsed(cfg, Step(cfg, s, ls[0]), ls[1..]))
  }

  /** A mark that is carried out although its caller sees an error. */
  predicate LostAnswer(s: Sys, l: Label) {
    l.Advance? && l.k in s.runs && Marking(s.runs[l.k]) && l.choice.outcome.Unacknowledged?
  }

  ghost predicate MarksAnswered(cfg: Config, s: Sys, ls: seq<Label>)
    decreases |ls|
  {
    ls == [] || (!LostAnswer(s, ls[0]) && MarksAnswered(cfg, Step(cfg, s, ls[0]), ls[1..]))
  }

  /** A late mark is one of a used grant. */
  lemma {:induction false} HitsUsedCovers(cfg: Config, s: Sys, ls: seq<Label>, untold: set<string>)
    requires NeverHitsUsed(cfg, s, ls)
    ensures NeverLate(cfg, s, ls, untold)
    decreases |ls|
  {
    if ls != [] {
      HitsUsedCovers(cfg, Step(cfg, s, ls[0]), ls[1..], Untold(s, ls[0], untold));
    }
  }

  /** While every mark that is carried out is answered, nothing is untold: late is any served mark of a used
      grant. */
  lemma {:induction false} AnsweredLate(cfg: Config, s: Sys, ls: seq<Label>)
    requires MarksAnswered(cfg, s, ls)
    ensures NeverHitsUsed(cfg, s, ls) <==> NeverLate(cfg, s, ls, {})
    decreases |ls|
  {
    if ls != [] {
      assert Untold(s, ls[0], {}) == {};
      AnsweredLate(cfg, Step(cfg, s, ls[0]), ls[1..]);
    }
  }

  /** Every token is accepted at most once as long as no served mark finds used_at set, whatever calls fail. */
  lemma UnusedMarksSuffice(cfg: Config, s: Sys, ls: seq<Label>)
    requires Initial(s) && NeverHitsUsed(cfg, s, ls)
    ensures Distinct(Exec(cfg, s, ls).h.accepted)
  {
    HitsUsedCovers(cfg, s, ls, {});
    AcceptedOnceExactly(cfg, s, ls);
  }

  /** Where no mark loses its answer, that is exact: every token is accepted at most once if and only if no
      served mark finds used_at set. */
  lemma AcceptedOnceByGuard(cfg: Config, s: Sys, ls: seq<Label>)
    requires Initial(s) && MarksAnswered(cfg, s, ls)
    ensures Distinct(Exec(cfg, s, ls).h.accepted) <==> NeverHitsUsed(cfg, s, ls)
  {
    AnsweredLate(cfg, s, ls);
    AcceptedOnceExactly(cfg, s, ls);
  }
}
