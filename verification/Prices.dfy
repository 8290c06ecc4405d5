/** Every purchase costs what its content cost when its start run read it, and the provider is asked for the
    content that was bought; in the interleaved system. */
module Prices {
  import opened Text
  import opened Domain
  import opened Tables
  import opened Protocol
  import opened Invariants
  import opened Effects
  import opened Answers

  /** After some part of the execution the content was offered at this price. */
  ghost predicate WasOffered(cfg: Config, s: Sys, ls: seq<Label>, content: string, price: int) {
    exists n :: 0 <= n <= |ls| && OfferedAt(Exec(cfg, s, ls[..n]), content, price)
  }

  predicate OfferedAt(t: Sys, content: string, price: int) {
    Offered(t.w.db, content) && t.w.db.contents[content].price == price
  }

  /** The content and the price that a start run goes on with. */
  function Quoted(r: Run): Option<(string, int)> {
    match r
    case Start(MakeId(_, content, price)) => Some((content, price))
    case Start(Insert(p)) => Some((p.contentId, p.stars))
    case _ => None
  }

  ghost predicate AllOffered(cfg: Config, s: Sys, ls: seq<Label>) {
    var t := Exec(cfg, s, ls);
    && (forall id | id in t.w.db.purchases ::
          WasOffered(cfg, s, ls, t.w.db.purchases[id].contentId, t.w.db.purchases[id].stars))
    && (forall k | k in t.runs && Quoted(t.runs[k]).Some? ::
          WasOffered(cfg, s, ls, Quoted(t.runs[k]).value.0, Quoted(t.runs[k]).value.1))
  }

  lemma StillOffered(cfg: Config, s: Sys, ls: seq<Label>, l: Label, content: string, price: int)
    requires WasOffered(cfg, s, ls, content, price)
    ensures WasOffered(cfg, s, ls + [l], content, price)
  {
    var n :| 0 <= n <= |ls| && OfferedAt(Exec(cfg, s, ls[..n]), content, price);
    assert (ls + [l])[..n] == ls[..n];
  }

  lemma OfferedNow(cfg: Config, s: Sys, ls: seq<Label>, l: Label, content: string, price: int)
    requires OfferedAt(Exec(cfg, s, ls), content, price)
    ensures WasOffered(cfg, s, ls + [l], content, price)
  {
    assert (ls + [l])[..|ls|] == ls;
  }

  /** A quote is either the one the run had, or the price of the content at this very step. */
  lemma QuoteStep(cfg: Config, w: World, r: Run, c: Choice)
    ensures var q := Quoted(RunStep(cfg, w, r, c).run);
            q.Some? ==> q == Quoted(r)
                        || (Offered(w.db, q.value.0) && w.db.contents[q.value.0].price == q.value.1)
  {
  }

  /** A row is either an old one, or the one that a start run quoted for. */
  lemma RowStep(cfg: Config, w: World, r: Run, c: Choice, id: string)
    requires WorldOk(cfg, w) && RunOk(cfg, w.db, r) && id in RunStep(cfg, w, r, c).w.db.purchases
    ensures var p := RunStep(cfg, w, r, c).w.db.purchases[id];
            if id in w.db.purchases
            then p.contentId == w.db.purchases[id].contentId && p.stars == w.db.purchases[id].stars
            else Quoted(r) == Some((p.contentId, p.stars))
  {
    StepEffect(cfg, w, r, c);
    RunAdvances(cfg, w, r, c);
  }

  lemma QuoteLabel(cfg: Config, s: Sys, l: Label, k: nat)
    requires k in Step(cfg, s, l).runs && Quoted(Step(cfg, s, l).runs[k]).Some?
    ensures var q := Quoted(Step(cfg, s, l).runs[k]);
            (k in s.runs && q == Quoted(s.runs[k])) || OfferedAt(s, q.value.0, q.value.1)
  {
    if l.Advance? && l.k in s.runs {
      QuoteStep(cfg, s.w, s.runs[l.k], l.choice);
    }
  }

  lemma RowLabel(cfg: Config, s: Sys, l: Label, id: string)
    requires BaseOk(cfg, s) && id in Step(cfg, s, l).w.db.purchases
    ensures var p := Step(cfg, s, l).w.db.purchases[id];
            (id in s.w.db.purchases
             && p.contentId == s.w.db.purchases[id].contentId && p.stars == s.w.db.purchases[id].stars)
            || exists k :: k in s.runs && Quoted(s.runs[k]) == Some((p.contentId, p.stars))
  {
    if l.Advance? && l.k in s.runs {
      assert RunOk(cfg, s.w.db, s.runs[l.k]);
      RowStep(cfg, s.w, s.runs[l.k], l.choice, id);
    }
  }

  lemma StepOffered(cfg: Config, s: Sys, ls: seq<Label>, l: Label)
    requires BaseOk(cfg, Exec(cfg, s, ls)) && AllOffered(cfg, s, ls)
    requires Exec(cfg, s, ls + [l]) == Step(cfg, Exec(cfg, s, ls), l)
    ensures AllOffered(cfg, s, ls + [l])
  {
    var a, t := Exec(cfg, s, ls), Exec(cfg, s, ls + [l]);
    forall id | id in t.w.db.purchases
      ensures WasOffered(cfg, s, ls + [l], t.w.db.purchases[id].contentId, t.w.db.purchases[id].stars)
    {
      RowLabel(cfg, a, l, id);
      StillOffered(cfg, s, ls, l, t.w.db.purchases[id].contentId, t.w.db.purchases[id].stars);
    }
    forall k | k in t.runs && Quoted(t.runs[k]).Some?
      ensures WasOffered(cfg, s, ls + [l], Quoted(t.runs[k]).value.0, Quoted(t.runs[k]).value.1)
    {
      var q := Quoted(t.runs[k]).value;
      QuoteLabel(cfg, a, l, k);
      if k in a.runs && Quoted(a.runs[k]) == Some(q) {
        StillOffered(cfg, s, ls, l, q.0, q.1);
      } else {
        OfferedNow(cfg, s, ls, l, q.0, q.1);
      }
    }
  }

  lemma {:induction false} AlwaysOffered(cfg: Config, s: Sys, ls: seq<Label>)
    requires Initial(s)
    ensures AllOffered(cfg, s, ls)
    decreases |ls|
  {
    if ls != [] {
      var init, l := ls[..|ls| - 1], ls[|ls| - 1];
      assert ls == init + [l];
      AlwaysOffered(cfg, s, init);
      Reachable(cfg, s, init);
      ExecConcat(cfg, s, init, [l]);
      var t := Exec(cfg, s, init);
      assert [l][1..] == [] && Exec(cfg, t, [l]) == Step(cfg, t, l);
      StepOffered(cfg, s, init, l);
    }
  }

  /** Every row ever stored has the price at which its content was offered at some moment before: the moment its
      start run read it. */
  lemma PriceWasOffered(cfg: Config, s: Sys, ls: seq<Label>, id: string)
    requires Initial(s) && id in Exec(cfg, s, ls).w.db.purchases
    ensures var p := Exec(cfg, s, ls).w.db.purchases[id];
            exists n :: 0 <= n <= |ls| && OfferedAt(Exec(cfg, s, ls[..n]), p.contentId, p.stars)
  {
    AlwaysOffered(cfg, s, ls);
    var p := Exec(cfg, s, ls).w.db.purchases[id];
    assert WasOffered(cfg, s, ls, p.contentId, p.stars);
  }

  // ---------- from one start run ----------

  /** What a start run for this purchase can have come to, at this price. */
  predicate Buying(db: Db, r: Run, user: int, content: string, price: int) {
    match r
    case Start(MakeId(u, c, x)) => u == user && c == content && x == price
    case Start(Insert(p)) => p.userId == user && p.contentId == content && p.stars == price
    case Ended(Started(id, _, amount)) =>
      amount == price && id in db.purchases
      && db.purchases[id].userId == user && db.purchases[id].contentId == content && db.purchases[id].stars == price
    case Ended(Failed(_)) => true
    case _ => false
  }

  lemma BuyingStep(cfg: Config, w: World, r: Run, c: Choice, user: int, content: string, price: int)
    requires Buying(w.db, r, user, content, price)
    ensures var n := RunStep(cfg, w, r, c); Buying(n.w.db, n.run, user, content, price)
  {
  }

  lemma BuyingKept(a: Db, b: Db, r: Run, user: int, content: string, price: int)
    requires Buying(a, r, user, content, price) && PurchasesKept(a, b)
    ensures Buying(b, r, user, content, price)
  {
  }

  lemma {:induction false} StaysBuying(cfg: Config, s: Sys, ls: seq<Label>, k: nat, user: int, content: string,
                                       price: int)
    requires BaseOk(cfg, s) && k in s.runs && Drop(k) !in ls && Buying(s.w.db, s.runs[k], user, content, price)
    ensures var t := Exec(cfg, s, ls); k in t.runs && Buying(t.w.db, t.runs[k], user, content, price)
    decreases |ls|
  {
    if ls != [] {
      var t := Step(cfg, s, ls[0]);
      assert ls[0] != Drop(k);
      StepKeeps(cfg, s, ls[0]);
      if ls[0].Advance? && ls[0].k == k {
        BuyingStep(cfg, s.w, s.runs[k], ls[0].choice, user, content, price);
      } else {
        BuyingKept(s.w.db, t.w.db, s.runs[k], user, content, price);
      }
      StaysBuying(cfg, t, ls[1..], k, user, content, price);
    }
  }

  /** A start run that reads an offered content goes on, whatever others do to the catalog meanwhile, with the
      price it read: that is what its row says, and what it answers. */
  lemma PriceAsRead(cfg: Config, s: Sys, k: nat, c: Choice, ls: seq<Label>, user: int, content: string)
    requires BaseOk(cfg, s) && k in s.runs && s.runs[k] == Start(FindContent(user, content)) && Drop(k) !in ls
    requires c.outcome.Served? && Offered(s.w.db, content)
    ensures var t := Exec(cfg, Step(cfg, s, Advance(k, c)), ls);
            k in t.runs && Buying(t.w.db, t.runs[k], user, content, s.w.db.contents[content].price)
  {
    StepKeeps(cfg, s, Advance(k, c));
    StaysBuying(cfg, Step(cfg, s, Advance(k, c)), ls, k, user, content, s.w.db.contents[content].price);
  }

  // ---------- what the provider is asked for ----------

  predicate StandsAs(t: Sys, id: string, row: Content) {
    Offered(t.w.db, id) && t.w.db.contents[id] == row
  }

  /** The content that a run is about to ask the provider for. */
  predicate Asks(r: Run, id: string, row: Content) {
    r.Issue? && r.issue.AskProvider? && r.issue.copy.contentId == id && r.issue.content == row
  }

  lemma AskStep(cfg: Config, s: Sys, l: Label, k: nat, id: string, row: Content)
    requires k in Step(cfg, s, l).runs && Asks(Step(cfg, s, l).runs[k], id, row)
    ensures (k in s.runs && Asks(s.runs[k], id, row)) || StandsAs(s, id, row)
  {
  }

  /** A provider is only ever asked for the content of the run's own purchase, by the row that was stored for it, on
      offer, at some moment before: the moment the run read it. */
  lemma {:induction false} AskedForItsContent(cfg: Config, s: Sys, ls: seq<Label>, k: nat, id: string, row: Content)
    requires Initial(s) && k in Exec(cfg, s, ls).runs && Asks(Exec(cfg, s, ls).runs[k], id, row)
    ensures exists n :: 0 <= n <= |ls| && StandsAs(Exec(cfg, s, ls[..n]), id, row)
    decreases |ls|
  {
    if ls != [] {
      var init, l := ls[..|ls| - 1], ls[|ls| - 1];
      assert ls == init + [l];
      ExecConcat(cfg, s, init, [l]);
      var t := Exec(cfg, s, init);
      assert [l][1..] == [] && Exec(cfg, t, [l]) == Step(cfg, t, l);
      AskStep(cfg, t, l, k, id, row);
      if k in t.runs && Asks(t.runs[k], id, row) {
        AskedForItsContent(cfg, s, init, k, id, row);
        var n :| 0 <= n <= |init| && StandsAs(Exec(cfg, s, init[..n]), id, row);
        assert ls[..n] == init[..n];
      } else {
        assert ls[..|init|] == init;
      }
    }
  }
}
