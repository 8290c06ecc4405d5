/** The token cache is advisory: losing it, or having none, changes nothing but the cache. */
module CacheFree {
  import opened Tables
  import opened Protocol
  import opened Invariants

  /** The same environment, except for how cache calls end and what the cache loses. */
  predicate SameButCacheCalls(l: Label, m: Label) {
    || l == m
    || (l.Advance? && m.Advance? && l.k == m.k
        && l.choice.(cacheOutcome := Served) == m.choice.(cacheOutcome := Served))
    || (l.Evict? && m.Evict?)
  }

  predicate SameButCache(s: Sys, t: Sys) {
    s.w.db == t.w.db && s.w.sent == t.w.sent && s.runs == t.runs && s.h == t.h
  }

  /** Two outcomes of a step that differ in the cache at most. */
  predicate SameNext(n: Next, m: Next) {
    n.w.db == m.w.db && n.w.sent == m.w.sent && n.run == m.run
  }

  lemma StartIgnoresCache(w: World, v: World, r: StartRun, c: Choice, outcome: Outcome)
    requires w.db == v.db && w.sent == v.sent
    ensures SameNext(StartStep(w, r, c), StartStep(v, r, c.(cacheOutcome := outcome)))
  {
  }

  lemma ConfirmIgnoresCache(w: World, v: World, r: ConfirmRun, c: Choice, outcome: Outcome)
    requires w.db == v.db && w.sent == v.sent
    ensures SameNext(ConfirmStep(w, r, c), ConfirmStep(v, r, c.(cacheOutcome := outcome)))
  {
  }

  lemma WriteIgnoresCache(cfg: Config, hasCache: bool, w: World, v: World, r: IssueRun, c: Choice, outcome: Outcome)
    requires w.db == v.db && w.sent == v.sent
    requires r.CreateGrant? || r.StoreIssued? || r.SendLink? || r.FlagEvent?
    ensures SameNext(IssueStep(cfg, w, r, c), IssueStep(cfg.(hasCache := hasCache), v, r, c.(cacheOutcome := outcome)))
  {
  }

  lemma CachingIgnoresCache(cfg: Config, hasCache: bool, w: World, v: World, r: IssueRun, c: Choice, outcome: Outcome)
    requires w.db == v.db && w.sent == v.sent && r.CacheToken?
    ensures SameNext(IssueStep(cfg, w, r, c), IssueStep(cfg.(hasCache := hasCache), v, r, c.(cacheOutcome := outcome)))
  {
  }

  lemma IssueIgnoresCache(cfg: Config, hasCache: bool, w: World, v: World, r: IssueRun, c: Choice, outcome: Outcome)
    requires w.db == v.db && w.sent == v.sent
    ensures SameNext(IssueStep(cfg, w, r, c), IssueStep(cfg.(hasCache := hasCache), v, r, c.(cacheOutcome := outcome)))
  {
    if r.CreateGrant? || r.StoreIssued? || r.SendLink? || r.FlagEvent? {
      WriteIgnoresCache(cfg, hasCache, w, v, r, c, outcome);
    } else if r.CacheToken? {
      CachingIgnoresCache(cfg, hasCache, w, v, r, c, outcome);
    }
  }

  lemma UseIgnoresCache(cfg: Config, hasCache: bool, w: World, v: World, r: UseRun, c: Choice, outcome: Outcome)
    requires w.db == v.db && w.sent == v.sent
    ensures SameNext(UseStep(cfg, w, r, c), UseStep(cfg.(hasCache := hasCache), v, r, c.(cacheOutcome := outcome)))
  {
  }

  lemma RunIgnoresCache(cfg: Config, hasCache: bool, w: World, v: World, r: Run, c: Choice, outcome: Outcome)
    requires w.db == v.db && w.sent == v.sent
    ensures var d := c.(cacheOutcome := outcome);
            && SameNext(RunStep(cfg, w, r, c), RunStep(cfg.(hasCache := hasCache), v, r, d))
            && FailureStored(w, r, c) == FailureStored(v, r, d) && CutByStep(w, r, c) == CutByStep(v, r, d)
  {
    match r
    case Start(x) => StartIgnoresCache(w, v, x, c, outcome);
    case Confirm(x) => ConfirmIgnoresCache(w, v, x, c, outcome);
    case Issue(x) => IssueIgnoresCache(cfg, hasCache, w, v, x, c, outcome);
    case Use(x) => UseIgnoresCache(cfg, hasCache, w, v, x, c, outcome);
    case Ended(_) =>
  }

  lemma StepIgnoresCache(cfg: Config, hasCache: bool, s: Sys, t: Sys, l: Label, m: Label)
    requires SameButCache(s, t) && SameButCacheCalls(l, m)
    ensures SameButCache(Step(cfg, s, l), Step(cfg.(hasCache := hasCache), t, m))
  {
    if l.Advance? && l.k in s.runs {
      RunIgnoresCache(cfg, hasCache, s.w, t.w, s.runs[l.k], l.choice, m.choice.cacheOutcome);
      assert m.choice == l.choice.(cacheOutcome := m.choice.cacheOutcome) by {
        assert m.choice == m.choice.(cacheOutcome := Served).(cacheOutcome := m.choice.cacheOutcome);
      }
    }
  }

  /** Two executions that differ only in the cache (its presence, its faults, its losses, its contents)
      have the same tables, the same links sent, the same runs in flight with the same replies. */
  lemma {:induction false} CacheTransparent(cfg: Config, hasCache: bool, s: Sys, t: Sys, ls: seq<Label>, ms: seq<Label>)
    requires SameButCache(s, t) && |ls| == |ms|
    requires forall i | 0 <= i < |ls| :: SameButCacheCalls(ls[i], ms[i])
    ensures SameButCache(Exec(cfg, s, ls), Exec(cfg.(hasCache := hasCache), t, ms))
    decreases |ls|
  {
    if ls != [] {
      assert SameButCacheCalls(ls[0], ms[0]);
      StepIgnoresCache(cfg, hasCache, s, t, ls[0], ms[0]);
      forall i | 0 <= i < |ls[1..]|
        ensures SameButCacheCalls(ls[1..][i], ms[1..][i])
      {
        assert SameButCacheCalls(ls[i + 1], ms[i + 1]);
      }
      var s1, t1 := Step(cfg, s, ls[0]), Step(cfg.(hasCache := hasCache), t, ms[0]);
      CacheTransparent(cfg, hasCache, s1, t1, ls[1..], ms[1..]);
    }
  }

  /** Whatever is in the cache is true: it names the purchase of the grant with that token hash. */
  lemma CacheEntriesTrue(cfg: Config, s: Sys, ls: seq<Label>, hash: string)
    requires Initial(s) && hash in Exec(cfg, s, ls).w.cache
    ensures var w := Exec(cfg, s, ls).w;
            FindByHash(w.db, hash).Some? && FindByHash(w.db, hash).value.purchaseId == w.cache[hash]
  {
    Reachable(cfg, s, ls);
    var w := Exec(cfg, s, ls).w;
    var g := w.db.grants[GrantId(w.cache[hash])];
    GrantIdInjective(g.purchaseId, w.cache[hash]);
    assert FindByHash(w.db, hash).value == g by {
      FindByHashOk(w.db, hash);
    }
  }
}
