/** What SLR tables recognise. Their FOLLOW sets are computed for the first rule's name, which need not
    be the start symbol: the tables are complete exactly when `$end` can follow the start symbol. */
module SlrLanguage {
  import opened Lists
  import opened Grammars
  import opened GrammarFacts
  import opened Items
  import opened ParserTables
  import opened Engine
  import opened EngineFacts
  import opened Completeness

  /** A nonterminal on top of the stack has just been reduced to, on a lookahead in its FOLLOW set. */
  ghost predicate TopFollowed(g: Cfg, follow: SetTable, c: Config) {
    |c.symstack| > 0 && follow.Keys == g.nonterminals &&
    var n := c.symstack[|c.symstack| - 1].sym;
    n in g.nonterminals ==> c.lookahead.Some? && c.lookahead.value.sym in follow[n]
  }

  lemma FetchFollowed(g: Cfg, C: seq<seq<Item>>, d: Delta, follow: SetTable, c: Config)
    requires Viable(g, C, d, c) && TopFollowed(g, follow, c)
    ensures TopFollowed(g, follow, Fetch(c))
  {
  }

  lemma StepFollowed(g: Cfg, C: seq<seq<Item>>, K: seq<seq<Item>>, d: Delta, follow: SetTable, T: Tables, h: bool, c: Config)
    requires g.WellFormed() && follow.Keys == g.nonterminals && Built(g, C, K, d, SlrLooks(g, C, follow), T)
    requires Viable(g, C, d, c) && c.status == Running && !Errs(T, c) && TopFollowed(g, follow, c)
    ensures TopFollowed(g, follow, Step(T, h, c))
    ensures Step(T, h, c).status.Returned? ==> End in follow[g.Start()]
  {
    hide *;
    var la := SlrLooks(g, C, follow);
    var f := Fetch(c);
    FetchViable(g, C, d, c);
    FetchFollowed(g, C, d, follow, c);
    var t := CleanAction(g, C, K, d, la, T, h, c);
    if t > 0 {
      ShiftedTop(g, C, d, la, follow, f, t);
    } else if t < 0 {
      ReduceFinds(g, C, K, d, la, T, f, 0 - t);
      ReducedTop(g, C, d, follow, T, f, 0 - t);
    } else {
      AcceptedTop(g, C, K, d, la, follow, f);
      SameTop(g, follow, f, Step(T, h, c));
    }
  }

  /** The action taken by a round without an error, and its effect. */
  lemma CleanAction(g: Cfg, C: seq<seq<Item>>, K: seq<seq<Item>>, d: Delta, la: LookTable, T: Tables, h: bool, c: Config) returns (t: int)
    requires Built(g, C, K, d, la, T) && Viable(g, C, d, c) && c.status == Running && !Errs(T, c)
    ensures Collection(g, C, K, d)
    ensures var f := Fetch(c);
      && f.lookahead.Some? && f.state < |C| && |f.symstack| > 0 && f.status == Running
      && Offers(g, C, d, la, f.state, f.lookahead.value.sym, t)
      && (t > 0 ==> Step(T, h, c) == Shift(f, t))
      && (t < 0 ==> 1 <= 0 - t < |g.productions| && Item(0 - t, |g.Rhs(0 - t)|) in C[f.state]
                    && OffersReduce(g, C, la, f.state, f.lookahead.value.sym, 0 - t) && Step(T, h, c) == Reduce(T, f, 0 - t))
      && (t == 0 ==> Step(T, h, c) == f.(status := Returned(Some(f.symstack[|f.symstack| - 1].value))))
  {
    hide Collection, Reduce, Shift, RowOk, GotoRowOk;
    FetchViable(g, C, d, c);
    var f := Fetch(c);
    ViableFacts(g, C, d, f);
    var a := f.lookahead.value.sym;
    t := Lookup(T.action[f.state], a).value;
    ActionOffered(g, C, K, d, la, T, f.state, a, t);
  }

  lemma ShiftedTop(g: Cfg, C: seq<seq<Item>>, d: Delta, la: LookTable, follow: SetTable, f: Config, t: nat)
    requires g.WellFormed() && follow.Keys == g.nonterminals && f.lookahead.Some? && f.state < |C| && t > 0 && f.status == Running
    requires Offers(g, C, d, la, f.state, f.lookahead.value.sym, t)
    ensures TopFollowed(g, follow, Shift(f, t)) && Shift(f, t).status == Running
  {
    var it :| OffersShift(g, C, d, f.state, f.lookahead.value.sym, it) && t == d[(f.state, f.lookahead.value.sym)];
  }

  lemma ReducedTop(g: Cfg, C: seq<seq<Item>>, d: Delta, follow: SetTable, T: Tables, f: Config, p: nat)
    requires g.WellFormed() && follow.Keys == g.nonterminals && CanReduce(g, C, d, T, f, p) && f.lookahead.Some? && f.status == Running
    requires OffersReduce(g, C, SlrLooks(g, C, follow), f.state, f.lookahead.value.sym, p)
    ensures TopFollowed(g, follow, Reduce(T, f, p)) && Reduce(T, f, p).status == Running
  {
    hide *;
    SlrLook(g, C, follow, f.state, f.lookahead.value.sym, p);
    ReduceRoom(g, C, d, T, f, p);
    ReducedStacks(g, C, d, T, f, p);
    PushedTop(g, follow, Reduce(T, f, p), g.productions[p].name);
  }

  lemma ReduceRoom(g: Cfg, C: seq<seq<Item>>, d: Delta, T: Tables, f: Config, p: nat)
    requires CanReduce(g, C, d, T, f, p)
    ensures p < |g.productions| && |g.Rhs(p)| < |f.statestack|
  {
  }

  lemma SlrLook(g: Cfg, C: seq<seq<Item>>, follow: SetTable, q: nat, a: Symbol, p: nat)
    requires g.WellFormed() && follow.Keys == g.nonterminals && OffersReduce(g, C, SlrLooks(g, C, follow), q, a, p)
    ensures p < |g.productions| && g.productions[p].name in follow && a in follow[g.productions[p].name]
  {
  }

  lemma PushedTop(g: Cfg, follow: SetTable, c: Config, n: Symbol)
    requires follow.Keys == g.nonterminals && n in follow && c.lookahead.Some? && c.lookahead.value.sym in follow[n]
    requires |c.symstack| > 0 && c.symstack[|c.symstack| - 1].sym == n
    ensures TopFollowed(g, follow, c)
  {
  }

  lemma AcceptedTop(g: Cfg, C: seq<seq<Item>>, K: seq<seq<Item>>, d: Delta, la: LookTable, follow: SetTable, f: Config)
    requires Collection(g, C, K, d) && Viable(g, C, d, f) && f.state < |C| && f.lookahead.Some? && TopFollowed(g, follow, f)
    requires Offers(g, C, d, la, f.state, f.lookahead.value.sym, 0)
    ensures g.WellFormed() && End in follow[g.Start()]
  {
    hide Collection;
    var n := |f.statestack|;
    ItemsOnStack(g, C, K, d, f, n, Item(0, 1));
    assert f.symstack[n - 1 + 0].sym == g.Rhs(0)[0];
  }

  lemma SameTop(g: Cfg, follow: SetTable, f: Config, c: Config)
    requires TopFollowed(g, follow, f) && c == f.(status := c.status)
    ensures TopFollowed(g, follow, c)
  {
  }

  lemma {:induction false} RunFollowed(g: Cfg, C: seq<seq<Item>>, K: seq<seq<Item>>, d: Delta, follow: SetTable, T: Tables,
                                       h: bool, c: Config, n: nat)
    requires g.WellFormed() && follow.Keys == g.nonterminals && Built(g, C, K, d, SlrLooks(g, C, follow), T)
    requires Viable(g, C, d, c) && c.status == Running && TopFollowed(g, follow, c) && RunsClean(T, h, c, n)
    ensures Run(T, h, c, n).status.Returned? ==> End in follow[g.Start()]
    decreases n
  {
    hide Built, Viable, TopFollowed, Step, Errs;
    if n > 0 {
      StepFollowed(g, C, K, d, follow, T, h, c);
      StepViable(g, C, K, d, SlrLooks(g, C, follow), T, h, c);
      RunStep(T, h, c, n);
      if Step(T, h, c).status == Running {
        RunFollowed(g, C, K, d, follow, T, h, Step(T, h, c), n - 1);
      } else {
        RunStep(T, h, Step(T, h, c), n - 1);
      }
    }
  }

  /** Without `$end` in FOLLOW of the start symbol the tables accept nothing at all. */
  lemma NothingAccepted(g: Cfg, C: seq<seq<Item>>, K: seq<seq<Item>>, d: Delta, follow: SetTable, T: Tables, h: bool,
                        w: seq<Symbol>, n: nat)
    requires g.WellFormed() && follow.Keys == g.nonterminals && Built(g, C, K, d, SlrLooks(g, C, follow), T)
    requires End !in follow[g.Start()] && RunsClean(T, h, Initial(w), n)
    ensures Run(T, h, Initial(w), n).status == Running
  {
    hide Collection, Filled, Viable;
    InitialViable(g, C, K, d, w);
    RunViable(g, C, K, d, SlrLooks(g, C, follow), T, h, Initial(w), n);
    RunFollowed(g, C, K, d, follow, T, h, Initial(w), n);
  }

  /** SLR tables without conflicts: what they accept is the language of the grammar when the start
      symbol can end a sentential form of the symbol that FOLLOW was computed for, and nothing when it
      cannot. */
  lemma SlrAcceptsExactly(g: Cfg, C: seq<seq<Item>>, K: seq<seq<Item>>, d: Delta, start: Symbol, F: SetTable, follow: SetTable,
                          T: Tables, h: bool, w: seq<Symbol>)
    requires Collection(g, C, K, d) && SetsClosed(g, start, F, follow) && FirstSound(g, F) && FollowExact(g, start, follow)
    requires Filled(g, C, d, SlrLooks(g, C, follow), T) && ConflictFree(g, C, d, SlrLooks(g, C, follow)) && Terminals(g, w)
    ensures (exists n :: RunsClean(T, h, Initial(w), n) && Run(T, h, Initial(w), n).status != Running) <==>
            Derives(g, [g.Start()], w) && exists u :: Derives(g, [start], u + [g.Start()])
  {
    hide Collection, FirstSound, Filled, ConflictFree, FollowClosed, FirstClosed, FirstKeys, SlrLooks, SlrFollows, RunsClean, Run, Derives;
    var la := SlrLooks(g, C, follow);
    StartEnds(g, start, follow);
    if End in follow[g.Start()] {
      SlrAdequate(g, C, K, d, start, F, follow);
      LanguageIsAccepted(g, C, K, d, SlrFollows(g, C, follow), la, T, h, w);
    } else {
      forall n: nat | RunsClean(T, h, Initial(w), n) ensures Run(T, h, Initial(w), n).status == Running {
        NothingAccepted(g, C, K, d, follow, T, h, w, n);
      }
    }
  }

  lemma StartEnds(g: Cfg, start: Symbol, follow: SetTable)
    requires g.WellFormed() && FollowExact(g, start, follow)
    ensures g.Start() in follow && (End in follow[g.Start()] <==> exists u :: Derives(g, [start], u + [g.Start()]))
  {
    hide Derives;
    assert End in follow[g.Start()] <==> FollowFact(g, start, g.Start(), End);
  }

  /** Naming the first rule's symbol as the start symbol is enough. */
  lemma FirstRuleStarts(g: Cfg, start: Symbol)
    requires g.WellFormed() && start == g.Start()
    ensures exists u :: Derives(g, [start], u + [g.Start()])
  {
    DerivesSelf(g, [start]);
    assert [start] == [] + [start];
  }

  /** Then the FOLLOW sets are adequate, with or without conflicts. */
  lemma FirstRuleAdequate(g: Cfg, C: seq<seq<Item>>, K: seq<seq<Item>>, d: Delta, F: SetTable, follow: SetTable)
    requires g.WellFormed() && Collection(g, C, K, d)
    requires SetsClosed(g, g.Start(), F, follow) && FirstSound(g, F) && FollowExact(g, g.Start(), follow)
    ensures Adequate(g, C, d, SlrFollows(g, C, follow), SlrLooks(g, C, follow))
  {
    hide *;
    StartEnds(g, g.Start(), follow);
    FirstRuleStarts(g, g.Start());
    SlrAdequate(g, C, K, d, g.Start(), F, follow);
  }

  /** And tables without conflicts accept exactly the language. */
  lemma SlrAcceptsLanguage(g: Cfg, C: seq<seq<Item>>, K: seq<seq<Item>>, d: Delta, F: SetTable, follow: SetTable, T: Tables, h: bool,
                           w: seq<Symbol>)
    requires g.WellFormed() && Collection(g, C, K, d)
    requires SetsClosed(g, g.Start(), F, follow) && FirstSound(g, F) && FollowExact(g, g.Start(), follow)
    requires Filled(g, C, d, SlrLooks(g, C, follow), T) && ConflictFree(g, C, d, SlrLooks(g, C, follow)) && Terminals(g, w)
    ensures (exists n :: RunsClean(T, h, Initial(w), n) && Run(T, h, Initial(w), n).status != Running) <==>
            Derives(g, [g.Start()], w)
  {
    hide *;
    FirstRuleStarts(g, g.Start());
    SlrAcceptsExactly(g, C, K, d, g.Start(), F, follow, T, h, w);
  }

  // ----- A grammar that loses its language -----

  /** A: a, then S: A, with S named as the start symbol. */
  function SecondRuleStart(): Cfg {
    Cfg([Production(Augmented, [Sym("S")], NO_PRECEDENCE, 0), Production(Sym("A"), [Sym("a")], NO_PRECEDENCE, 1),
         Production(Sym("S"), [Sym("A")], NO_PRECEDENCE, 2)], {Error, Sym("a")}, {Sym("S"), Sym("A")}, map[])
  }

  ghost predicate Startless(w: seq<Symbol>) {
    forall i :: 0 <= i < |w| ==> w[i] != Sym("S") && w[i] != Augmented
  }

  lemma {:induction false} StartlessForms(a: seq<Symbol>, w: seq<Symbol>, n: nat)
    requires Startless(a) && DerivesIn(SecondRuleStart(), a, w, n)
    ensures Startless(w) && (w != [] ==> w[|w| - 1] != Sym("S"))
    decreases n
  {
    if n > 0 {
      var g := SecondRuleStart();
      var c :| Rewrites(g, a, c) && DerivesIn(g, c, w, n - 1);
      var i: nat, p: nat :| RewritesAt(g, a, c, i, p);
      StartlessStep(a, c, i, p);
      StartlessForms(c, w, n - 1);
    }
  }

  lemma StartlessStep(a: seq<Symbol>, c: seq<Symbol>, i: nat, p: nat)
    requires Startless(a) && RewritesAt(SecondRuleStart(), a, c, i, p)
    ensures Startless(c)
  {
    assert p == 1;
    assert c == a[..i] + [Sym("a")] + a[i + 1..];
    forall k | 0 <= k < |c| ensures c[k] != Sym("S") && c[k] != Augmented {
      assert k != i ==> c[k] == a[k];
    }
  }

  /** FOLLOW is computed for A, the symbol of the first rule, and S ends no form of A. */
  lemma SecondRuleStartForms()
    ensures var g := SecondRuleStart();
      && g.WellFormed() && g.productions[1].name == Sym("A") && Derives(g, [g.Start()], [Sym("a")])
      && !exists u :: Derives(g, [Sym("A")], u + [g.Start()])
  {
    var g := SecondRuleStart();
    SecondRuleWellFormed();
    DerivesProduction(g, 2);
    DerivesProduction(g, 1);
    DerivesTrans(g, [Sym("S")], [Sym("A")], [Sym("a")]);
    if u :| Derives(g, [Sym("A")], u + [g.Start()]) {
      var n: nat :| DerivesIn(g, [Sym("A")], u + [g.Start()], n);
      StartlessForms([Sym("A")], u + [g.Start()], n);
    }
  }

  /** So with any SLR tables of this grammar, and on any input, a parse that has met no syntax error has
      not returned: the string of its language is not accepted either. */
  lemma SecondRuleStartFails(C: seq<seq<Item>>, K: seq<seq<Item>>, d: Delta, follow: SetTable, T: Tables, h: bool,
                             w: seq<Symbol>, n: nat)
    requires var g := SecondRuleStart();
      && g.WellFormed() && Collection(g, C, K, d) && FollowExact(g, g.productions[1].name, follow)
      && Filled(g, C, d, SlrLooks(g, C, follow), T)
    ensures Derives(SecondRuleStart(), [SecondRuleStart().Start()], [Sym("a")])
    ensures RunsClean(T, h, Initial(w), n) ==> Run(T, h, Initial(w), n).status == Running
  {
    hide Collection, Filled, FollowFact, Derives, RunsClean, Run;
    var g := SecondRuleStart();
    SecondRuleStartForms();
    StartEnds(g, Sym("A"), follow);
    if RunsClean(T, h, Initial(w), n) {
      NothingAccepted(g, C, K, d, follow, T, h, w, n);
    }
  }

  lemma SecondRuleWellFormed()
    ensures SecondRuleStart().WellFormed()
  {
    var g := SecondRuleStart();
    forall n | n in g.nonterminals ensures exists p :: 1 <= p < |g.productions| && g.productions[p].name == n {
      assert n == g.productions[if n == Sym("A") then 1 else 2].name;
    }
  }
}
