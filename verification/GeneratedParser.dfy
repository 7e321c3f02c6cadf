/** The generator and the engine put together: from a grammar object to the value of a parse. */
module GeneratedParser {
  import opened Grammars
  import opened GrammarFacts
  import opened Analysis
  import opened Items
  import opened ParserTables
  import opened TableFill
  import opened Relations
  import opened Lookaheads
  import opened Generator
  import opened Engine
  import opened EngineFacts
  import opened Soundness
  import opened ActiveStates
  import opened FollowBounds
  import opened SlrLalr
  import opened Halting
  import opened Recovery

  /** No rule mentions the reserved symbol `error`. */
  ghost predicate ErrorFree(g: Cfg) {
    forall p :: 0 <= p < |g.productions| ==> Error !in g.Rhs(p)
  }

  lemma {:induction false} ErrorFreeForms(g: Cfg, a: seq<Symbol>, w: seq<Symbol>, n: nat)
    requires ErrorFree(g) && Error !in a && DerivesIn(g, a, w, n)
    ensures Error !in w
    decreases n
  {
    if n > 0 {
      var c :| Rewrites(g, a, c) && DerivesIn(g, c, w, n - 1);
      var i: nat, p: nat :| RewritesAt(g, a, c, i, p);
      assert Error !in g.Rhs(p);
      ErrorFreeForms(g, c, w, n - 1);
    }
  }

  /** Then it is in no FOLLOW set either. */
  lemma SlrErrorFree(g: Cfg, C: seq<seq<Item>>, start: Symbol, follow: SetTable)
    requires g.WellFormed() && ErrorFree(g) && FollowExact(g, start, follow)
    ensures NoErrorRules(g, SlrLooks(g, C, follow))
  {
    forall n | n in follow ensures Error !in follow[n] {
      if Error in follow[n] {
        ErrorFollows(g, start, n);
      }
    }
  }

  lemma ErrorFollows(g: Cfg, start: Symbol, n: Symbol)
    requires g.WellFormed() && ErrorFree(g)
    ensures !FollowFact(g, start, n, Error)
  {
    if FollowFact(g, start, n, Error) {
      var m, u, v :| m in g.nonterminals && Derives(g, [m], u + [n, Error] + v);
      var k: nat :| DerivesIn(g, [m], u + [n, Error] + v, k);
      ErrorFreeForms(g, [m], u + [n, Error] + v, k);
    }
  }

  /** And in no LALR lookahead set: it can be read nowhere. */
  lemma LalrErrorFree(g: Cfg, C: seq<seq<Item>>, K: seq<seq<Item>>, d: Delta, la: LookTable)
    requires ErrorFree(g) && Collection(g, C, K, d) && OnlyRead(g, d, la)
    ensures NoErrorRules(g, la)
  {
    hide Collection;
    forall e | e in la ensures Error !in la[e] {
      if Error in la[e] {
        assert ShiftedOrEnd(g, d, Error);
        var q: nat :| (q, Error) in d && Error in g.terminals;
        var it := EdgeItem(g, C, K, d, q, Error);
      }
    }
  }

  /** Generate tables for the grammar and parse `w` with them, for at most `fuel` rounds. Whatever the
      grammar, whatever way its conflicts were settled and whatever errors occurred on the way: no
      exception is raised, and a value is a derivation tree, from the start symbol, of a suffix of `w`. */
  method BuildAndParse(grammar: Grammar, lalr: bool, hasErrorFunc: bool, w: seq<Symbol>, fuel: nat)
    returns (tables: TableStatus, result: Status)
    requires grammar.cfg.WellFormed() && grammar.First == map[] && grammar.Follow == map[]
    requires End !in w && Error !in w
    modifies grammar
    ensures tables == TablesReady ==> result != Crashed
    ensures tables == TablesReady && ErrorFree(grammar.cfg) && result.Returned? && result.result.Some? ==>
              var g, t := grammar.cfg, result.result.value;
              ValidTree(g, t) && Root(g, t) == g.Start() && exists k :: 0 <= k <= |w| && Yield(t) == w[k..]
  {
    hide *;
    var T: Tables, table: LRGeneratedTable;
    ghost var la: LookTable, fol: FollowMap;
    result := Running;
    tables, T, table, la, fol := GenerateTables(grammar, lalr);
    if tables == TablesReady {
      var parser := new LRParser(T, hasErrorFunc);
      result := parser.ParseRounds(w, fuel);
      ghost var g, C, K, d := table.cfg, table.objects, table.kernels, table.delta;
      BuiltTables(g, C, K, d, la, T);
      ViablePrefix(g, C, K, d, la, T, hasErrorFunc, w, fuel);
      if ErrorFree(g) && result.Returned? && result.result.Some? {
        if lalr {
          LalrErrorFree(g, C, K, d, la);
        } else {
          SlrErrorFree(g, C, g.productions[1].name, grammar.Follow);
        }
        InitialFresh(w);
        ghost var k := ResultParsesSuffix(g, C, K, d, la, T, hasErrorFunc, w, 0, fuel, result.result.value);
      }
    }
  }

  lemma BuiltTables(g: Cfg, C: seq<seq<Item>>, K: seq<seq<Item>>, d: Delta, la: LookTable, T: Tables)
    requires g.WellFormed() && Collection(g, C, K, d) && Filled(g, C, d, la, T)
    ensures Built(g, C, K, d, la, T) && |g.productions| >= 2
  {
  }

  lemma InitialFresh(w: seq<Symbol>)
    ensures Fresh(w, 0) == Initial(w)
  {
  }

  // ----- Tables without conflicts -----

  lemma GeneratedErrorFree(g: Cfg, C: seq<seq<Item>>, K: seq<seq<Item>>, d: Delta, lalr: bool, start: Symbol, follow: SetTable, la: LookTable)
    requires g.WellFormed() && ErrorFree(g) && Collection(g, C, K, d) && FollowExact(g, start, follow)
    requires if lalr then OnlyRead(g, d, la) else la == SlrLooks(g, C, follow)
    ensures NoErrorRules(g, la)
  {
    hide Collection, ErrorFree, OnlyRead, FollowFact, NoErrorRules;
    if lalr {
      LalrErrorFree(g, C, K, d, la);
    } else {
      SlrErrorFree(g, C, start, follow);
    }
  }

  /** Generated tables without conflicts, of a grammar without infinite recursion and error rules, decide
      its language: the run ends on every input, raises no exception, and is free of syntax errors
      exactly on the strings of the language. */
  lemma GeneratedDecides(g: Cfg, C: seq<seq<Item>>, K: seq<seq<Item>>, d: Delta, lalr: bool, start: Symbol, follow: SetTable,
                         fol: FollowMap, la: LookTable, T: Tables, h: bool, w: seq<Symbol>) returns (n: nat)
    requires g.WellFormed() && Collection(g, C, K, d) && FollowExact(g, start, follow)
    requires if lalr then OnlyRead(g, d, la) else la == SlrLooks(g, C, follow)
    requires Adequate(g, C, d, fol, la) && Filled(g, C, d, la, T) && ConflictFree(g, C, d, la)
    requires ErrorFree(g) && AllProductive(g) && Terminals(g, w) && Error !in w
    ensures Run(T, h, Initial(w), n).status.Returned?
    ensures Derives(g, [g.Start()], w) <==> RunsClean(T, h, Initial(w), n)
  {
    hide *;
    GeneratedErrorFree(g, C, K, d, lalr, start, follow, la);
    DeterministicFrom(g, C, K, d, fol, la, T);
    n := ParserDecides(g, C, K, d, fol, la, T, h, w);
  }

  // ----- SLR grammars -----

  /** The SLR tables of the grammar have no conflict, FOLLOW being computed for the first rule's name, and
      `$end` can follow the start symbol. */
  ghost predicate SlrGrammar(g: Cfg) {
    && g.WellFormed() && FollowFact(g, g.productions[1].name, g.Start(), End)
    && forall C, K, d, follow {:trigger Collection(g, C, K, d), SlrLooks(g, C, follow)} ::
         Collection(g, C, K, d) && FollowExact(g, g.productions[1].name, follow) ==> ConflictFree(g, C, d, SlrLooks(g, C, follow))
  }

  lemma SlrFacts(g: Cfg, C: seq<seq<Item>>, K: seq<seq<Item>>, d: Delta, follow: SetTable)
    requires g.WellFormed() && SlrGrammar(g) && Collection(g, C, K, d) && FollowExact(g, g.productions[1].name, follow)
    ensures ConflictFree(g, C, d, SlrLooks(g, C, follow)) && End in follow[g.Start()]
  {
    hide Collection, FollowFact, ConflictFree, SlrLooks;
    assert FollowFact(g, g.productions[1].name, g.Start(), End);
  }

  /** Both methods give tables of such a grammar that are adequate and free of conflicts. */
  lemma SlrGrammarTables(g: Cfg, C: seq<seq<Item>>, K: seq<seq<Item>>, d: Delta, lalr: bool, F: SetTable, follow: SetTable,
                         fol: FollowMap, la: LookTable) returns (fol': FollowMap)
    requires g.WellFormed() && SlrGrammar(g) && AllProductive(g) && Collection(g, C, K, d)
    requires SetsClosed(g, g.productions[1].name, F, follow) && FirstExact(g, F) && FollowExact(g, g.productions[1].name, follow)
    requires if lalr then Adequate(g, C, d, fol, la) && Bounded(g, d, la) else la == SlrLooks(g, C, follow)
    ensures Adequate(g, C, d, fol', la) && ConflictFree(g, C, d, la)
  {
    hide SlrGrammar, Collection, AllProductive, Adequate, Bounded, ConflictFree, SetsClosed, FollowFact, FirstFact, SlrLooks, SlrFollows;
    StartBounds(g);
    SlrFacts(g, C, K, d, follow);
    if lalr {
      fol' := fol;
      SlrImpliesLalr(g, C, K, d, g.productions[1].name, F, follow, la);
    } else {
      fol' := SlrFollows(g, C, follow);
      SlrAdequate(g, C, K, d, g.productions[1].name, F, follow);
    }
  }

  lemma NoAcceptClash(g: Cfg, C: seq<seq<Item>>, d: Delta, la: LookTable, q: nat)
    requires ConflictFree(g, C, d, la)
    ensures q < |C| ==> !AcceptClash(g, C, la, q)
  {
    if q < |C| && AcceptClash(g, C, la, q) {
      var p: nat :| OffersReduce(g, C, la, q, End, p);
      var reduce: int := 0 - p;
      assert Unanimous(g, C, d, la, q, End);
      assert Offers(g, C, d, la, q, End, 0) && Offers(g, C, d, la, q, End, reduce);
    }
  }

  /** A derivation tree of `w` from the start symbol. */
  ghost predicate IsParse(g: Cfg, t: Tree, w: seq<Symbol>)
    requires g.WellFormed()
  {
    ValidTree(g, t) && Root(g, t) == g.Start() && Yield(t) == w
  }

  lemma ParsedIffDerived(g: Cfg, C: seq<seq<Item>>, K: seq<seq<Item>>, d: Delta, la: LookTable, T: Tables, h: bool, w: seq<Symbol>, n: nat)
    requires g.WellFormed() && Collection(g, C, K, d) && Filled(g, C, d, la, T) && Terminals(g, w)
    requires Run(T, h, Initial(w), n).status.Returned? && (Derives(g, [g.Start()], w) <==> RunsClean(T, h, Initial(w), n))
    ensures var r := Run(T, h, Initial(w), n).status.result; Derives(g, [g.Start()], w) <==> r.Some? && IsParse(g, r.value, w)
  {
    hide Collection, Filled, Run, RunsClean, Derives, Terminals;
    var r := Run(T, h, Initial(w), n).status.result;
    NoEnd(g, w);
    if RunsClean(T, h, Initial(w), n) {
      AcceptedIsDerivation(g, C, K, d, la, T, h, w, n);
    }
    if r.Some? && IsParse(g, r.value, w) {
      TreeDerives(g, r.value);
    }
  }

  /** An SLR grammar put through either method: the tables are generated, the parser built from them
      returns on every string of tokens, and it returns a derivation tree with this string as its yield
      exactly when the string is in the language. */
  method BuildAndDecide(grammar: Grammar, lalr: bool, hasErrorFunc: bool, w: seq<Symbol>) returns (tables: TableStatus, result: Status)
    requires grammar.cfg.WellFormed() && SlrGrammar(grammar.cfg) && AllProductive(grammar.cfg) && ErrorFree(grammar.cfg)
    requires grammar.First == map[] && grammar.Follow == map[]
    requires Terminals(grammar.cfg, w) && Error !in w
    modifies grammar
    ensures tables == TablesReady || tables == OutOfMemory
    ensures var g := grammar.cfg; tables == TablesReady ==>
              && result.Returned?
              && (Derives(g, [g.Start()], w) <==> result.result.Some? && IsParse(g, result.result.value, w))
  {
    hide *;
    StartBounds(grammar.cfg);
    result := Running;
    var T: Tables, table: LRGeneratedTable;
    ghost var la: LookTable, fol: FollowMap;
    tables, T, table, la, fol := GenerateTables(grammar, lalr);
    ghost var g, C, K, d, start := table.cfg, table.objects, table.kernels, table.delta, table.cfg.productions[1].name;
    if tables != OutOfMemory {
      fol := SlrGrammarTables(g, C, K, d, lalr, grammar.First, grammar.Follow, fol, la);
      forall q: nat | q < |C| ensures !AcceptClash(g, C, la, q) {
        NoAcceptClash(g, C, d, la, q);
      }
      ghost var n := GeneratedDecides(g, C, K, d, lalr, start, grammar.Follow, fol, la, T, hasErrorFunc, w);
      var parser := new LRParser(T, hasErrorFunc);
      result := parser.ParseOptNoTrack(w, n);
      ParsedIffDerived(g, C, K, d, la, T, hasErrorFunc, w, n);
    }
  }

  // ----- A grammar that meets the conditions -----

  /** S: ( S ) | x. */
  function Nested(): Cfg {
    var s, l, r, x := Sym("S"), Sym("("), Sym(")"), Sym("x");
    Cfg([Production(Augmented, [s], NO_PRECEDENCE, 0), Production(s, [l, s, r], NO_PRECEDENCE, 1), Production(s, [x], NO_PRECEDENCE, 2)],
        {Error, l, r, x}, {s}, map[])
  }

  lemma NestedRules(it: Item, y: Symbol)
    ensures var s, l, r, x := Sym("S"), Sym("("), Sym(")"), Sym("x");
      DotBefore(Nested(), it, y) <==>
        || (it == Item(0, 0) && y == s) || (it == Item(1, 0) && y == l) || (it == Item(1, 1) && y == s) || (it == Item(1, 2) && y == r)
        || (it == Item(2, 0) && y == x)
    ensures Complete(Nested(), it) <==> it == Item(0, 1) || it == Item(1, 3) || it == Item(2, 1)
  {
  }

  lemma NestedWellFormed()
    ensures Nested().WellFormed()
  {
    var g := Nested();
    forall n | n in g.nonterminals ensures exists p :: 1 <= p < |g.productions| && g.productions[p].name == n {
      assert n == g.productions[1].name;
    }
  }

  lemma NestedSymbols()
    requires Nested().WellFormed()
    ensures ErrorFree(Nested()) && Nested().Start() == Sym("S") && Nested().productions[1].name == Sym("S")
  {
  }

  /** A state in which a rule is complete has no other item. */
  lemma NestedAlone(C: seq<seq<Item>>, K: seq<seq<Item>>, d: Delta, q: nat, it: Item, r: Item)
    requires Nested().WellFormed() && Collection(Nested(), C, K, d) && q < |C|
    requires it in C[q] && r in C[q] && (it == Item(1, 3) || it == Item(2, 1))
    ensures r == it
  {
    hide Collection, DotBefore;
    var g := Nested();
    var e := Predecessor(g, C, K, d, q, it);
    UnmoveItem(g, C, K, d, e.0, e.1, it);
    NestedRules(Item(it.num, it.dot - 1), e.1);
    StateBound(g, C, K, d, e.0, e.1);
    var t := r;
    if r.dot == 0 {
      StartItem(g, C, K, d, q);
      t := InitialItem(g, C, K, d, q, r);
      NestedRules(t, g.productions[r.num].name);
    }
    UnmoveItem(g, C, K, d, e.0, e.1, t);
    NestedRules(Item(t.num, t.dot - 1), e.1);
  }

  lemma NestedUnanimous(C: seq<seq<Item>>, K: seq<seq<Item>>, d: Delta, la: LookTable, q: nat, a: Symbol, x: int, y: int)
    requires Nested().WellFormed() && Collection(Nested(), C, K, d) && q < |C|
    requires Offers(Nested(), C, d, la, q, a, x) && Offers(Nested(), C, d, la, q, a, y)
    ensures x == y
  {
    hide Collection, DotBefore;
    var s := NestedOffer(C, d, la, q, a, x);
    var t := NestedOffer(C, d, la, q, a, y);
    NestedRules(s, a);
    NestedRules(t, a);
    if x < 0 {
      NestedAlone(C, K, d, q, s, t);
    }
    if y < 0 {
      NestedAlone(C, K, d, q, t, s);
    }
  }

  /** The item behind an action. */
  lemma NestedOffer(C: seq<seq<Item>>, d: Delta, la: LookTable, q: nat, a: Symbol, act: int) returns (it: Item)
    requires Nested().WellFormed() && Offers(Nested(), C, d, la, q, a, act)
    ensures q < |C| && it in C[q]
    ensures act < 0 ==> (it == Item(1, 3) || it == Item(2, 1)) && act == 0 - it.num
    ensures act == 0 ==> it == Item(0, 1) && a == End
    ensures act > 0 ==> DotBefore(Nested(), it, a) && a != End && (q, a) in d && act == d[(q, a)]
  {
    hide DotBefore;
    if act < 0 {
      it := Item(0 - act, |Nested().Rhs(0 - act)|);
    } else if act == 0 {
      it := Item(0, 1);
    } else {
      it :| OffersShift(Nested(), C, d, q, a, it);
    }
  }

  /** It is an SLR grammar, without infinite recursion or error rules. */
  lemma NestedIsSlr()
    ensures SlrGrammar(Nested()) && AllProductive(Nested()) && ErrorFree(Nested())
  {
    hide Collection, FollowFact, Unanimous, Offers, SlrLooks, ErrorFree, Productive, Derives;
    var g, s := Nested(), Sym("S");
    NestedWellFormed();
    NestedSymbols();
    NestedForms();
    forall C, K, d, follow {:trigger Collection(g, C, K, d), SlrLooks(g, C, follow)}
      | Collection(g, C, K, d) && FollowExact(g, g.productions[1].name, follow)
      ensures ConflictFree(g, C, d, SlrLooks(g, C, follow))
    {
      forall q, a | 0 <= q < |C| ensures Unanimous(g, C, d, SlrLooks(g, C, follow), q, a) {
        NestedSlot(C, K, d, SlrLooks(g, C, follow), q, a);
      }
    }
  }

  lemma NestedSlot(C: seq<seq<Item>>, K: seq<seq<Item>>, d: Delta, la: LookTable, q: nat, a: Symbol)
    requires Nested().WellFormed() && Collection(Nested(), C, K, d) && q < |C|
    ensures Unanimous(Nested(), C, d, la, q, a)
  {
    hide Collection, Offers;
    forall x, y | Offers(Nested(), C, d, la, q, a, x) && Offers(Nested(), C, d, la, q, a, y) ensures x == y {
      NestedUnanimous(C, K, d, la, q, a, x, y);
    }
  }

  lemma NestedForms()
    requires Nested().WellFormed()
    ensures FollowFact(Nested(), Sym("S"), Sym("S"), End) && Productive(Nested(), Sym("S"))
  {
    hide Derives;
    var g, s := Nested(), Sym("S");
    DerivesSelf(g, [s]);
    assert [s] == [] + [s];
    DerivesProduction(g, 2);
    assert g.Rhs(2) == [Sym("x")];
  }
}
