/** A grammar whose SLR table has a row without entries, and an input on which the parser behaves
    differently once the table has been written to its file and loaded again. */
module LostRow {
  import opened Lists
  import opened Grammars
  import opened GrammarFacts
  import opened Items
  import opened ParserTables
  import opened Engine
  import opened TableFill
  import opened TableFile
  import opened SlrLanguage

  // ----- FOLLOW of the grammar A: a, S: A -----

  lemma {:induction false} SameLength(a: seq<Symbol>, b: seq<Symbol>, n: nat)
    requires DerivesIn(SecondRuleStart(), a, b, n)
    ensures |a| == |b|
    decreases n
  {
    if n > 0 {
      var g := SecondRuleStart();
      var c :| Rewrites(g, a, c) && DerivesIn(g, c, b, n - 1);
      var i: nat, p: nat :| RewritesAt(g, a, c, i, p);
      assert |g.productions[p].rhs| == 1;
      SameLength(c, b, n - 1);
    }
  }

  /** Nothing ever follows S: FOLLOW is computed for A, and S ends no form of A. */
  lemma SecondRuleFollow(follow: SetTable)
    requires FollowExact(SecondRuleStart(), Sym("A"), follow)
    ensures Sym("S") in follow && Sym("A") in follow && End in follow[Sym("A")] && follow[Sym("S")] == []
  {
    var g, s, t := SecondRuleStart(), Sym("A"), Sym("S");
    DerivesSelf(g, [s]);
    assert [s] == [] + [s];
    assert FollowFact(g, s, s, End);
    if follow[t] != [] {
      var a := follow[t][0];
      assert FollowFact(g, s, t, a);
      SecondRuleStartForms();
      assert a != End;
      var n, u, v :| n in g.nonterminals && Derives(g, [n], u + [t, a] + v);
      var k: nat :| DerivesIn(g, [n], u + [t, a] + v, k);
      SameLength([n], u + [t, a] + v, k);
    }
  }

  // ----- The states -----

  lemma SecondRules(it: Item, x: Symbol)
    ensures DotBefore(SecondRuleStart(), it, x) <==>
      (it == Item(0, 0) && x == Sym("S")) || (it == Item(1, 0) && x == Sym("a")) || (it == Item(2, 0) && x == Sym("A"))
    ensures Complete(SecondRuleStart(), it) <==> it == Item(0, 1) || it == Item(1, 1) || it == Item(2, 1)
  {
  }

  lemma SecondRuleFirst(C: seq<seq<Item>>, K: seq<seq<Item>>, d: Delta)
    requires Collection(SecondRuleStart(), C, K, d)
    ensures 0 < |C| && Item(1, 0) in C[0] && Item(2, 0) in C[0] && forall it :: it in C[0] ==> it.dot == 0
  {
    hide Collection, DotBefore;
    var g := SecondRuleStart();
    SomeState(g, C, K, d);
    StartItem(g, C, K, d, 0);
    SecondRules(Item(0, 0), Sym("S"));
    SecondRules(Item(2, 0), Sym("A"));
    CloseItem(g, C, K, d, 0, Item(0, 0), 2);
    CloseItem(g, C, K, d, 0, Item(2, 0), 1);
    forall it | it in C[0] ensures it.dot == 0 {
      StateZero(g, C, K, d, it);
    }
  }

  lemma SomeState(g: Cfg, C: seq<seq<Item>>, K: seq<seq<Item>>, d: Delta)
    requires Collection(g, C, K, d)
    ensures 0 < |C|
  {
  }

  /** The state behind the item `it` of the first state holds this item only, with its dot moved. */
  lemma SecondRuleNext(C: seq<seq<Item>>, K: seq<seq<Item>>, d: Delta, it: Item, x: Symbol) returns (q: nat)
    requires Collection(SecondRuleStart(), C, K, d) && 0 < |C| && it in C[0] && DotBefore(SecondRuleStart(), it, x)
    ensures (0, x) in d && d[(0, x)] == q && 0 < q < |C| && it.Next() in C[q]
    ensures forall r :: r in C[q] ==> r == it.Next()
  {
    hide Collection, DotBefore;
    var g := SecondRuleStart();
    SecondRules(it, x);
    MoveItem(g, C, K, d, 0, it, x);
    q := d[(0, x)];
    StateBound(g, C, K, d, 0, x);
    forall r | r in C[q] ensures r == it.Next() {
      StateItems(g, C, K, d, q, r);
      SecondRuleOnly(C, K, d, it, x, r);
    }
  }

  lemma SecondRuleOnly(C: seq<seq<Item>>, K: seq<seq<Item>>, d: Delta, it: Item, x: Symbol, r: Item)
    requires Collection(SecondRuleStart(), C, K, d) && (0, x) in d && r in C[d[(0, x)]]
    requires DotBefore(SecondRuleStart(), it, x)
    ensures r == it.Next()
  {
    hide Collection, DotBefore;
    var g, q := SecondRuleStart(), d[(0, x)];
    SomeState(g, C, K, d);
    SecondRules(it, x);
    StateBound(g, C, K, d, 0, x);
    if r.dot > 0 {
      UnmoveItem(g, C, K, d, 0, x, r);
      SecondRules(Item(r.num, r.dot - 1), x);
    } else {
      NoInitials(C, K, d, q, r);
    }
  }

  /** Outside state 0 nothing calls for an initial item. */
  lemma NoInitials(C: seq<seq<Item>>, K: seq<seq<Item>>, d: Delta, q: nat, r: Item)
    requires Collection(SecondRuleStart(), C, K, d) && 0 < q < |C| && r in C[q]
    ensures r.dot > 0
  {
    hide Collection, DotBefore;
    var g := SecondRuleStart();
    StartItem(g, C, K, d, q);
    if r.dot == 0 {
      var c := InitialItem(g, C, K, d, q, r);
      SecondRules(c, g.productions[r.num].name);
      var c' := InitialItem(g, C, K, d, q, c);
      SecondRules(c', g.productions[c.num].name);
    }
  }

  // ----- The rows, and the run on the input a -----

  /** Tables filled for the grammar by the SLR method. */
  ghost predicate SecondTables(C: seq<seq<Item>>, K: seq<seq<Item>>, d: Delta, follow: SetTable, T: Tables) {
    var g := SecondRuleStart();
    && g.WellFormed() && Collection(g, C, K, d) && FollowExact(g, Sym("A"), follow) && Filled(g, C, d, SlrLooks(g, C, follow), T)
    && forall q :: 0 <= q < |C| ==> RowSettled(g, d, SlrLooks(g, C, follow), q, C[q], T.action[q])
  }

  /** The state behind A has no entry at all: it waits for what can follow S. */
  lemma EmptyRow(C: seq<seq<Item>>, K: seq<seq<Item>>, d: Delta, follow: SetTable, T: Tables, q: nat)
    requires SecondTables(C, K, d, follow, T) && q < |C| && forall r :: r in C[q] ==> r == Item(2, 1)
    ensures q in T.action && T.action[q] == map[]
  {
    hide Collection, RowOk, GotoRowOk, FollowFact;
    var g, la := SecondRuleStart(), SlrLooks(SecondRuleStart(), C, follow);
    SecondRuleFollow(follow);
    forall a ensures a !in T.action[q] {
      assert SlotSettled(g, d, la, q, C[q], T.action[q], a);
      assert !Speaks(g, d, la, q, a, Item(2, 1));
    }
  }

  lemma TablesFacts(C: seq<seq<Item>>, K: seq<seq<Item>>, d: Delta, follow: SetTable, T: Tables, q: nat)
    requires SecondTables(C, K, d, follow, T) && q < |C|
    ensures var g := SecondRuleStart();
      && g.WellFormed() && follow.Keys == g.nonterminals && q in T.action && q in T.goto && T.productions == g.productions
      && RowOk(g, C, d, SlrLooks(g, C, follow), q, T.action[q]) && GotoRowOk(g, d, q, T.goto[q])
  {
    hide Collection, RowOk, GotoRowOk, FollowFact;
  }

  lemma ShiftRow(C: seq<seq<Item>>, K: seq<seq<Item>>, d: Delta, follow: SetTable, T: Tables, q: nat)
    requires SecondTables(C, K, d, follow, T) && 0 < |C| && (0, Sym("a")) in d && d[(0, Sym("a"))] == q > 0
    requires Item(1, 0) in C[0] && forall it :: it in C[0] ==> it.dot == 0
    ensures 0 in T.action && Lookup(T.action[0], Sym("a")) == Some(q)
  {
    hide Collection, FollowExact, Filled, RowOk, GotoRowOk, DotBefore, Complete, SlrLooks;
    TablesFacts(C, K, d, follow, T, 0);
    var g, la, a := SecondRuleStart(), SlrLooks(SecondRuleStart(), C, follow), Sym("a");
    SecondRules(Item(1, 0), a);
    assert ItemOffers(g, d, la, 0, a, Item(1, 0), q);
    forall it, x | it in C[0] && ItemOffers(g, d, la, 0, a, it, x) ensures x == q {
      SecondRules(it, a);
    }
    OnlyAction(g, C, K, d, la, 0, a, q, T.action[0]);
  }

  lemma ReduceRow(C: seq<seq<Item>>, K: seq<seq<Item>>, d: Delta, follow: SetTable, T: Tables, q: nat)
    requires SecondTables(C, K, d, follow, T) && q < |C| && Item(1, 1) in C[q] && forall it :: it in C[q] ==> it == Item(1, 1)
    ensures q in T.action && Lookup(T.action[q], End) == Some(-1)
  {
    hide Collection, FollowExact, Filled, RowOk, GotoRowOk, DotBefore, Complete;
    TablesFacts(C, K, d, follow, T, q);
    var g, la := SecondRuleStart(), SlrLooks(SecondRuleStart(), C, follow);
    SecondRuleFollow(follow);
    SecondRules(Item(1, 1), End);
    assert ItemOffers(g, d, la, q, End, Item(1, 1), -1);
    forall it, x | it in C[q] && ItemOffers(g, d, la, q, End, it, x) ensures x == -1 {
      SecondRules(it, End);
    }
    OnlyAction(g, C, K, d, la, q, End, -1, T.action[q]);
  }

  /** On the input a, the parser with the generated tables shifts, reduces to A, and reports a syntax
      error at the end of the input; with the same tables written and loaded it fails with an exception,
      because the row that reports the error has not come back. */
  lemma LostRowCrashes(C: seq<seq<Item>>, K: seq<seq<Item>>, d: Delta, follow: SetTable, T: Tables, h: bool)
    requires SecondTables(C, K, d, follow, T)
    ensures Run(T, h, Initial([Sym("a")]), 3).status == Returned(None)
    ensures Run(Reloaded(T), h, Initial([Sym("a")]), 3).status == Crashed
  {
    hide SecondTables;
    var qa, qn;
    qa, qn := SecondStates(C, K, d, follow, T);
    SecondRun(T, h, qa, qn);
    SecondRun(Reloaded(T), h, qa, qn);
  }

  lemma SecondStates(C: seq<seq<Item>>, K: seq<seq<Item>>, d: Delta, follow: SetTable, T: Tables) returns (qa: nat, qn: nat)
    requires SecondTables(C, K, d, follow, T)
    ensures T.productions == SecondRuleStart().productions
    ensures 0 in T.action && qa > 0 && Lookup(T.action[0], Sym("a")) == Some(qa)
    ensures qa in T.action && Lookup(T.action[qa], End) == Some(-1)
    ensures 0 in T.goto && Sym("A") in T.goto[0] && T.goto[0][Sym("A")] == qn && qn in T.action && T.action[qn] == map[]
  {
    hide *;
    var g := SecondRuleStart();
    TablesCollection(C, K, d, follow, T);
    SecondRuleFirst(C, K, d);
    SecondRules(Item(1, 0), Sym("a"));
    SecondRules(Item(2, 0), Sym("A"));
    qa := SecondRuleNext(C, K, d, Item(1, 0), Sym("a"));
    qn := SecondRuleNext(C, K, d, Item(2, 0), Sym("A"));
    ShiftRow(C, K, d, follow, T, qa);
    NextItems();
    ReduceRow(C, K, d, follow, T, qa);
    EmptyRow(C, K, d, follow, T, qn);
    TablesFacts(C, K, d, follow, T, 0);
    GotoEntry(d, T.goto[0], qn);
  }

  lemma TablesCollection(C: seq<seq<Item>>, K: seq<seq<Item>>, d: Delta, follow: SetTable, T: Tables)
    requires SecondTables(C, K, d, follow, T)
    ensures Collection(SecondRuleStart(), C, K, d)
  {
  }

  lemma NextItems()
    ensures Item(1, 0).Next() == Item(1, 1) && Item(2, 0).Next() == Item(2, 1)
  {
  }

  lemma GotoEntry(d: Delta, row: map<Symbol, nat>, qn: nat)
    requires GotoRowOk(SecondRuleStart(), d, 0, row) && (0, Sym("A")) in d && d[(0, Sym("A"))] == qn
    ensures Sym("A") in row && row[Sym("A")] == qn
  {
  }

  lemma SecondRun(T: Tables, h: bool, qa: nat, qn: nat)
    requires T.productions == SecondRuleStart().productions
    requires 0 in T.action && qa > 0 && Lookup(T.action[0], Sym("a")) == Some(qa)
    requires qa in T.action && Lookup(T.action[qa], End) == Some(-1)
    requires 0 in T.goto && Sym("A") in T.goto[0] && T.goto[0][Sym("A")] == qn
    requires qn in T.action ==> T.action[qn] == map[]
    ensures Run(T, h, Initial([Sym("a")]), 3).status == if qn in T.action then Returned(None) else Crashed
  {
    hide Run, Recover, Reduce;
    var c0 := Initial([Sym("a")]);
    var c1 := Config([0, qa], [Token(End), Token(Sym("a"))], qa, None, [], [], 0, Running);
    assert Step(T, h, c0) == c1;
    SecondReduce(T, h, qa, qn);
    var c2 := Step(T, h, c1);
    SecondError(T, h, c2);
    RunStep(T, h, c0, 3);
    RunStep(T, h, c1, 2);
    RunStep(T, h, c2, 1);
    RunStep(T, h, Step(T, h, c2), 0);
  }

  lemma SecondReduce(T: Tables, h: bool, qa: nat, qn: nat)
    requires T.productions == SecondRuleStart().productions
    requires qa in T.action && Lookup(T.action[qa], End) == Some(-1)
    requires 0 in T.goto && Sym("A") in T.goto[0] && T.goto[0][Sym("A")] == qn
    ensures var c := Step(T, h, Config([0, qa], [Token(End), Token(Sym("a"))], qa, None, [], [], 0, Running));
      c.statestack == [0, qn] && c.state == qn && c.lookahead == Some(Token(End)) && c.errorcount == 0 && c.status == Running
  {
  }

  lemma SecondError(T: Tables, h: bool, c: Config)
    requires |c.statestack| == 2 && c.lookahead == Some(Token(End)) && c.errorcount == 0 && c.status == Running
    requires c.state in T.action ==> T.action[c.state] == map[]
    ensures Step(T, h, c).status == if c.state in T.action then Returned(None) else Crashed
  {
  }
}
