/** Two grammars whose conflicts are not settled as promised, in the tables that are generated for them. */
module ConflictExamples {
  import opened Lists
  import opened Grammars
  import opened GrammarFacts
  import opened Items
  import opened ParserTables
  import opened TableFill
  import opened Conflicts
  import opened Engine

  // ----- Collections of grammars with one nonterminal -----

  /** Every rule is one of `n`. */
  ghost predicate OneName(g: Cfg, n: Symbol) {
    g.WellFormed() && forall p :: 1 <= p < |g.productions| ==> g.productions[p].name == n
  }

  function Initials(g: Cfg): seq<Item>
    requires |g.productions| > 0
  {
    seq(|g.productions| - 1, i requires 0 <= i < |g.productions| - 1 => Item(i + 1, 0))
  }

  /** The closure of a kernel adds all rules, or none. */
  lemma OneNameClosure(g: Cfg, n: Symbol, K: seq<Item>, m: nat)
    requires OneName(g, n) && ValidItems(g, K) && m <= |K| && forall i :: 0 <= i < m ==> !DotBefore(g, K[i], n)
    ensures m == |K| ==> IsClosure(g, K, K)
    ensures m < |K| && DotBefore(g, K[m], n) ==> IsClosure(g, K, K + Initials(g))
  {
    if m < |K| && DotBefore(g, K[m], n) {
      var J := K + Initials(g);
      forall i | |K| <= i < |J| ensures Justified(g, J, i) && J[i] == Item(i - |K| + 1, 0) {
        assert DotBefore(g, J[m], g.productions[J[i].num].name);
      }
      forall i | 0 <= i < |J| ensures ClosedAt(g, J, J[i]) {
        forall p | 1 <= p < |g.productions| ensures Item(p, 0) in J {
          assert J[|K| + p - 1] == Item(p, 0);
        }
      }
      forall k: nat, p: nat | FirstCall(g, J, k, p) ensures k == m {
        assert Calls(g, J, m, p);
        EarlyCall(g, n, K, J, m, k, p);
      }
    } else if m == |K| {
      forall i: nat, p: nat ensures !Calls(g, K, i, p) {}
      forall i | 0 <= i < |K| ensures ClosedAt(g, K, K[i]) {
        forall p | 1 <= p < |g.productions| ensures !DotBefore(g, K[i], g.productions[p].name) {
          assert !Calls(g, K, i, p);
        }
      }
    }
  }

  lemma EarlyCall(g: Cfg, n: Symbol, K: seq<Item>, J: seq<Item>, m: nat, k: nat, p: nat)
    requires OneName(g, n) && K <= J && m <= |K| && forall i :: 0 <= i < m ==> !DotBefore(g, K[i], n)
    requires Calls(g, J, k, p)
    ensures k >= m
  {
    forall i: nat | i < m ensures !Calls(g, J, i, p) {
      assert !DotBefore(g, K[i], n);
    }
  }

  /** A state is its kernel, with all rules if an item of the kernel calls for them. */
  lemma OneNameState(g: Cfg, C: seq<seq<Item>>, K: seq<seq<Item>>, d: Delta, n: Symbol, q: nat, m: nat)
    requires OneName(g, n) && Collection(g, C, K, d) && q < |C| && m <= |K[q]|
    requires forall i :: 0 <= i < m ==> !DotBefore(g, K[q][i], n)
    ensures m == |K[q]| ==> C[q] == K[q]
    ensures m < |K[q]| && DotBefore(g, K[q][m], n) ==> C[q] == K[q] + Initials(g)
  {
    hide IsClosure;
    var e := KernelOf(g, C, K, d, q);
    StateDistinct(g, C, K, d, q);
    OneNameClosure(g, n, K[q], m);
    if m == |K[q]| {
      ClosureUnique(g, K[q], C[q], K[q]);
    } else if DotBefore(g, K[q][m], n) {
      ClosureUnique(g, K[q], C[q], K[q] + Initials(g));
    }
  }

  lemma Edge(g: Cfg, C: seq<seq<Item>>, K: seq<seq<Item>>, d: Delta, q: nat, x: Symbol)
    requires Collection(g, C, K, d) && q < |C| && Advance(g, C[q], x) != []
    ensures (q, x) in d && d[(q, x)] < |C| && K[d[(q, x)]] == Advance(g, C[q], x)
  {
  }

  /** Two transitions with the same kernel lead to the same state. */
  lemma SameTarget(g: Cfg, C: seq<seq<Item>>, K: seq<seq<Item>>, d: Delta, q: nat, r: nat)
    requires Collection(g, C, K, d) && q < |C| && r < |C| && K[q] == K[r]
    ensures q == r
  {
  }

  lemma AdvanceOne(g: Cfg, I: seq<Item>, it: Item, x: Symbol)
    ensures Advance(g, I + [it], x) == Advance(g, I, x) + if DotBefore(g, it, x) then [it.Next()] else []
  {
    assert (I + [it])[..|I + [it]| - 1] == I;
  }

  lemma AdvanceTwo(g: Cfg, a: Item, b: Item, x: Symbol)
    ensures Advance(g, [a, b], x) == (if DotBefore(g, a, x) then [a.Next()] else []) + (if DotBefore(g, b, x) then [b.Next()] else [])
  {
    AdvanceOne(g, [], a, x);
    AdvanceOne(g, [a], b, x);
    assert [] + [a] == [a] && [a] + [b] == [a, b];
  }

  lemma AdvanceFour(g: Cfg, a: Item, b: Item, c: Item, e: Item, x: Symbol)
    ensures Advance(g, [a, b, c, e], x) ==
            (if DotBefore(g, a, x) then [a.Next()] else []) + (if DotBefore(g, b, x) then [b.Next()] else [])
            + (if DotBefore(g, c, x) then [c.Next()] else []) + (if DotBefore(g, e, x) then [e.Next()] else [])
  {
    AdvanceOne(g, [], a, x);
    AdvanceOne(g, [a], b, x);
    AdvanceOne(g, [a, b], c, x);
    AdvanceOne(g, [a, b, c], e, x);
    assert [] + [a] == [a] && [a] + [b] == [a, b] && [a, b] + [c] == [a, b, c] && [a, b, c] + [e] == [a, b, c, e];
  }

  // ----- The dangling else -----

  /** The grammar S: if e S else S | if e S %prec then | x, the longer rule first, with the usual
      precedences: `then`, the level of the rule without `else`, below the token. */
  function DanglingElse(): Cfg {
    var s, i, e, l, x := Sym("S"), Sym("if"), Sym("e"), Sym("else"), Sym("x");
    Cfg([Production(Augmented, [s], NO_PRECEDENCE, 0),
         Production(s, [i, e, s, l, s], Prec(Nonassoc, 2), 1),
         Production(s, [i, e, s], Prec(Nonassoc, 1), 2),
         Production(s, [x], NO_PRECEDENCE, 3)],
        {Error, i, e, l, x}, {s}, map[Sym("then") := Prec(Nonassoc, 1), l := Prec(Nonassoc, 2)])
  }

  lemma DanglingElseWellFormed()
    ensures DanglingElse().WellFormed()
  {
    var g := DanglingElse();
    forall n | n in g.nonterminals ensures exists p :: 1 <= p < |g.productions| && g.productions[p].name == n {
      assert n == g.productions[1].name;
    }
  }

  lemma DanglingElseRules(it: Item, x: Symbol)
    ensures var s, i, e, l := Sym("S"), Sym("if"), Sym("e"), Sym("else");
      DotBefore(DanglingElse(), it, x) <==>
        || (it == Item(0, 0) && x == s) || (it == Item(1, 0) && x == i) || (it == Item(1, 1) && x == e)
        || (it == Item(1, 2) && x == s) || (it == Item(1, 3) && x == l) || (it == Item(1, 4) && x == s)
        || (it == Item(2, 0) && x == i) || (it == Item(2, 1) && x == e) || (it == Item(2, 2) && x == s)
        || (it == Item(3, 0) && x == Sym("x"))
  {
  }

  /** The states on the way to the conflict, in the order of their items. */
  lemma DanglingElseStates(C: seq<seq<Item>>, K: seq<seq<Item>>, d: Delta) returns (i: nat, e: nat, q: nat, x: nat)
    requires Collection(DanglingElse(), C, K, d)
    ensures (0, Sym("if")) in d && d[(0, Sym("if"))] == i && (i, Sym("e")) in d && d[(i, Sym("e"))] == e
    ensures (e, Sym("S")) in d && d[(e, Sym("S"))] == q && q < |C|
    ensures (e, Sym("if")) in d && d[(e, Sym("if"))] == i && i < |C| && e < |C|
    ensures C[0] == [Item(0, 0), Item(1, 0), Item(2, 0), Item(3, 0)]
    ensures (e, Sym("x")) in d && d[(e, Sym("x"))] == x && x < |C|
    ensures C[i] == [Item(1, 1), Item(2, 1)] && C[x] == [Item(3, 1)]
    ensures C[e] == [Item(1, 2), Item(2, 2), Item(1, 0), Item(2, 0), Item(3, 0)]
    ensures C[q] == [Item(1, 3), Item(2, 3)]
  {
    hide Collection, DotBefore, Advance;
    var g, s := DanglingElse(), Sym("S");
    DanglingElseWellFormed();
    FirstKernel(g, C, K, d);
    assert Initials(g) == [Item(1, 0), Item(2, 0), Item(3, 0)];
    DanglingElseRules(Item(0, 0), s);
    OneNameState(g, C, K, d, s, 0, 0);
    assert C[0] == [Item(0, 0)] + Initials(g) == [Item(0, 0), Item(1, 0), Item(2, 0), Item(3, 0)];
    DanglingElseKernels();
    Edge(g, C, K, d, 0, Sym("if"));
    i := d[(0, Sym("if"))];
    DanglingElseRules(Item(1, 1), s);
    DanglingElseRules(Item(2, 1), s);
    OneNameState(g, C, K, d, s, i, 2);
    Edge(g, C, K, d, i, Sym("e"));
    e := d[(i, Sym("e"))];
    DanglingElseRules(Item(1, 2), s);
    OneNameState(g, C, K, d, s, e, 0);
    assert C[e] == [Item(1, 2), Item(2, 2)] + Initials(g) == [Item(1, 2), Item(2, 2), Item(1, 0), Item(2, 0), Item(3, 0)];
    Edge(g, C, K, d, e, s);
    q := d[(e, s)];
    Edge(g, C, K, d, e, Sym("if"));
    SameTarget(g, C, K, d, i, d[(e, Sym("if"))]);
    DanglingElseRules(Item(1, 3), s);
    DanglingElseRules(Item(2, 3), s);
    OneNameState(g, C, K, d, s, q, 2);
    Edge(g, C, K, d, e, Sym("x"));
    x := d[(e, Sym("x"))];
    DanglingElseRules(Item(3, 1), s);
    OneNameState(g, C, K, d, s, x, 1);
  }

  lemma DanglingElseKernels()
    ensures var g := DanglingElse();
      && Advance(g, [Item(0, 0), Item(1, 0), Item(2, 0), Item(3, 0)], Sym("if")) == [Item(1, 1), Item(2, 1)]
      && Advance(g, [Item(1, 1), Item(2, 1)], Sym("e")) == [Item(1, 2), Item(2, 2)]
      && Advance(g, [Item(1, 2), Item(2, 2), Item(1, 0), Item(2, 0), Item(3, 0)], Sym("S")) == [Item(1, 3), Item(2, 3)]
      && Advance(g, [Item(1, 2), Item(2, 2), Item(1, 0), Item(2, 0), Item(3, 0)], Sym("if")) == [Item(1, 1), Item(2, 1)]
      && Advance(g, [Item(1, 2), Item(2, 2), Item(1, 0), Item(2, 0), Item(3, 0)], Sym("x")) == [Item(3, 1)]
  {
    hide Advance;
    var g := DanglingElse();
    AdvanceFour(g, Item(0, 0), Item(1, 0), Item(2, 0), Item(3, 0), Sym("if"));
    AdvanceTwo(g, Item(1, 1), Item(2, 1), Sym("e"));
    AdvanceFour(g, Item(1, 2), Item(2, 2), Item(1, 0), Item(2, 0), Sym("S"));
    AdvanceOne(g, [Item(1, 2), Item(2, 2), Item(1, 0), Item(2, 0)], Item(3, 0), Sym("S"));
    AdvanceFour(g, Item(1, 2), Item(2, 2), Item(1, 0), Item(2, 0), Sym("if"));
    AdvanceOne(g, [Item(1, 2), Item(2, 2), Item(1, 0), Item(2, 0)], Item(3, 0), Sym("if"));
    AdvanceFour(g, Item(1, 2), Item(2, 2), Item(1, 0), Item(2, 0), Sym("x"));
    AdvanceOne(g, [Item(1, 2), Item(2, 2), Item(1, 0), Item(2, 0)], Item(3, 0), Sym("x"));
    assert [Item(1, 2), Item(2, 2), Item(1, 0), Item(2, 0)] + [Item(3, 0)] == [Item(1, 2), Item(2, 2), Item(1, 0), Item(2, 0), Item(3, 0)];
  }

  /** The token `else` is among the lookaheads of the rules without it, in SLR and in LALR tables. */
  lemma DanglingElseLooks(C: seq<seq<Item>>, K: seq<seq<Item>>, d: Delta, fol: FollowMap, la: LookTable, i: nat, e: nat, q: nat, x: nat)
    requires var g, s := DanglingElse(), Sym("S");
      && Collection(g, C, K, d) && Adequate(g, C, d, fol, la) && e < |C|
      && (0, Sym("if")) in d && d[(0, Sym("if"))] == i && (i, Sym("e")) in d && d[(i, Sym("e"))] == e
      && (e, Sym("if")) in d && d[(e, Sym("if"))] == i && (e, s) in d && d[(e, s)] == q
      && Item(1, 0) in C[0] && Item(2, 0) in C[e] && Item(3, 0) in C[e] && (e, Sym("x")) in d && d[(e, Sym("x"))] == x
    ensures Walk(d, 0, [Sym("if"), Sym("e"), Sym("S")]) == Some(q)
    ensures (q, 2) in la && Sym("else") in la[(q, 2)]
    ensures (x, 3) in la && Sym("else") in la[(x, 3)]
  {
    hide Collection, Walk, Derives;
    var g, s, a, b := DanglingElse(), Sym("S"), Sym("if"), Sym("e");
    WalkThree(d, 0, a, b, s);
    WalkThree(d, e, a, b, s);
    assert g.Rhs(1)[..2] == [a, b] && g.Rhs(1)[3..] == [Sym("else")] + [s];
    DerivesSelf(g, g.Rhs(1)[3..]);
    assert CanStart(g, g.Rhs(1)[2 + 1..], Sym("else"));
    assert AdequateAt(g, C, d, fol, 0, 1, 2);
    assert LooksAt(g, C, d, fol, la, e, 2);
    WalkOne(d, e, Sym("x"));
    assert LooksAt(g, C, d, fol, la, e, 3);
  }

  lemma WalkOne(d: Delta, q: nat, x: Symbol)
    requires (q, x) in d
    ensures Walk(d, q, [x]) == Some(d[(q, x)])
  {
    WalkSnoc(d, q, [], x);
    assert [] + [x] == [x];
  }

  lemma WalkThree(d: Delta, q: nat, x: Symbol, y: Symbol, z: Symbol)
    requires (q, x) in d && (d[(q, x)], y) in d && (d[(d[(q, x)], y)], z) in d
    ensures Walk(d, q, [x, y]) == Some(d[(d[(q, x)], y)]) && Walk(d, q, [x, y, z]) == Some(d[(d[(d[(q, x)], y)], z)])
  {
    WalkSnoc(d, q, [], x);
    WalkSnoc(d, q, [x], y);
    WalkSnoc(d, q, [x, y], z);
    assert [] + [x] == [x] && [x] + [y] == [x, y] && [x, y] + [z] == [x, y, z];
  }

  /** Shifting is promised there; but the item of the longer rule comes first, and the slot is left
      without an action. */
  lemma DanglingElseIsLeftOut(C: seq<seq<Item>>, K: seq<seq<Item>>, d: Delta, fol: FollowMap, la: LookTable) returns (q: nat)
    requires Collection(DanglingElse(), C, K, d) && Adequate(DanglingElse(), C, d, fol, la)
    ensures Walk(d, 0, [Sym("if"), Sym("e"), Sym("S")]) == Some(q) && q < |C| && C[q] == [Item(1, 3), Item(2, 3)]
    ensures var S := Slot(DanglingElse(), d, la, q, Sym("else"));
      && S.After(C[q]).Cell? && S.After(C[q]).act == None
      && S.Target() > 0 && Promised(S.Rule(Item(2, 3)), S.Token(), 2, S.Target()) == Some(S.Target())
      && !OtherSide(S.Rule(Item(1, 3)), S.Rule(Item(2, 3)), S.Token())
  {
    hide *;
    var i, e, x;
    i, e, q, x := DanglingElseStates(C, K, d);
    DanglingElseFirst();
    DanglingElseLooks(C, K, d, fol, la, i, e, q, x);
    MoveItem(DanglingElse(), C, K, d, q, Item(1, 3), Sym("else"));
    StateBound(DanglingElse(), C, K, d, q, Sym("else"));
    DanglingElseSlot(d, la, q);
  }

  lemma DanglingElseFirst()
    ensures DotBefore(DanglingElse(), Item(1, 3), Sym("else"))
  {
  }

  lemma DanglingElseSlot(d: Delta, la: LookTable, q: nat)
    requires (q, Sym("else")) in d && d[(q, Sym("else"))] > 0 && (q, 2) in la && Sym("else") in la[(q, 2)]
    ensures var S, I := Slot(DanglingElse(), d, la, q, Sym("else")), [Item(1, 3), Item(2, 3)];
      && S.After(I).Cell? && S.After(I).act == None
      && S.Target() > 0 && Promised(S.Rule(Item(2, 3)), S.Token(), 2, S.Target()) == Some(S.Target())
      && !OtherSide(S.Rule(Item(1, 3)), S.Rule(Item(2, 3)), S.Token())
  {
    hide Settle;
    var S, s, r := Slot(DanglingElse(), d, la, q, Sym("else")), Item(1, 3), Item(2, 3);
    AfterSnoc(S, [], s);
    AfterSnoc(S, [s], r);
    assert [] + [s] == [s] && [s] + [r] == [s, r];
    OpenEffect(S, BLANK, s);
    HeldEffect(S, s, r);
  }

  lemma AfterSnoc(S: Slot, I: seq<Item>, it: Item)
    ensures S.After(I + [it]) == Settle(S.g, S.d, S.la, S.q, S.a, S.After(I), it)
  {
    assert (I + [it])[..|I + [it]| - 1] == I;
  }

  /** So the sentence `if e x else x` is rejected at `else`, by tables of either method. */
  lemma DanglingElseRejected(C: seq<seq<Item>>, K: seq<seq<Item>>, d: Delta, fol: FollowMap, la: LookTable, T: Tables, h: bool)
    requires Collection(DanglingElse(), C, K, d) && Adequate(DanglingElse(), C, d, fol, la)
    requires Filled(DanglingElse(), C, d, la, T) && forall q :: 0 <= q < |C| ==> RowSettled(DanglingElse(), d, la, q, C[q], T.action[q])
    ensures var w := [Sym("if"), Sym("e"), Sym("x"), Sym("else"), Sym("x")];
      Derives(DanglingElse(), [Sym("S")], w) && Errs(T, Run(T, h, Initial(w), 4))
  {
    DanglingElseSentence();
    hide *;
    var i, e, q, x := DanglingElseStates(C, K, d);
    DanglingElseRows(C, K, d, fol, la, T, i, e, q, x);
    DanglingElseRun(T, h, i, e, x, q);
  }

  lemma DanglingElseSentence()
    ensures Derives(DanglingElse(), [Sym("S")], [Sym("if"), Sym("e"), Sym("x"), Sym("else"), Sym("x")])
  {
    hide Derives;
    var g, s, i, e, l, x := DanglingElse(), Sym("S"), Sym("if"), Sym("e"), Sym("else"), Sym("x");
    DerivesProduction(g, 1);
    DerivesProduction(g, 3);
    DerivesContext(g, [i, e], [s], [x], [l, s]);
    DerivesContext(g, [i, e, x, l], [s], [x], []);
    assert g.Rhs(1) == [i, e] + [s] + [l, s] && [i, e] + [x] + [l, s] == [i, e, x, l, s] == [i, e, x, l] + [s] + [];
    assert [i, e, x, l] + [x] + [] == [i, e, x, l, x];
    assert g.productions[1].name == s == g.productions[3].name && g.Rhs(3) == [x];
    DerivesTrans(g, [s], g.Rhs(1), [i, e, x, l, s]);
    DerivesTrans(g, [s], [i, e, x, l, s], [i, e, x, l, x]);
  }

  lemma DanglingElseComplete(it: Item)
    ensures Complete(DanglingElse(), it) <==> it == Item(0, 1) || it == Item(1, 5) || it == Item(2, 3) || it == Item(3, 1)
  {
  }

  lemma FilledRow(g: Cfg, C: seq<seq<Item>>, d: Delta, la: LookTable, T: Tables, q: nat)
    requires Filled(g, C, d, la, T) && q < |C|
    ensures q in T.action && q in T.goto && RowOk(g, C, d, la, q, T.action[q]) && GotoRowOk(g, d, q, T.goto[q])
  {
  }

  lemma DanglingElseShift(C: seq<seq<Item>>, K: seq<seq<Item>>, d: Delta, la: LookTable, T: Tables, q: nat, it: Item, a: Symbol)
    requires Collection(DanglingElse(), C, K, d) && Filled(DanglingElse(), C, d, la, T) && q < |C|
    requires it in C[q] && DotBefore(DanglingElse(), it, a) && a in DanglingElse().terminals
    requires forall r :: r in C[q] ==> r.dot < 3 && r != Item(0, 1) && r != Item(3, 1)
    ensures q in T.action && (q, a) in d && d[(q, a)] > 0 && Lookup(T.action[q], a) == Some(d[(q, a)])
  {
    hide Collection, Filled, RowOk, GotoRowOk, DotBefore, Complete;
    DanglingElseWellFormed();
    FilledRow(DanglingElse(), C, d, la, T, q);
    forall r | r in C[q] ensures !Complete(DanglingElse(), r) {
      DanglingElseComplete(r);
    }
    OnlyShifts(DanglingElse(), C, K, d, la, q, it, a, T.action[q]);
  }

  /** In the state behind `x` the third rule is reduced. */
  lemma DanglingElseLeaf(C: seq<seq<Item>>, K: seq<seq<Item>>, d: Delta, la: LookTable, T: Tables, x: nat)
    requires Collection(DanglingElse(), C, K, d) && Filled(DanglingElse(), C, d, la, T) && x < |C| && C[x] == [Item(3, 1)]
    requires (x, 3) in la && Sym("else") in la[(x, 3)]
    ensures x in T.action && Lookup(T.action[x], Sym("else")) == Some(-3)
  {
    hide Collection, Filled, RowOk, GotoRowOk;
    var g, l := DanglingElse(), Sym("else");
    DanglingElseWellFormed();
    FilledRow(g, C, d, la, T, x);
    assert Item(3, 1) in C[x] && ItemOffers(g, d, la, x, l, Item(3, 1), -3);
    OnlyAction(g, C, K, d, la, x, l, -3, T.action[x]);
  }

  /** The entries that the run meets. */
  lemma DanglingElseRows(C: seq<seq<Item>>, K: seq<seq<Item>>, d: Delta, fol: FollowMap, la: LookTable, T: Tables, i: nat, e: nat, q: nat, x: nat)
    requires Collection(DanglingElse(), C, K, d) && Adequate(DanglingElse(), C, d, fol, la)
    requires Filled(DanglingElse(), C, d, la, T) && forall q :: 0 <= q < |C| ==> RowSettled(DanglingElse(), d, la, q, C[q], T.action[q])
    requires 0 < |C| && i < |C| && e < |C| && q < |C| && x < |C|
    requires (0, Sym("if")) in d && d[(0, Sym("if"))] == i && (i, Sym("e")) in d && d[(i, Sym("e"))] == e
    requires (e, Sym("S")) in d && d[(e, Sym("S"))] == q && (e, Sym("if")) in d && d[(e, Sym("if"))] == i
    requires (e, Sym("x")) in d && d[(e, Sym("x"))] == x
    requires C[0] == [Item(0, 0), Item(1, 0), Item(2, 0), Item(3, 0)] && C[i] == [Item(1, 1), Item(2, 1)] && C[x] == [Item(3, 1)]
    requires C[e] == [Item(1, 2), Item(2, 2), Item(1, 0), Item(2, 0), Item(3, 0)] && C[q] == [Item(1, 3), Item(2, 3)]
    ensures T.productions == DanglingElse().productions
    ensures 0 in T.action && i > 0 && Lookup(T.action[0], Sym("if")) == Some(i)
    ensures i in T.action && e > 0 && Lookup(T.action[i], Sym("e")) == Some(e)
    ensures e in T.action && x > 0 && Lookup(T.action[e], Sym("x")) == Some(x)
    ensures x in T.action && Lookup(T.action[x], Sym("else")) == Some(-3)
    ensures e in T.goto && Sym("S") in T.goto[e] && T.goto[e][Sym("S")] == q
    ensures q in T.action && Lookup(T.action[q], Sym("else")) == None
  {
    hide Collection, Adequate, Filled, RowSettled, RowOk, DotBefore, Walk, Settled;
    var g := DanglingElse();
    DanglingElseRules(Item(1, 0), Sym("if"));
    DanglingElseRules(Item(1, 1), Sym("e"));
    DanglingElseRules(Item(3, 0), Sym("x"));
    DanglingElseShift(C, K, d, la, T, 0, Item(1, 0), Sym("if"));
    DanglingElseShift(C, K, d, la, T, i, Item(1, 1), Sym("e"));
    DanglingElseShift(C, K, d, la, T, e, Item(3, 0), Sym("x"));
    DanglingElseLooks(C, K, d, fol, la, i, e, q, x);
    DanglingElseLeaf(C, K, d, la, T, x);
    FilledRow(g, C, d, la, T, e);
    FilledRow(g, C, d, la, T, q);
    FilledProductions(g, C, d, la, T);
    DanglingElseFirst();
    MoveItem(g, C, K, d, q, Item(1, 3), Sym("else"));
    StateBound(g, C, K, d, q, Sym("else"));
    DanglingElseSlot(d, la, q);
    SlotHolds(g, d, la, q, C[q], T.action[q], Sym("else"));
  }

  lemma FilledProductions(g: Cfg, C: seq<seq<Item>>, d: Delta, la: LookTable, T: Tables)
    requires Filled(g, C, d, la, T)
    ensures T.productions == g.productions
  {
  }

  lemma DanglingElseRun(T: Tables, h: bool, i: nat, e: nat, x: nat, q: nat)
    requires T.productions == DanglingElse().productions
    requires 0 in T.action && i > 0 && Lookup(T.action[0], Sym("if")) == Some(i)
    requires i in T.action && e > 0 && Lookup(T.action[i], Sym("e")) == Some(e)
    requires e in T.action && x > 0 && Lookup(T.action[e], Sym("x")) == Some(x)
    requires x in T.action && Lookup(T.action[x], Sym("else")) == Some(-3)
    requires e in T.goto && Sym("S") in T.goto[e] && T.goto[e][Sym("S")] == q
    requires q in T.action && Lookup(T.action[q], Sym("else")) == None
    ensures Errs(T, Run(T, h, Initial([Sym("if"), Sym("e"), Sym("x"), Sym("else"), Sym("x")]), 4))
  {
    hide Run, Recover, Reduce;
    var s, a, b, l, y := Token(End), Sym("if"), Sym("e"), Sym("else"), Sym("x");
    var c0 := Initial([a, b, y, l, y]);
    var c1 := Config([0, i], [s, Token(a)], i, None, [], [b, y, l, y], 0, Running);
    var c2 := Config([0, i, e], [s, Token(a), Token(b)], e, None, [], [y, l, y], 0, Running);
    var c3 := Config([0, i, e, x], [s, Token(a), Token(b), Token(y)], x, None, [], [l, y], 0, Running);
    assert Step(T, h, c0) == c1;
    assert Step(T, h, c1) == c2;
    assert Step(T, h, c2) == c3;
    DanglingElseReduce(T, h, c3, e, q);
    RunStep(T, h, c0, 4);
    RunStep(T, h, c1, 3);
    RunStep(T, h, c2, 2);
    RunStep(T, h, c3, 1);
    RunStep(T, h, Step(T, h, c3), 0);
  }

  lemma DanglingElseReduce(T: Tables, h: bool, c: Config, e: nat, q: nat)
    requires T.productions == DanglingElse().productions && c.status == Running && c.lookahead == None && c.lookaheadstack == []
    requires |c.statestack| == 4 == |c.symstack| && c.statestack[2] == e && c.input == [Sym("else"), Sym("x")]
    requires c.state in T.action && Lookup(T.action[c.state], Sym("else")) == Some(-3)
    requires e in T.goto && Sym("S") in T.goto[e] && T.goto[e][Sym("S")] == q
    requires q in T.action && Lookup(T.action[q], Sym("else")) == None
    ensures Errs(T, Step(T, h, c))
  {
  }

  lemma FirstKernel(g: Cfg, C: seq<seq<Item>>, K: seq<seq<Item>>, d: Delta)
    requires Collection(g, C, K, d)
    ensures 0 < |C| == |K| && K[0] == [Item(0, 0)]
  {
  }

  // ----- A non-associative operator -----

  /** The grammar E: E < E | E < E ? | x, with a non-associative token `<`. */
  function Comparison(): Cfg {
    var e, l, m, x := Sym("E"), Sym("<"), Sym("?"), Sym("x");
    Cfg([Production(Augmented, [e], NO_PRECEDENCE, 0),
         Production(e, [e, l, e], Prec(Nonassoc, 1), 1),
         Production(e, [e, l, e, m], NO_PRECEDENCE, 2),
         Production(e, [x], NO_PRECEDENCE, 3)],
        {Error, l, m, x}, {e}, map[l := Prec(Nonassoc, 1)])
  }

  lemma ComparisonWellFormed()
    ensures Comparison().WellFormed()
  {
    var g := Comparison();
    forall n | n in g.nonterminals ensures exists p :: 1 <= p < |g.productions| && g.productions[p].name == n {
      assert n == g.productions[1].name;
    }
  }

  lemma ComparisonRules(it: Item, x: Symbol)
    ensures var e, l := Sym("E"), Sym("<");
      DotBefore(Comparison(), it, x) <==>
        || (it == Item(0, 0) && x == e)
        || (it == Item(1, 0) && x == e) || (it == Item(1, 1) && x == l) || (it == Item(1, 2) && x == e)
        || (it == Item(2, 0) && x == e) || (it == Item(2, 1) && x == l) || (it == Item(2, 2) && x == e) || (it == Item(2, 3) && x == Sym("?"))
        || (it == Item(3, 0) && x == Sym("x"))
  {
  }

  lemma ComparisonKernels()
    ensures var g, e, l := Comparison(), Sym("E"), Sym("<");
      && Advance(g, [Item(0, 0), Item(1, 0), Item(2, 0), Item(3, 0)], e) == [Item(0, 1), Item(1, 1), Item(2, 1)]
      && Advance(g, [Item(0, 1), Item(1, 1), Item(2, 1)], l) == [Item(1, 2), Item(2, 2)]
      && Advance(g, [Item(1, 2), Item(2, 2), Item(1, 0), Item(2, 0), Item(3, 0)], e) == [Item(1, 3), Item(2, 3), Item(1, 1), Item(2, 1)]
      && Advance(g, [Item(1, 3), Item(2, 3), Item(1, 1), Item(2, 1)], l) == [Item(1, 2), Item(2, 2)]
  {
    hide Advance;
    var g, e, l := Comparison(), Sym("E"), Sym("<");
    AdvanceFour(g, Item(0, 0), Item(1, 0), Item(2, 0), Item(3, 0), e);
    AdvanceTwo(g, Item(0, 1), Item(1, 1), l);
    AdvanceOne(g, [Item(0, 1), Item(1, 1)], Item(2, 1), l);
    assert [Item(0, 1), Item(1, 1)] + [Item(2, 1)] == [Item(0, 1), Item(1, 1), Item(2, 1)];
    AdvanceFour(g, Item(1, 2), Item(2, 2), Item(1, 0), Item(2, 0), e);
    AdvanceOne(g, [Item(1, 2), Item(2, 2), Item(1, 0), Item(2, 0)], Item(3, 0), e);
    assert [Item(1, 2), Item(2, 2), Item(1, 0), Item(2, 0)] + [Item(3, 0)] == [Item(1, 2), Item(2, 2), Item(1, 0), Item(2, 0), Item(3, 0)];
    AdvanceFour(g, Item(1, 3), Item(2, 3), Item(1, 1), Item(2, 1), l);
  }

  lemma ComparisonStates(C: seq<seq<Item>>, K: seq<seq<Item>>, d: Delta) returns (e: nat, l: nat, q: nat)
    requires Collection(Comparison(), C, K, d)
    ensures (0, Sym("E")) in d && d[(0, Sym("E"))] == e && (e, Sym("<")) in d && d[(e, Sym("<"))] == l
    ensures (l, Sym("E")) in d && d[(l, Sym("E"))] == q && q < |C|
    ensures (q, Sym("<")) in d && d[(q, Sym("<"))] == l
    ensures C[0] == [Item(0, 0), Item(1, 0), Item(2, 0), Item(3, 0)]
    ensures C[q] == [Item(1, 3), Item(2, 3), Item(1, 1), Item(2, 1)]
  {
    hide Collection, DotBefore, Advance;
    var g, s := Comparison(), Sym("E");
    ComparisonWellFormed();
    FirstKernel(g, C, K, d);
    ComparisonKernels();
    assert Initials(g) == [Item(1, 0), Item(2, 0), Item(3, 0)];
    ComparisonRules(Item(0, 0), s);
    OneNameState(g, C, K, d, s, 0, 0);
    assert C[0] == [Item(0, 0)] + Initials(g) == [Item(0, 0), Item(1, 0), Item(2, 0), Item(3, 0)];
    Edge(g, C, K, d, 0, s);
    e := d[(0, s)];
    ComparisonRules(Item(0, 1), s);
    ComparisonRules(Item(1, 1), s);
    ComparisonRules(Item(2, 1), s);
    OneNameState(g, C, K, d, s, e, 3);
    Edge(g, C, K, d, e, Sym("<"));
    l := d[(e, Sym("<"))];
    ComparisonRules(Item(1, 2), s);
    OneNameState(g, C, K, d, s, l, 0);
    assert C[l] == [Item(1, 2), Item(2, 2)] + Initials(g) == [Item(1, 2), Item(2, 2), Item(1, 0), Item(2, 0), Item(3, 0)];
    Edge(g, C, K, d, l, s);
    q := d[(l, s)];
    ComparisonRules(Item(1, 3), s);
    ComparisonRules(Item(2, 3), s);
    OneNameState(g, C, K, d, s, q, 4);
    Edge(g, C, K, d, q, Sym("<"));
    SameTarget(g, C, K, d, l, d[(q, Sym("<"))]);
  }

  lemma ComparisonLooks(C: seq<seq<Item>>, K: seq<seq<Item>>, d: Delta, fol: FollowMap, la: LookTable, e: nat, l: nat, q: nat)
    requires var g, s := Comparison(), Sym("E");
      && Collection(g, C, K, d) && Adequate(g, C, d, fol, la) && |C| > 0 && Item(1, 0) in C[0]
      && (0, s) in d && d[(0, s)] == e && (e, Sym("<")) in d && d[(e, Sym("<"))] == l && (l, s) in d && d[(l, s)] == q
    ensures Walk(d, 0, [Sym("E"), Sym("<"), Sym("E")]) == Some(q)
    ensures (q, 1) in la && Sym("<") in la[(q, 1)]
  {
    hide Collection, Walk, Derives;
    var g, s, a := Comparison(), Sym("E"), Sym("<");
    WalkThree(d, 0, s, a, s);
    EmptyWalk(d, 0);
    assert g.Rhs(1)[..0] == [] && g.Rhs(1)[1..] == [a] + [s];
    DerivesSelf(g, g.Rhs(1)[1..]);
    assert CanStart(g, g.Rhs(1)[0 + 1..], a);
    assert AdequateAt(g, C, d, fol, 0, 1, 0);
    assert LooksAt(g, C, d, fol, la, 0, 1);
  }

  lemma ComparisonSlot(d: Delta, la: LookTable, q: nat)
    requires (q, Sym("<")) in d && d[(q, Sym("<"))] > 0 && (q, 1) in la && Sym("<") in la[(q, 1)]
    ensures var S, I := Slot(Comparison(), d, la, q, Sym("<")), [Item(1, 3), Item(2, 3), Item(1, 1), Item(2, 1)];
      && S.After(I).Cell? && S.Target() > 0 && S.After(I).act == Some(S.Target())
      && Promised(S.Rule(Item(1, 3)), S.Token(), 1, S.Target()) == None
  {
    hide Settle;
    var S := Slot(Comparison(), d, la, q, Sym("<"));
    var r, t, s, u := Item(1, 3), Item(2, 3), Item(1, 1), Item(2, 1);
    AfterSnoc(S, [], r);
    AfterSnoc(S, [r], t);
    AfterSnoc(S, [r, t], s);
    AfterSnoc(S, [r, t, s], u);
    assert [] + [r] == [r] && [r] + [t] == [r, t] && [r, t] + [s] == [r, t, s] && [r, t, s] + [u] == [r, t, s, u];
    OpenEffect(S, BLANK, r);
    SilentEffect(S, EntryOf(S, r), t);
    HeldEffect(S, r, s);
    OpenEffect(S, S.After([r, t, s]), u);
  }

  /** Two comparisons in a row are promised to be an error; but two items shift, and the second one takes
      the slot that the first one and the reduce have left empty. */
  lemma ComparisonIsShifted(C: seq<seq<Item>>, K: seq<seq<Item>>, d: Delta, fol: FollowMap, la: LookTable) returns (q: nat)
    requires Collection(Comparison(), C, K, d) && Adequate(Comparison(), C, d, fol, la)
    ensures Walk(d, 0, [Sym("E"), Sym("<"), Sym("E")]) == Some(q) && q < |C|
    ensures C[q] == [Item(1, 3), Item(2, 3), Item(1, 1), Item(2, 1)]
    ensures var S := Slot(Comparison(), d, la, q, Sym("<"));
      && S.After(C[q]).Cell? && S.Target() > 0 && S.After(C[q]).act == Some(S.Target())
      && Promised(S.Rule(Item(1, 3)), S.Token(), 1, S.Target()) == None
  {
    hide *;
    var e, l;
    e, l, q := ComparisonStates(C, K, d);
    ComparisonLooks(C, K, d, fol, la, e, l, q);
    StateBound(Comparison(), C, K, d, q, Sym("<"));
    ComparisonSlot(d, la, q);
  }
}
