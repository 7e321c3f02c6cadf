/** A binary operator, from its line in the precedence table to the trees of the parser: sums of any length
    group to the left or to the right as the table says, or are rejected. */
module Sums {
  import opened Lists
  import opened Grammars
  import opened GrammarFacts
  import opened Items
  import opened ParserTables
  import opened TableFill
  import opened Conflicts
  import opened ConflictExamples
  import opened SlotContents
  import opened Engine

  /** E: E + E | x, with `+` declared at level 1; its rule takes over the precedence of `+`. */
  function SumGrammar(assoc: Assoc): Cfg {
    var e, plus, x := Sym("E"), Sym("+"), Sym("x");
    Cfg([Production(Augmented, [e], NO_PRECEDENCE, 0), Production(e, [e, plus, e], Prec(assoc, 1), 1), Production(e, [x], NO_PRECEDENCE, 2)],
        {Error, plus, x}, {e}, map[plus := Prec(assoc, 1)])
  }

  lemma SumWellFormed(assoc: Assoc)
    ensures SumGrammar(assoc).WellFormed()
  {
    var g := SumGrammar(assoc);
    forall n | n in g.nonterminals ensures exists p :: 1 <= p < |g.productions| && g.productions[p].name == n {
      assert n == g.productions[1].name;
    }
  }

  lemma SumRules(assoc: Assoc, it: Item, y: Symbol)
    ensures var e, plus := Sym("E"), Sym("+");
      DotBefore(SumGrammar(assoc), it, y) <==>
        || (it == Item(0, 0) && y == e) || (it == Item(1, 0) && y == e) || (it == Item(1, 1) && y == plus) || (it == Item(1, 2) && y == e)
        || (it == Item(2, 0) && y == Sym("x"))
    ensures Complete(SumGrammar(assoc), it) <==> it == Item(0, 1) || it == Item(1, 3) || it == Item(2, 1)
  {
  }

  // ----- The automaton -----

  /** The states behind E, x, E +, and E + E. */
  datatype Nodes = Nodes(e: nat, x: nat, plus: nat, sum: nat)

  ghost predicate SumStates(C: seq<seq<Item>>, d: Delta, ns: Nodes) {
    && |C| > 0 && 0 < ns.e < |C| && 0 < ns.x < |C| && 0 < ns.plus < |C| && 0 < ns.sum < |C|
    && C[0] == [Item(0, 0), Item(1, 0), Item(2, 0)] && C[ns.e] == [Item(0, 1), Item(1, 1)] && C[ns.x] == [Item(2, 1)]
    && C[ns.plus] == [Item(1, 2), Item(1, 0), Item(2, 0)] && C[ns.sum] == [Item(1, 3), Item(1, 1)]
    && Edges(d, ns)
  }

  ghost predicate Edges(d: Delta, ns: Nodes) {
    && (0, Sym("E")) in d && d[(0, Sym("E"))] == ns.e && (0, Sym("x")) in d && d[(0, Sym("x"))] == ns.x
    && (ns.e, Sym("+")) in d && d[(ns.e, Sym("+"))] == ns.plus
    && (ns.plus, Sym("E")) in d && d[(ns.plus, Sym("E"))] == ns.sum && (ns.plus, Sym("x")) in d && d[(ns.plus, Sym("x"))] == ns.x
    && (ns.sum, Sym("+")) in d && d[(ns.sum, Sym("+"))] == ns.plus
  }

  lemma AdvanceThree(g: Cfg, a: Item, b: Item, c: Item, y: Symbol)
    ensures Advance(g, [a, b, c], y) == (if DotBefore(g, a, y) then [a.Next()] else []) + (if DotBefore(g, b, y) then [b.Next()] else [])
                                        + (if DotBefore(g, c, y) then [c.Next()] else [])
  {
    hide Advance;
    AdvanceTwo(g, a, b, y);
    AdvanceOne(g, [a, b], c, y);
    assert [a, b] + [c] == [a, b, c];
  }

  lemma SumKernels(assoc: Assoc)
    ensures var g := SumGrammar(assoc);
      && Advance(g, [Item(0, 0), Item(1, 0), Item(2, 0)], Sym("E")) == [Item(0, 1), Item(1, 1)]
      && Advance(g, [Item(0, 0), Item(1, 0), Item(2, 0)], Sym("x")) == [Item(2, 1)]
      && Advance(g, [Item(0, 1), Item(1, 1)], Sym("+")) == [Item(1, 2)]
      && Advance(g, [Item(1, 2), Item(1, 0), Item(2, 0)], Sym("E")) == [Item(1, 3), Item(1, 1)]
      && Advance(g, [Item(1, 2), Item(1, 0), Item(2, 0)], Sym("x")) == [Item(2, 1)]
      && Advance(g, [Item(1, 3), Item(1, 1)], Sym("+")) == [Item(1, 2)]
  {
    hide Advance;
    var g := SumGrammar(assoc);
    AdvanceThree(g, Item(0, 0), Item(1, 0), Item(2, 0), Sym("E"));
    AdvanceThree(g, Item(0, 0), Item(1, 0), Item(2, 0), Sym("x"));
    AdvanceTwo(g, Item(0, 1), Item(1, 1), Sym("+"));
    AdvanceThree(g, Item(1, 2), Item(1, 0), Item(2, 0), Sym("E"));
    AdvanceThree(g, Item(1, 2), Item(1, 0), Item(2, 0), Sym("x"));
    AdvanceTwo(g, Item(1, 3), Item(1, 1), Sym("+"));
  }

  lemma SumStatesFound(assoc: Assoc, C: seq<seq<Item>>, K: seq<seq<Item>>, d: Delta) returns (ns: Nodes)
    requires Collection(SumGrammar(assoc), C, K, d)
    ensures SumStates(C, d, ns)
  {
    hide Collection, DotBefore, Advance;
    var g, s := SumGrammar(assoc), Sym("E");
    SumWellFormed(assoc);
    SumKernels(assoc);
    FirstKernel(g, C, K, d);
    assert Initials(g) == [Item(1, 0), Item(2, 0)];
    SumRules(assoc, Item(0, 0), s);
    OneNameState(g, C, K, d, s, 0, 0);
    assert C[0] == [Item(0, 0)] + Initials(g) == [Item(0, 0), Item(1, 0), Item(2, 0)];
    Edge(g, C, K, d, 0, s);
    Edge(g, C, K, d, 0, Sym("x"));
    var e, x := d[(0, s)], d[(0, Sym("x"))];
    SumRules(assoc, Item(0, 1), s);
    SumRules(assoc, Item(1, 1), s);
    SumRules(assoc, Item(2, 1), s);
    OneNameState(g, C, K, d, s, e, 2);
    OneNameState(g, C, K, d, s, x, 1);
    Edge(g, C, K, d, e, Sym("+"));
    var plus := d[(e, Sym("+"))];
    SumRules(assoc, Item(1, 2), s);
    OneNameState(g, C, K, d, s, plus, 0);
    assert C[plus] == [Item(1, 2)] + Initials(g) == [Item(1, 2), Item(1, 0), Item(2, 0)];
    Edge(g, C, K, d, plus, s);
    Edge(g, C, K, d, plus, Sym("x"));
    SameTarget(g, C, K, d, x, d[(plus, Sym("x"))]);
    var sum := d[(plus, s)];
    SumRules(assoc, Item(1, 3), s);
    OneNameState(g, C, K, d, s, sum, 2);
    Edge(g, C, K, d, sum, Sym("+"));
    SameTarget(g, C, K, d, plus, d[(sum, Sym("+"))]);
    ns := Nodes(e, x, plus, sum);
    StateBound(g, C, K, d, 0, s);
    StateBound(g, C, K, d, 0, Sym("x"));
    StateBound(g, C, K, d, e, Sym("+"));
    StateBound(g, C, K, d, plus, s);
  }

  // ----- The tables -----

  /** `+` and `$end` are among the lookaheads of both rules. */
  ghost predicate SumLooks(la: LookTable, ns: Nodes) {
    && (ns.x, 2) in la && Sym("+") in la[(ns.x, 2)] && End in la[(ns.x, 2)]
    && (ns.sum, 1) in la && Sym("+") in la[(ns.sum, 1)] && End in la[(ns.sum, 1)]
  }

  /** The follow set of the start symbol's transition has both, and hands them on to the other one. */
  lemma SumLooksFound(assoc: Assoc, C: seq<seq<Item>>, K: seq<seq<Item>>, d: Delta, fol: FollowMap, la: LookTable, ns: Nodes)
    requires Collection(SumGrammar(assoc), C, K, d) && Adequate(SumGrammar(assoc), C, d, fol, la) && SumStates(C, d, ns)
    ensures SumLooks(la, ns)
  {
    hide Collection, Walk, Derives, Adequate, AdequateAt, LooksAt;
    var g, s, plus := SumGrammar(assoc), Sym("E"), Sym("+");
    SumWellFormed(assoc);
    SumItems(assoc, C, d, ns);
    AdequateParts(g, C, d, fol, la);
    EmptyWalk(d, 0);
    EmptyWalk(d, ns.plus);
    WalkThree(d, 0, s, plus, s);
    WalkThree(d, ns.plus, s, plus, s);
    SumFollow(assoc, C, d, fol, ns);
    WalkOne(d, 0, Sym("x"));
    WalkOne(d, ns.plus, Sym("x"));
    assert g.Rhs(1) == [s, plus, s] && g.Rhs(2) == [Sym("x")];
    LooksFrom(g, C, d, fol, la, 0, 1, ns.sum);
    LooksFrom(g, C, d, fol, la, 0, 2, ns.x);
  }

  lemma SumItems(assoc: Assoc, C: seq<seq<Item>>, d: Delta, ns: Nodes)
    requires SumStates(C, d, ns)
    ensures Item(1, 0) in C[0] && Item(2, 0) in C[0] && Item(1, 0) in C[ns.plus] && Item(2, 0) in C[ns.plus]
  {
    assert C[0][1] == Item(1, 0) && C[0][2] == Item(2, 0) && C[ns.plus][1] == Item(1, 0) && C[ns.plus][2] == Item(2, 0);
  }

  lemma AdequateParts(g: Cfg, C: seq<seq<Item>>, d: Delta, fol: FollowMap, la: LookTable)
    requires Adequate(g, C, d, fol, la) && g.WellFormed()
    ensures (0, g.Start()) in fol && End in fol[(0, g.Start())]
    ensures forall q: nat, p: nat, i: nat {:trigger AdequateAt(g, C, d, fol, q, p, i)} :: AdequateAt(g, C, d, fol, q, p, i)
    ensures forall q: nat, p: nat {:trigger LooksAt(g, C, d, fol, la, q, p)} :: LooksAt(g, C, d, fol, la, q, p)
  {
  }

  lemma SumFollow(assoc: Assoc, C: seq<seq<Item>>, d: Delta, fol: FollowMap, ns: Nodes)
    requires SumGrammar(assoc).WellFormed() && SumStates(C, d, ns) && AdequateAt(SumGrammar(assoc), C, d, fol, 0, 1, 0)
    requires (0, Sym("E")) in fol && End in fol[(0, Sym("E"))] && Item(1, 0) in C[0] && Walk(d, 0, []) == Some(0)
    ensures Sym("+") in fol[(0, Sym("E"))]
  {
    hide Walk, Derives;
    var g, s, plus := SumGrammar(assoc), Sym("E"), Sym("+");
    assert g.Rhs(1)[..0] == [] && g.Rhs(1)[0 + 1..] == [plus] + [s];
    DerivesSelf(g, g.Rhs(1)[0 + 1..]);
    assert CanStart(g, g.Rhs(1)[0 + 1..], plus);
  }

  lemma LooksFrom(g: Cfg, C: seq<seq<Item>>, d: Delta, fol: FollowMap, la: LookTable, q: nat, p: nat, j: nat)
    requires LooksAt(g, C, d, fol, la, q, p) && q < |C| && 1 <= p < |g.productions| && Item(p, 0) in C[q]
    requires (q, g.productions[p].name) in fol && Walk(d, q, g.Rhs(p)) == Some(j)
    ensures (j, p) in la && fol[(q, g.productions[p].name)] <= la[(j, p)]
  {
  }

  /** The action on `+` behind E + E: reduce, shift, or none. */
  function BehindSum(assoc: Assoc, plus: int): Option<int> {
    match assoc
    case LeftAssoc => Some(0 - 1)
    case RightAssoc => Some(plus)
    case Nonassoc => None
  }

  /** The entries of the tables that sums meet. */
  ghost predicate SumTables(T: Tables, assoc: Assoc, ns: Nodes) {
    && T.productions == SumGrammar(assoc).productions
    && 0 in T.action && Lookup(T.action[0], Sym("x")) == Some(ns.x) && ns.x > 0
    && ns.plus in T.action && Lookup(T.action[ns.plus], Sym("x")) == Some(ns.x)
    && ns.x in T.action && Lookup(T.action[ns.x], Sym("+")) == Some(-2) && Lookup(T.action[ns.x], End) == Some(-2)
    && ns.e in T.action && Lookup(T.action[ns.e], Sym("+")) == Some(ns.plus) && ns.plus > 0 && Lookup(T.action[ns.e], End) == Some(0)
    && ns.sum in T.action && Lookup(T.action[ns.sum], End) == Some(-1)
    && Lookup(T.action[ns.sum], Sym("+")) == BehindSum(assoc, ns.plus)
    && 0 in T.goto && Sym("E") in T.goto[0] && T.goto[0][Sym("E")] == ns.e
    && ns.plus in T.goto && Sym("E") in T.goto[ns.plus] && T.goto[ns.plus][Sym("E")] == ns.sum
  }

  ghost predicate SumFilled(assoc: Assoc, C: seq<seq<Item>>, K: seq<seq<Item>>, d: Delta, fol: FollowMap, la: LookTable, T: Tables) {
    var g := SumGrammar(assoc);
    && Collection(g, C, K, d) && Adequate(g, C, d, fol, la) && Filled(g, C, d, la, T)
    && forall q :: 0 <= q < |C| ==> RowSettled(g, d, la, q, C[q], T.action[q])
  }

  /** The slot of `+` behind E + E. */
  lemma SumSlot(assoc: Assoc, C: seq<seq<Item>>, K: seq<seq<Item>>, d: Delta, la: LookTable, ns: Nodes)
    requires Collection(SumGrammar(assoc), C, K, d) && SumStates(C, d, ns) && SumLooks(la, ns)
    ensures var c := Settled(SumGrammar(assoc), d, la, ns.sum, Sym("+"), C[ns.sum]);
      c.Cell? && c.act == BehindSum(assoc, ns.plus)
  {
    hide *;
    SumWellFormed(assoc);
    SumKinds(assoc, C, d, la, ns);
    ReduceMeetsShift(Slot(SumGrammar(assoc), d, la, ns.sum, Sym("+")), C, K, 0, 1);
    SumPrecedence(assoc, ns.plus);
  }

  lemma SumKinds(assoc: Assoc, C: seq<seq<Item>>, d: Delta, la: LookTable, ns: Nodes)
    requires SumStates(C, d, ns) && SumLooks(la, ns)
    ensures ns.sum < |C| && Sym("+") in SumGrammar(assoc).terminals && (ns.sum, Sym("+")) in d && d[(ns.sum, Sym("+"))] == ns.plus
    ensures OnlyTwo(SumGrammar(assoc), la, ns.sum, Sym("+"), C[ns.sum], 0, 1) && C[ns.sum][0].num == 1
    ensures CompleteOn(SumGrammar(assoc), la, ns.sum, Sym("+"), C[ns.sum][0]) && Expects(SumGrammar(assoc), Sym("+"), C[ns.sum][1])
  {
  }

  lemma SumPrecedence(assoc: Assoc, plus: int)
    ensures var g, a := SumGrammar(assoc), Sym("+");
      && |g.productions| > 1 && g.productions[1].prec == Prec(assoc, 1) && a in g.precedence && g.precedence[a] == Prec(assoc, 1)
    ensures BehindSum(assoc, plus) == if assoc == LeftAssoc then Some(0 - 1) else if assoc == RightAssoc then Some(plus) else None
  {
  }

  lemma SumShifts(assoc: Assoc, C: seq<seq<Item>>, K: seq<seq<Item>>, d: Delta, la: LookTable, T: Tables, q: nat, it: Item, a: Symbol)
    requires Collection(SumGrammar(assoc), C, K, d) && Filled(SumGrammar(assoc), C, d, la, T) && q < |C|
    requires it in C[q] && DotBefore(SumGrammar(assoc), it, a) && a in SumGrammar(assoc).terminals
    requires forall r :: r in C[q] ==> r != Item(0, 1) && r != Item(1, 3) && r != Item(2, 1)
    ensures q in T.action && (q, a) in d && d[(q, a)] > 0 && Lookup(T.action[q], a) == Some(d[(q, a)])
  {
    hide Collection, Filled, RowOk, GotoRowOk, DotBefore, Complete;
    SumWellFormed(assoc);
    FilledRow(SumGrammar(assoc), C, d, la, T, q);
    forall r | r in C[q] ensures !Complete(SumGrammar(assoc), r) {
      SumRules(assoc, r, a);
    }
    OnlyShifts(SumGrammar(assoc), C, K, d, la, q, it, a, T.action[q]);
  }

  /** A slot for which one item of the state speaks, with one action. */
  lemma SumOnly(assoc: Assoc, C: seq<seq<Item>>, K: seq<seq<Item>>, d: Delta, la: LookTable, T: Tables, q: nat, it: Item, a: Symbol, act: int)
    requires Collection(SumGrammar(assoc), C, K, d) && Filled(SumGrammar(assoc), C, d, la, T) && q < |C|
    requires it in C[q] && ItemOffers(SumGrammar(assoc), d, la, q, a, it, act)
    requires forall r, y :: r in C[q] && ItemOffers(SumGrammar(assoc), d, la, q, a, r, y) ==> y == act
    ensures q in T.action && Lookup(T.action[q], a) == Some(act)
  {
    hide Collection, Filled, RowOk, GotoRowOk, ItemOffers;
    SumWellFormed(assoc);
    FilledRow(SumGrammar(assoc), C, d, la, T, q);
    OnlyAction(SumGrammar(assoc), C, K, d, la, q, a, act, T.action[q]);
  }

  lemma SumReduces(assoc: Assoc, C: seq<seq<Item>>, K: seq<seq<Item>>, d: Delta, la: LookTable, T: Tables, ns: Nodes)
    requires Collection(SumGrammar(assoc), C, K, d) && Filled(SumGrammar(assoc), C, d, la, T) && SumStates(C, d, ns) && SumLooks(la, ns)
    ensures ns.x in T.action && Lookup(T.action[ns.x], Sym("+")) == Some(-2) && Lookup(T.action[ns.x], End) == Some(-2)
    ensures ns.sum in T.action && Lookup(T.action[ns.sum], End) == Some(-1)
  {
    hide Collection, Filled;
    assert C[ns.x][0] == Item(2, 1) && C[ns.sum][0] == Item(1, 3);
    SumOnly(assoc, C, K, d, la, T, ns.x, Item(2, 1), Sym("+"), -2);
    SumOnly(assoc, C, K, d, la, T, ns.x, Item(2, 1), End, -2);
    SumOnly(assoc, C, K, d, la, T, ns.sum, Item(1, 3), End, -1);
  }

  lemma SumAccepts(assoc: Assoc, C: seq<seq<Item>>, K: seq<seq<Item>>, d: Delta, la: LookTable, T: Tables, ns: Nodes)
    requires Collection(SumGrammar(assoc), C, K, d) && Filled(SumGrammar(assoc), C, d, la, T) && SumStates(C, d, ns)
    ensures ns.e in T.action && Lookup(T.action[ns.e], Sym("+")) == Some(ns.plus) && Lookup(T.action[ns.e], End) == Some(0)
  {
    hide Collection, Filled;
    assert C[ns.e][0] == Item(0, 1) && C[ns.e][1] == Item(1, 1);
    SumOnly(assoc, C, K, d, la, T, ns.e, Item(1, 1), Sym("+"), ns.plus);
    SumOnly(assoc, C, K, d, la, T, ns.e, Item(0, 1), End, 0);
  }

  lemma SumGotos(assoc: Assoc, C: seq<seq<Item>>, d: Delta, la: LookTable, T: Tables, ns: Nodes)
    requires Filled(SumGrammar(assoc), C, d, la, T) && SumStates(C, d, ns)
    ensures 0 in T.goto && Sym("E") in T.goto[0] && T.goto[0][Sym("E")] == ns.e
    ensures ns.plus in T.goto && Sym("E") in T.goto[ns.plus] && T.goto[ns.plus][Sym("E")] == ns.sum
  {
    hide Filled, RowOk;
    FilledRow(SumGrammar(assoc), C, d, la, T, 0);
    FilledRow(SumGrammar(assoc), C, d, la, T, ns.plus);
  }

  lemma SumTablesFilled(assoc: Assoc, C: seq<seq<Item>>, K: seq<seq<Item>>, d: Delta, fol: FollowMap, la: LookTable, T: Tables) returns (ns: Nodes)
    requires SumFilled(assoc, C, K, d, fol, la, T)
    ensures SumTables(T, assoc, ns)
  {
    hide Collection, Adequate, Filled, RowSettled, Settled, DotBefore, SumLooks;
    var g := SumGrammar(assoc);
    ns := SumStatesFound(assoc, C, K, d);
    SumLooksFound(assoc, C, K, d, fol, la, ns);
    FilledProductions(g, C, d, la, T);
    SumItems(assoc, C, d, ns);
    SumRules(assoc, Item(2, 0), Sym("x"));
    SumShifts(assoc, C, K, d, la, T, 0, Item(2, 0), Sym("x"));
    SumShifts(assoc, C, K, d, la, T, ns.plus, Item(2, 0), Sym("x"));
    SumReduces(assoc, C, K, d, la, T, ns);
    SumAccepts(assoc, C, K, d, la, T, ns);
    SumGotos(assoc, C, d, la, T, ns);
    SumSlot(assoc, C, K, d, la, ns);
    SlotHolds(g, d, la, ns.sum, C[ns.sum], T.action[ns.sum], Sym("+"));
  }

  // ----- The trees -----

  /** The tokens of x + x + ... + x, with `n` signs. */
  function Sum(n: nat): seq<Symbol> {
    if n == 0 then [Sym("x")] else [Sym("x"), Sym("+")] + Sum(n - 1)
  }

  function Operand(): Tree {
    Node(2, [Leaf(Sym("x"))])
  }

  function Plus(l: Tree, r: Tree): Tree {
    Node(1, [l, Leaf(Sym("+")), r])
  }

  /** (...((x + x) + x) + ...) + x */
  function LeftTree(n: nat): Tree {
    if n == 0 then Operand() else Plus(LeftTree(n - 1), Operand())
  }

  /** x + (... + (x + (x + x))...) */
  function RightTree(n: nat): Tree {
    if n == 0 then Operand() else Plus(Operand(), RightTree(n - 1))
  }

  /** The lookahead behind an operand with `n` signs to come, and what is left of the input then. */
  function Ahead(n: nat): Symbol {
    if n == 0 then End else Sym("+")
  }

  function Behind(n: nat): seq<Symbol> {
    if n == 0 then [] else Sum(n - 1)
  }

  lemma SumInput(n: nat)
    ensures Sum(n) == [Sym("x")] + (if n == 0 then [] else [Sym("+")] + Behind(n))
  {
  }

  /** An operand has been read behind `states`, and `n` signs are to come. */
  function Read(states: seq<nat>, syms: seq<YaccSymbol>, n: nat): Config
    requires states != []
  {
    Config(states, syms, states[|states| - 1], Some(Token(Ahead(n))), [], Behind(n), 0, Running)
  }

  /** Two rounds read an operand: x is shifted and reduced. */
  lemma ReadOperand(T: Tables, assoc: Assoc, ns: Nodes, h: bool, states: seq<nat>, syms: seq<YaccSymbol>, n: nat)
    requires SumTables(T, assoc, ns) && states != [] && syms != []
    requires var q := states[|states| - 1]; q == 0 || q == ns.plus
    ensures var q := states[|states| - 1];
      Run(T, h, Config(states, syms, q, None, [], Sum(n), 0, Running), 2) ==
      Read(states + [if q == 0 then ns.e else ns.sum], syms + [YaccSymbol(Sym("E"), Operand())], n)
  {
    hide Run, Recover, Reduce;
    var q := states[|states| - 1];
    var c := Config(states, syms, q, None, [], Sum(n), 0, Running);
    SumInput(n);
    var rest := if n == 0 then [] else [Sym("+")] + Behind(n);
    assert Sum(n)[0] == Sym("x") && Sum(n)[1..] == rest;
    var c1 := Config(states + [ns.x], syms + [Token(Sym("x"))], ns.x, None, [], rest, 0, Running);
    assert Step(T, h, c) == c1;
    RunStep(T, h, c, 2);
    RunStep(T, h, c1, 1);
    RunStep(T, h, Step(T, h, c1), 0);
    ReduceOperand(T, assoc, ns, h, states, syms, n);
  }

  lemma ReduceOperand(T: Tables, assoc: Assoc, ns: Nodes, h: bool, states: seq<nat>, syms: seq<YaccSymbol>, n: nat)
    requires SumTables(T, assoc, ns) && states != [] && syms != []
    requires var q := states[|states| - 1]; q == 0 || q == ns.plus
    ensures var q, rest := states[|states| - 1], if n == 0 then [] else [Sym("+")] + Behind(n);
      Step(T, h, Config(states + [ns.x], syms + [Token(Sym("x"))], ns.x, None, [], rest, 0, Running)) ==
      Read(states + [if q == 0 then ns.e else ns.sum], syms + [YaccSymbol(Sym("E"), Operand())], n)
  {
    var rest := if n == 0 then [] else [Sym("+")] + Behind(n);
    var c := Config(states + [ns.x], syms + [Token(Sym("x"))], ns.x, None, [], rest, 0, Running);
    var f := Fetch(c);
    assert f == c.(lookahead := Some(Token(Ahead(n))), input := Behind(n)) by {
      assert n > 0 ==> rest[1..] == Behind(n);
    }
    assert c.statestack[..|c.statestack| - 1] == states && c.symstack[..|c.symstack| - 1] == syms;
    assert c.symstack[|c.symstack| - 1..] == [Token(Sym("x"))];
    assert Values([Token(Sym("x"))]) == [Leaf(Sym("x"))];
    assert f.lookahead.value.sym == Ahead(n);
  }

  /** One round reduces E + E. */
  lemma ReduceSum(T: Tables, assoc: Assoc, ns: Nodes, h: bool, states: seq<nat>, syms: seq<YaccSymbol>, mid: nat, l: Tree, r: Tree, n: nat)
    requires SumTables(T, assoc, ns) && states != [] && syms != [] && (n == 0 || assoc == LeftAssoc)
    requires var q := states[|states| - 1]; q == 0 || q == ns.plus
    ensures var q, e := states[|states| - 1], Sym("E");
      Run(T, h, Read(states + [mid, ns.plus, ns.sum], syms + [YaccSymbol(e, l), Token(Sym("+")), YaccSymbol(e, r)], n), 1) ==
      Read(states + [if q == 0 then ns.e else ns.sum], syms + [YaccSymbol(e, Plus(l, r))], n)
  {
    hide Run, Recover;
    var e := Sym("E");
    var top := [YaccSymbol(e, l), Token(Sym("+")), YaccSymbol(e, r)];
    var c := Read(states + [mid, ns.plus, ns.sum], syms + top, n);
    assert c.statestack[..|c.statestack| - 3] == states && c.symstack[..|c.symstack| - 3] == syms && c.symstack[|c.symstack| - 3..] == top;
    assert Values(top) == [l, Leaf(Sym("+")), r];
    RunStep(T, h, c, 1);
    RunStep(T, h, Step(T, h, c), 0);
  }

  /** Three rounds shift a sign and read the operand behind it. */
  lemma ShiftSign(T: Tables, assoc: Assoc, ns: Nodes, h: bool, states: seq<nat>, syms: seq<YaccSymbol>, n: nat)
    requires SumTables(T, assoc, ns) && states != [] && syms != [] && n > 0
    requires var q := states[|states| - 1]; q == ns.e || (q == ns.sum && assoc == RightAssoc)
    ensures Run(T, h, Read(states, syms, n), 3) ==
            Read(states + [ns.plus] + [ns.sum], syms + [Token(Sym("+"))] + [YaccSymbol(Sym("E"), Operand())], n - 1)
  {
    hide Run, Recover, Reduce;
    var c := Read(states, syms, n);
    var c1 := Config(states + [ns.plus], syms + [Token(Sym("+"))], ns.plus, None, [], Sum(n - 1), 0, Running);
    assert Step(T, h, c) == c1;
    RunStep(T, h, c, 3);
    ReadOperand(T, assoc, ns, h, states + [ns.plus], syms + [Token(Sym("+"))], n - 1);
  }

  /** An accepting round: `E` is on the stack and the input is at its end. */
  lemma AcceptSum(T: Tables, assoc: Assoc, ns: Nodes, h: bool, t: Tree)
    requires SumTables(T, assoc, ns)
    ensures Run(T, h, Read([0, ns.e], [Token(End), YaccSymbol(Sym("E"), t)], 0), 1).status == Returned(Some(t))
  {
    hide Run, Recover, Reduce;
    var c := Read([0, ns.e], [Token(End), YaccSymbol(Sym("E"), t)], 0);
    RunStep(T, h, c, 1);
    RunStep(T, h, Step(T, h, c), 0);
  }

  /** To the left: `k` signs have been dealt with, and `n` are to come. */
  lemma {:induction false} LeftRun(T: Tables, ns: Nodes, h: bool, k: nat, n: nat)
    requires SumTables(T, LeftAssoc, ns)
    ensures Run(T, h, Read([0, ns.e], [Token(End), YaccSymbol(Sym("E"), LeftTree(k))], n), 4 * n + 1).status == Returned(Some(LeftTree(k + n)))
    decreases n
  {
    hide Run, SumTables;
    var e := Sym("E");
    var states, syms := [0, ns.e], [Token(End), YaccSymbol(e, LeftTree(k))];
    if n == 0 {
      AcceptSum(T, LeftAssoc, ns, h, LeftTree(k));
    } else {
      var c := Read(states, syms, n);
      ShiftSign(T, LeftAssoc, ns, h, states, syms, n);
      assert states + [ns.plus] + [ns.sum] == [0] + [ns.e, ns.plus, ns.sum];
      var top := [YaccSymbol(e, LeftTree(k)), Token(Sym("+")), YaccSymbol(e, Operand())];
      assert syms + [Token(Sym("+"))] + [YaccSymbol(e, Operand())] == [Token(End)] + top;
      ReduceSum(T, LeftAssoc, ns, h, [0], [Token(End)], ns.e, LeftTree(k), Operand(), n - 1);
      assert [0] + [ns.e] == states;
      RunPlus(T, h, c, 3, 1);
      var j := k + 1;
      assert LeftTree(j) == Plus(LeftTree(k), Operand());
      assert [Token(End)] + [YaccSymbol(e, LeftTree(j))] == [Token(End), YaccSymbol(e, LeftTree(j))];
      LeftRun(T, ns, h, j, n - 1);
      RunPlus(T, h, c, 4, 4 * (n - 1) + 1);
    }
  }

  function RightStates(ns: Nodes, k: nat): (s: seq<nat>)
    ensures |s| == 2 * k + 2
  {
    if k == 0 then [0, ns.e] else RightStates(ns, k - 1) + [ns.plus] + [ns.sum]
  }

  /** `k` operands wait for their sums; `t` is on top. */
  function RightSyms(k: nat, t: Tree): (s: seq<YaccSymbol>)
    ensures |s| == 2 * k + 2
  {
    if k == 0 then [Token(End), YaccSymbol(Sym("E"), t)]
    else RightSyms(k - 1, Operand()) + [Token(Sym("+"))] + [YaccSymbol(Sym("E"), t)]
  }

  /** To the right: all signs are shifted first. */
  lemma {:induction false} ShiftAll(T: Tables, ns: Nodes, h: bool, k: nat, n: nat)
    requires SumTables(T, RightAssoc, ns)
    ensures Run(T, h, Read(RightStates(ns, k), RightSyms(k, Operand()), n), 3 * n) ==
            Read(RightStates(ns, k + n), RightSyms(k + n, Operand()), 0)
    decreases n
  {
    hide Run, SumTables;
    var c := Read(RightStates(ns, k), RightSyms(k, Operand()), n);
    if n == 0 {
      RunStep(T, h, c, 0);
    } else {
      var j := k + 1;
      ShiftSign(T, RightAssoc, ns, h, RightStates(ns, k), RightSyms(k, Operand()), n);
      assert RightStates(ns, j) == RightStates(ns, k) + [ns.plus] + [ns.sum];
      assert RightSyms(j, Operand()) == RightSyms(k, Operand()) + [Token(Sym("+"))] + [YaccSymbol(Sym("E"), Operand())];
      ShiftAll(T, ns, h, j, n - 1);
      RunPlus(T, h, c, 3, 3 * (n - 1));
    }
  }

  lemma RightParts(ns: Nodes, k: nat, t: Tree) returns (states: seq<nat>, syms: seq<YaccSymbol>, mid: nat)
    ensures states != [] && syms != []
    ensures RightStates(ns, k) == states + [mid] && forall t :: RightSyms(k, t) == syms + [YaccSymbol(Sym("E"), t)]
    ensures var q := states[|states| - 1]; (q == 0 || q == ns.plus) && mid == if k == 0 then ns.e else ns.sum
    ensures k == 0 ==> states[|states| - 1] == 0
    ensures k > 0 && ns.plus > 0 ==> states[|states| - 1] > 0
  {
    if k == 0 {
      states, syms, mid := [0], [Token(End)], ns.e;
    } else {
      states, syms, mid := RightStates(ns, k - 1) + [ns.plus], RightSyms(k - 1, Operand()) + [Token(Sym("+"))], ns.sum;
    }
  }

  /** Then they are reduced from the right. */
  lemma {:induction false} ReduceAll(T: Tables, ns: Nodes, h: bool, k: nat, j: nat)
    requires SumTables(T, RightAssoc, ns)
    ensures Run(T, h, Read(RightStates(ns, k), RightSyms(k, RightTree(j)), 0), k + 1).status == Returned(Some(RightTree(k + j)))
    decreases k
  {
    hide Run, SumTables;
    var e, t := Sym("E"), RightTree(j);
    if k == 0 {
      AcceptSum(T, RightAssoc, ns, h, t);
    } else {
      var c := Read(RightStates(ns, k), RightSyms(k, t), 0);
      var i := k - 1;
      var states, syms, mid := RightParts(ns, i, t);
      PlusPositive(T, RightAssoc, ns);
      assert RightStates(ns, k) == states + [mid, ns.plus, ns.sum];
      assert RightSyms(k, t) == syms + [YaccSymbol(e, Operand()), Token(Sym("+")), YaccSymbol(e, t)];
      ReduceSum(T, RightAssoc, ns, h, states, syms, mid, Operand(), t, 0);
      var l := j + 1;
      assert RightTree(l) == Plus(Operand(), t);
      ReduceAll(T, ns, h, i, l);
      RunPlus(T, h, c, 1, i + 1);
    }
  }

  lemma PlusPositive(T: Tables, assoc: Assoc, ns: Nodes)
    requires SumTables(T, assoc, ns)
    ensures ns.plus > 0
  {
  }

  /** The first operand. */
  lemma FirstOperand(T: Tables, assoc: Assoc, ns: Nodes, h: bool, n: nat)
    requires SumTables(T, assoc, ns)
    ensures Run(T, h, Initial(Sum(n)), 2) == Read([0, ns.e], [Token(End), YaccSymbol(Sym("E"), Operand())], n)
  {
    hide Run, SumTables;
    ReadOperand(T, assoc, ns, h, [0], [Token(End)], n);
    assert [0] + [ns.e] == [0, ns.e];
    assert [Token(End)] + [YaccSymbol(Sym("E"), Operand())] == [Token(End), YaccSymbol(Sym("E"), Operand())];
  }

  /** With the tables generated for the grammar, by either method, x + x + ... + x groups to the left if `+` is
      declared left-associative and to the right if right-associative; if it is non-associative the second
      sign is an error. */
  lemma SumsGroup(assoc: Assoc, C: seq<seq<Item>>, K: seq<seq<Item>>, d: Delta, fol: FollowMap, la: LookTable, T: Tables, h: bool, n: nat)
    requires SumFilled(assoc, C, K, d, fol, la, T)
    ensures assoc == LeftAssoc ==> Run(T, h, Initial(Sum(n)), 4 * n + 3).status == Returned(Some(LeftTree(n)))
    ensures assoc == RightAssoc ==> Run(T, h, Initial(Sum(n)), 4 * n + 3).status == Returned(Some(RightTree(n)))
    ensures assoc == Nonassoc && n >= 2 ==> Errs(T, Run(T, h, Initial(Sum(n)), 5))
  {
    hide *;
    var ns := SumTablesFilled(assoc, C, K, d, fol, la, T);
    FirstOperand(T, assoc, ns, h, n);
    match assoc
    case LeftAssoc =>
      LeftZero();
      LeftRun(T, ns, h, 0, n);
      RunPlus(T, h, Initial(Sum(n)), 2, 4 * n + 1);
    case RightAssoc =>
      RightZero(ns);
      ShiftAll(T, ns, h, 0, n);
      ReduceAll(T, ns, h, n, 0);
      RunPlus(T, h, Initial(Sum(n)), 2, 3 * n);
      RunPlus(T, h, Initial(Sum(n)), 2 + 3 * n, n + 1);
    case Nonassoc =>
      if n >= 2 {
        NoSecondSign(T, ns, h, n);
        RunPlus(T, h, Initial(Sum(n)), 2, 3);
      }
  }

  lemma LeftZero()
    ensures LeftTree(0) == Operand()
  {
  }

  lemma RightZero(ns: Nodes)
    ensures RightTree(0) == Operand() && RightStates(ns, 0) == [0, ns.e]
    ensures RightSyms(0, Operand()) == [Token(End), YaccSymbol(Sym("E"), Operand())]
  {
  }

  lemma NoSecondSign(T: Tables, ns: Nodes, h: bool, n: nat)
    requires SumTables(T, Nonassoc, ns) && n >= 2
    ensures Errs(T, Run(T, h, Read([0, ns.e], [Token(End), YaccSymbol(Sym("E"), Operand())], n), 3))
  {
    hide Run;
    ShiftSign(T, Nonassoc, ns, h, [0, ns.e], [Token(End), YaccSymbol(Sym("E"), Operand())], n);
  }
}
