/** In a grammar that passes the check for infinite recursion every state has something to do, so LALR
    tables lose nothing on their way through the table file. */
module ActiveStates {
  import opened Lists
  import opened Grammars
  import opened GrammarFacts
  import opened Items
  import opened ParserTables
  import opened Engine
  import opened TableFill
  import opened TableFile

  /** What `infinite_cycles` looks for is absent: every nonterminal derives some string of terminals. */
  ghost predicate AllProductive(g: Cfg) {
    forall n :: n in g.nonterminals ==> Productive(g, n)
  }

  /** What comes after an occurrence ends in tokens, or vanishes. */
  lemma RestDerives(g: Cfg, it: Item, i: nat) returns (w: seq<Symbol>)
    requires g.WellFormed() && AllProductive(g) && ValidItem(g, it) && i <= |g.Rhs(it.num)|
    ensures Derives(g, g.Rhs(it.num)[i..], w) && forall a :: a in w ==> a in g.terminals
  {
    var rest := g.Rhs(it.num)[i..];
    forall x | x in rest ensures Productive(g, x) {
      var k :| 0 <= k < |rest| && rest[k] == x;
      assert g.productions[it.num].rhs[i + k] == x;
      if x in g.terminals {
        DerivesSelf(g, [x]);
      }
    }
    w := ProductiveForest(g, rest);
  }

  /** Some terminal can follow the transition. */
  ghost predicate Followed(fol: FollowMap, q: nat, n: Symbol) {
    (q, n) in fol && fol[(q, n)] != {}
  }

  /** The item was started in a state where something can follow its nonterminal. */
  ghost predicate WellStarted(g: Cfg, C: seq<seq<Item>>, d: Delta, fol: FollowMap, q: nat, it: Item) {
    exists s :: StartedIn(g, C, d, fol, q, it, s)
  }

  ghost predicate StartedIn(g: Cfg, C: seq<seq<Item>>, d: Delta, fol: FollowMap, q: nat, it: Item, s: nat) {
    && s < |C| && ValidItem(g, it) && Item(it.num, 0) in C[s] && Walk(d, s, g.Rhs(it.num)[..it.dot]) == Some(q)
    && (it.num > 0 ==> Followed(fol, s, g.productions[it.num].name))
  }

  lemma StartOfAll(g: Cfg, C: seq<seq<Item>>, K: seq<seq<Item>>, d: Delta, fol: FollowMap)
    requires Collection(g, C, K, d) && g.WellFormed()
    ensures WellStarted(g, C, d, fol, 0, Item(0, 0))
  {
    StartItem(g, C, K, d, 0);
    assert g.Rhs(0)[..0] == [];
    assert StartedIn(g, C, d, fol, 0, Item(0, 0), 0);
  }

  /** Moving an item over its next symbol keeps its start. */
  lemma StartMoves(g: Cfg, C: seq<seq<Item>>, d: Delta, fol: FollowMap, q: nat, it: Item, x: Symbol)
    requires WellStarted(g, C, d, fol, q, it) && DotBefore(g, it, x) && (q, x) in d
    ensures WellStarted(g, C, d, fol, d[(q, x)], it.Next())
  {
    var s :| StartedIn(g, C, d, fol, q, it, s);
    assert g.Rhs(it.num)[..it.dot + 1] == g.Rhs(it.num)[..it.dot] + [x];
    WalkSnoc(d, s, g.Rhs(it.num)[..it.dot], x);
    assert StartedIn(g, C, d, fol, d[(q, x)], it.Next(), s);
  }

  /** An item called for by a well started one is well started. */
  lemma StartCalls(g: Cfg, C: seq<seq<Item>>, K: seq<seq<Item>>, d: Delta, fol: FollowMap, la: LookTable, q: nat, it: Item, p: nat)
    requires Collection(g, C, K, d) && Adequate(g, C, d, fol, la) && AllProductive(g)
    requires q < |C| && WellStarted(g, C, d, fol, q, it) && 1 <= p < |g.productions|
    requires Item(p, 0) in C[q] && DotBefore(g, it, g.productions[p].name)
    ensures WellStarted(g, C, d, fol, q, Item(p, 0))
  {
    hide Collection, AllProductive;
    var s :| StartedIn(g, C, d, fol, q, it, s);
    var n := g.productions[p].name;
    if it.num == 0 {
      StartItem(g, C, K, d, s);
      assert g.Rhs(0)[..0] == [] && it == Item(0, 0);
    } else {
      CalledFollowed(g, C, d, fol, la, s, q, it);
    }
    assert g.Rhs(p)[..0] == [];
    assert StartedIn(g, C, d, fol, q, Item(p, 0), q);
  }

  lemma CalledFollowed(g: Cfg, C: seq<seq<Item>>, d: Delta, fol: FollowMap, la: LookTable, s: nat, q: nat, it: Item)
    requires Adequate(g, C, d, fol, la) && AllProductive(g) && StartedIn(g, C, d, fol, q, it, s) && it.num > 0
    requires it.dot < |g.Rhs(it.num)| && g.Rhs(it.num)[it.dot] in g.nonterminals
    ensures Followed(fol, q, g.Rhs(it.num)[it.dot])
  {
    hide AllProductive, Walk;
    assert AdequateAt(g, C, d, fol, s, it.num, it.dot);
    var w := RestDerives(g, it, it.dot + 1);
    if w == [] {
      var a :| a in fol[(s, g.productions[it.num].name)];
      assert a in fol[(q, g.Rhs(it.num)[it.dot])];
    } else {
      assert w == [w[0]] + w[1..];
      assert CanStart(g, g.Rhs(it.num)[it.dot + 1..], w[0]);
      assert w[0] in fol[(q, g.Rhs(it.num)[it.dot])];
    }
  }

  /** Every item of every state is well started: by induction over the states in the order of their
      numbers, and over the items of a state in their order. */
  lemma {:induction false} EveryItemStarted(g: Cfg, C: seq<seq<Item>>, K: seq<seq<Item>>, d: Delta, fol: FollowMap, la: LookTable, q: nat, i: nat)
    requires Collection(g, C, K, d) && Adequate(g, C, d, fol, la) && AllProductive(g) && q < |C| && i < |C[q]|
    ensures WellStarted(g, C, d, fol, q, C[q][i])
    decreases q, i
  {
    hide Collection, AllProductive, Adequate, WellStarted;
    var it := C[q][i];
    var kernel := KernelSize(g, C, K, d, q);
    if i >= kernel {
      var m := Caller(g, C, K, d, q, i);
      EveryItemStarted(g, C, K, d, fol, la, q, m);
      StartCalls(g, C, K, d, fol, la, q, C[q][m], it.num);
    } else if q == 0 {
      FirstKernel(g, C, K, d, i);
      AdequateWellFormed(g, C, d, fol, la);
      StartOfAll(g, C, K, d, fol);
    } else {
      var e, j := KernelSource(g, C, K, d, q, i);
      EveryItemStarted(g, C, K, d, fol, la, e.0, j);
      StartMoves(g, C, d, fol, e.0, C[e.0][j], e.1);
    }
  }

  lemma AdequateWellFormed(g: Cfg, C: seq<seq<Item>>, d: Delta, fol: FollowMap, la: LookTable)
    requires Adequate(g, C, d, fol, la)
    ensures g.WellFormed()
  {
  }

  lemma FirstKernel(g: Cfg, C: seq<seq<Item>>, K: seq<seq<Item>>, d: Delta, i: nat)
    requires Collection(g, C, K, d) && i < |K[0]|
    ensures i < |C[0]| && C[0][i] == Item(0, 0)
  {
    assert IsClosure(g, K[0], C[0]);
  }

  /** A kernel item was moved out of a state with a smaller number. */
  lemma KernelSource(g: Cfg, C: seq<seq<Item>>, K: seq<seq<Item>>, d: Delta, q: nat, i: nat) returns (e: (nat, Symbol), j: nat)
    requires Collection(g, C, K, d) && 0 < q < |C| && i < |K[q]| <= |C[q]|
    ensures e in d && d[e] == q && e.0 < q && j < |C[e.0]| && DotBefore(g, C[e.0][j], e.1) && C[e.0][j].Next() == C[q][i]
  {
    assert IsClosure(g, K[q], C[q]);
    assert K[q][i] == C[q][i];
    assert Reached(d, q);
    e :| e in d && e.0 < q && d[e] == q;
    AdvanceItems(g, C[e.0], e.1);
    assert Moved(g, C[e.0], e.1, K[q][i]);
    j :| 0 <= j < |C[e.0]| && C[e.0][j] == Item(C[q][i].num, C[q][i].dot - 1);
  }

  // ----- Something to do in every state -----

  ghost predicate Active(g: Cfg, C: seq<seq<Item>>, d: Delta, la: LookTable, q: nat) {
    q < |C| && exists a :: Spoken(g, d, la, q, a, C[q])
  }

  lemma CompletedActs(g: Cfg, C: seq<seq<Item>>, d: Delta, fol: FollowMap, la: LookTable, q: nat, it: Item)
    requires Adequate(g, C, d, fol, la) && q < |C| && it in C[q] && ValidItem(g, it) && it.dot == |g.Rhs(it.num)|
    requires WellStarted(g, C, d, fol, q, it)
    ensures Active(g, C, d, la, q)
  {
    hide Walk;
    if it.num == 0 {
      AcceptSpeaks(g, d, la, q, End, it);
      assert Spoken(g, d, la, q, End, C[q]);
    } else {
      var s :| StartedIn(g, C, d, fol, q, it, s);
      assert g.Rhs(it.num)[..it.dot] == g.Rhs(it.num);
      assert LooksAt(g, C, d, fol, la, s, it.num);
      var a :| a in fol[(s, g.productions[it.num].name)];
      ReduceSpeaks(g, d, la, q, a, it);
      assert Spoken(g, d, la, q, a, C[q]);
    }
  }

  lemma ShiftActs(g: Cfg, C: seq<seq<Item>>, K: seq<seq<Item>>, d: Delta, la: LookTable, q: nat, it: Item, x: Symbol)
    requires Collection(g, C, K, d) && q < |C| && it in C[q] && DotBefore(g, it, x) && x in g.terminals
    ensures Active(g, C, d, la, q)
  {
    hide Collection;
    MoveItem(g, C, K, d, q, it, x);
    ShiftSpeaks(g, d, la, q, x, it, x);
    assert Spoken(g, d, la, q, x, C[q]);
  }

  /** Follow a derivation of the expected symbol down to its first token or first empty production. */
  lemma {:induction false} ExpectedActs(g: Cfg, C: seq<seq<Item>>, K: seq<seq<Item>>, d: Delta, fol: FollowMap, la: LookTable,
                                        q: nat, it: Item, t: Tree)
    requires Collection(g, C, K, d) && Adequate(g, C, d, fol, la) && AllProductive(g) && q < |C| && it in C[q]
    requires ValidTree(g, t) && DotBefore(g, it, Root(g, t)) && forall a :: a in Yield(t) ==> a in g.terminals
    ensures Active(g, C, d, la, q)
    decreases t
  {
    hide Collection, Adequate, AllProductive, Active, DotBefore, Yields;
    match t
    case Leaf(s) =>
      assert s in Yield(t);
      ShiftActs(g, C, K, d, la, q, it, s);
    case Node(p, kids) =>
      AdequateWellFormed(g, C, d, fol, la);
      ExpectedProduction(g, it, p);
      CloseItem(g, C, K, d, q, it, p);
      if kids == [] {
        assert |g.Rhs(p)| == 0;
        ItemStarted(g, C, K, d, fol, la, q, Item(p, 0));
        CompletedActs(g, C, d, fol, la, q, Item(p, 0));
      } else {
        FirstKid(g, p, kids);
        ExpectedActs(g, C, K, d, fol, la, q, Item(p, 0), kids[0]);
      }
  }

  lemma FirstKid(g: Cfg, p: nat, kids: seq<Tree>)
    requires p < |g.productions| && Forest(g, g.Rhs(p), kids) && kids != []
    ensures DotBefore(g, Item(p, 0), Root(g, kids[0])) && forall a :: a in Yield(kids[0]) ==> a in Yields(kids)
  {
    assert Roots(g, kids)[0] == Root(g, kids[0]);
  }

  lemma ExpectedProduction(g: Cfg, it: Item, p: nat)
    requires g.WellFormed() && p < |g.productions| && DotBefore(g, it, g.productions[p].name)
    ensures p > 0
  {
    assert g.Rhs(it.num)[it.dot] in g.terminals + g.nonterminals;
  }

  lemma ItemStarted(g: Cfg, C: seq<seq<Item>>, K: seq<seq<Item>>, d: Delta, fol: FollowMap, la: LookTable, q: nat, it: Item)
    requires Collection(g, C, K, d) && Adequate(g, C, d, fol, la) && AllProductive(g) && q < |C| && it in C[q]
    ensures WellStarted(g, C, d, fol, q, it)
  {
    hide Collection, Adequate, AllProductive, WellStarted;
    var i :| 0 <= i < |C[q]| && C[q][i] == it;
    EveryItemStarted(g, C, K, d, fol, la, q, i);
  }

  /** With adequate lookaheads and no infinite recursion, every state offers some action. */
  lemma EveryStateActive(g: Cfg, C: seq<seq<Item>>, K: seq<seq<Item>>, d: Delta, fol: FollowMap, la: LookTable, q: nat)
    requires Collection(g, C, K, d) && Adequate(g, C, d, fol, la) && AllProductive(g) && q < |C|
    ensures Active(g, C, d, la, q)
  {
    hide Collection, Adequate, Active, WellStarted;
    AdequateWellFormed(g, C, d, fol, la);
    var n := KernelSize(g, C, K, d, q);
    var it := C[q][0];
    StateItems(g, C, K, d, q, it);
    if it.dot == |g.Rhs(it.num)| {
      ItemStarted(g, C, K, d, fol, la, q, it);
      CompletedActs(g, C, d, fol, la, q, it);
    } else {
      var x := g.Rhs(it.num)[it.dot];
      assert g.productions[it.num].rhs[it.dot] in g.terminals + g.nonterminals;
      if x in g.terminals {
        ShiftActs(g, C, K, d, la, q, it, x);
      } else {
        assert Productive(g, x);
        var w :| Derives(g, [x], w) && forall a :: a in w ==> a in g.terminals;
        var t := TreeOf(g, x, w);
        ExpectedActs(g, C, K, d, fol, la, q, it, t);
      }
    }
  }

  /** The parser with reloaded tables is the parser with the original ones, on every input. */
  lemma ReloadedParser(g: Cfg, C: seq<seq<Item>>, K: seq<seq<Item>>, d: Delta, fol: FollowMap, la: LookTable, T: Tables, h: bool,
                       input: seq<Symbol>, n: nat)
    requires Collection(g, C, K, d) && Adequate(g, C, d, fol, la) && AllProductive(g)
    requires Filled(g, C, d, la, T) && forall q :: 0 <= q < |C| ==> RowSettled(g, d, la, q, C[q], T.action[q])
    ensures Run(Reloaded(T), h, Initial(input), n) == Run(T, h, Initial(input), n)
  {
    hide *;
    RowsThere(g, C, d, la, T);
    forall s | s in T.action ensures T.action[s] != map[] {
      EveryStateActive(g, C, K, d, fol, la, s);
      ActiveRow(g, C, d, la, s, T.action[s]);
    }
    ReloadedRun(T, h, Initial(input), n);
  }

  lemma RowsThere(g: Cfg, C: seq<seq<Item>>, d: Delta, la: LookTable, T: Tables)
    requires Filled(g, C, d, la, T)
    ensures forall q: nat :: q in T.action <==> q < |C|
  {
  }

  lemma ActiveRow(g: Cfg, C: seq<seq<Item>>, d: Delta, la: LookTable, q: nat, row: ActionRow)
    requires Active(g, C, d, la, q) && RowSettled(g, d, la, q, C[q], row)
    ensures row != map[]
  {
    hide Spoken;
    var a :| Spoken(g, d, la, q, a, C[q]);
    assert SlotSettled(g, d, la, q, C[q], row, a);
  }
}
