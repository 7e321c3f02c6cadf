/** Context-free grammars as the parser generator sees them, the rewriting relation on
    sentential forms, and derivation trees as a second, equivalent account of it. */
module Grammars {

  /** A grammar symbol. The four reserved names cannot clash with a user's names: rule names and
      right-hand sides must match an identifier pattern, and `error` may not name a rule. */
  datatype Symbol = Sym(name: string) | Error | End | Empty | Augmented

  datatype Assoc = LeftAssoc | RightAssoc | Nonassoc

  datatype Precedence = Prec(assoc: Assoc, level: nat)

  /** The level of a terminal or production that no precedence rule mentions. */
  const NO_PRECEDENCE := Prec(RightAssoc, 0)

  datatype Production = Production(name: Symbol, rhs: seq<Symbol>, prec: Precedence, line: int)

  /** The dictionaries of the grammar object after `set_start`. Dictionary keys become sets, so
      iterating them in an arbitrary order covers every order the interpreter may choose. */
  datatype Cfg = Cfg(productions: seq<Production>, terminals: set<Symbol>, nonterminals: set<Symbol>,
                     precedence: map<Symbol, Precedence>)
  {
    /** What `add_production`, `set_start` and the checks of `yacc` leave behind. */
    ghost predicate WellFormed() {
      && |productions| >= 2
      && productions[0].name == Augmented
      && |productions[0].rhs| == 1 && productions[0].rhs[0] in nonterminals
      && terminals !! nonterminals
      && {End, Empty, Augmented} !! terminals + nonterminals
      && Error in terminals
      && (forall p :: 1 <= p < |productions| ==> productions[p].name in nonterminals)
      && (forall p, i :: 0 <= p < |productions| && 0 <= i < |productions[p].rhs| ==>
            productions[p].rhs[i] in terminals + nonterminals)
      && (forall n :: n in nonterminals ==> exists p :: 1 <= p < |productions| && productions[p].name == n)
      && (forall p, q :: 1 <= p < q < |productions| ==>
            productions[p].name != productions[q].name || productions[p].rhs != productions[q].rhs)
    }

    function Start(): Symbol
      requires WellFormed()
    {
      productions[0].rhs[0]
    }

    /** `Prodnames[n]`: the numbers of n's productions, in the order they were added. */
    function Prodnames(n: Symbol): (ps: seq<nat>)
      ensures forall j :: 0 <= j < |ps| ==> 1 <= ps[j] < |productions| && productions[ps[j]].name == n
      ensures forall p :: 1 <= p < |productions| && productions[p].name == n ==> p in ps
    {
      ProdnamesUpTo(n, |productions|)
    }

    function ProdnamesUpTo(n: Symbol, k: nat): (ps: seq<nat>)
      requires k <= |productions|
      ensures forall j :: 0 <= j < |ps| ==> 1 <= ps[j] < k && productions[ps[j]].name == n
      ensures forall p :: 1 <= p < k && productions[p].name == n ==> p in ps
    {
      if k <= 1 then []
      else if productions[k - 1].name == n then ProdnamesUpTo(n, k - 1) + [k - 1]
      else ProdnamesUpTo(n, k - 1)
    }

    function Rhs(p: nat): seq<Symbol>
      requires p < |productions|
    {
      productions[p].rhs
    }
  }

  // ----- Rewriting sentential forms -----

  /** `b` is `a` with the symbol at index `i` replaced by the right-hand side of production `p`. */
  ghost predicate RewritesAt(g: Cfg, a: seq<Symbol>, b: seq<Symbol>, i: nat, p: nat) {
    && i < |a| && p < |g.productions|
    && a[i] == g.productions[p].name
    && b == a[..i] + g.productions[p].rhs + a[i + 1..]
  }

  ghost predicate Rewrites(g: Cfg, a: seq<Symbol>, b: seq<Symbol>) {
    exists i: nat, p: nat :: RewritesAt(g, a, b, i, p)
  }

  ghost predicate DerivesIn(g: Cfg, a: seq<Symbol>, b: seq<Symbol>, n: nat)
    decreases n
  {
    if n == 0 then a == b else exists c :: Rewrites(g, a, c) && DerivesIn(g, c, b, n - 1)
  }

  ghost predicate Terminals(g: Cfg, w: seq<Symbol>) {
    forall i :: 0 <= i < |w| ==> w[i] in g.terminals
  }

  ghost predicate Derives(g: Cfg, a: seq<Symbol>, b: seq<Symbol>) {
    exists n: nat :: DerivesIn(g, a, b, n)
  }

  lemma {:induction false} DerivesInTrans(g: Cfg, a: seq<Symbol>, b: seq<Symbol>, c: seq<Symbol>, m: nat, n: nat)
    requires DerivesIn(g, a, b, m) && DerivesIn(g, b, c, n)
    ensures DerivesIn(g, a, c, m + n)
    decreases m
  {
    if m > 0 {
      var d :| Rewrites(g, a, d) && DerivesIn(g, d, b, m - 1);
      DerivesInTrans(g, d, b, c, m - 1, n);
    }
  }

  lemma DerivesTrans(g: Cfg, a: seq<Symbol>, b: seq<Symbol>, c: seq<Symbol>)
    requires Derives(g, a, b) && Derives(g, b, c)
    ensures Derives(g, a, c)
  {
    var m: nat :| DerivesIn(g, a, b, m);
    var n: nat :| DerivesIn(g, b, c, n);
    DerivesInTrans(g, a, b, c, m, n);
  }

  lemma RewritesContext(g: Cfg, x: seq<Symbol>, a: seq<Symbol>, c: seq<Symbol>, y: seq<Symbol>)
    requires Rewrites(g, a, c)
    ensures Rewrites(g, x + a + y, x + c + y)
  {
    var i: nat, p: nat :| RewritesAt(g, a, c, i, p);
    var xa := x + a + y;
    var j := |x| + i;
    assert xa[j] == a[i];
    assert xa[..j] == x + a[..i];
    assert xa[j + 1..] == a[i + 1..] + y;
    assert x + c + y == xa[..j] + g.productions[p].rhs + xa[j + 1..];
    assert RewritesAt(g, xa, x + c + y, j, p);
  }

  lemma {:induction false} DerivesInContext(g: Cfg, x: seq<Symbol>, a: seq<Symbol>, b: seq<Symbol>, y: seq<Symbol>, n: nat)
    requires DerivesIn(g, a, b, n)
    ensures DerivesIn(g, x + a + y, x + b + y, n)
    decreases n
  {
    if n > 0 {
      var c :| Rewrites(g, a, c) && DerivesIn(g, c, b, n - 1);
      DerivesInContext(g, x, c, b, y, n - 1);
      RewritesContext(g, x, a, c, y);
    }
  }

  lemma DerivesContext(g: Cfg, x: seq<Symbol>, a: seq<Symbol>, b: seq<Symbol>, y: seq<Symbol>)
    requires Derives(g, a, b)
    ensures Derives(g, x + a + y, x + b + y)
  {
    var n: nat :| DerivesIn(g, a, b, n);
    DerivesInContext(g, x, a, b, y, n);
  }

  lemma DerivesJoin(g: Cfg, a: seq<Symbol>, a': seq<Symbol>, b: seq<Symbol>, b': seq<Symbol>)
    requires Derives(g, a, a') && Derives(g, b, b')
    ensures Derives(g, a + b, a' + b')
  {
    DerivesContext(g, [], a, a', b);
    DerivesContext(g, a', b, b', []);
    assert [] + a + b == a + b;
    assert [] + a' + b == a' + b;
    assert a' + b + [] == a' + b;
    assert a' + b' + [] == a' + b';
    DerivesTrans(g, a + b, a' + b, a' + b');
  }

  lemma DerivesSelf(g: Cfg, a: seq<Symbol>)
    ensures Derives(g, a, a)
  {
    assert DerivesIn(g, a, a, 0);
  }

  lemma DerivesProduction(g: Cfg, p: nat)
    requires p < |g.productions|
    ensures Derives(g, [g.productions[p].name], g.Rhs(p))
  {
    var a := [g.productions[p].name];
    assert g.Rhs(p) == a[..0] + g.productions[p].rhs + a[1..];
    assert RewritesAt(g, a, g.Rhs(p), 0, p);
    assert Rewrites(g, a, g.Rhs(p)) && DerivesIn(g, g.Rhs(p), g.Rhs(p), 0);
    assert DerivesIn(g, a, g.Rhs(p), 1);
  }

  // ----- Derivation trees -----

  /** A derivation tree. A leaf may carry any symbol, so yields are sentential forms. */
  datatype Tree = Leaf(sym: Symbol) | Node(prod: nat, kids: seq<Tree>)

  function Root(g: Cfg, t: Tree): Symbol {
    match t
    case Leaf(s) => s
    case Node(p, _) => if p < |g.productions| then g.productions[p].name else Empty
  }

  function Roots(g: Cfg, ts: seq<Tree>): (r: seq<Symbol>)
    ensures |r| == |ts|
  {
    seq(|ts|, i requires 0 <= i < |ts| => Root(g, ts[i]))
  }

  ghost predicate ValidTree(g: Cfg, t: Tree) {
    match t
    case Leaf(_) => true
    case Node(p, kids) =>
      && p < |g.productions|
      && Roots(g, kids) == g.productions[p].rhs
      && forall i :: 0 <= i < |kids| ==> ValidTree(g, kids[i])
  }

  /** `ts` is a forest of valid trees whose roots spell `alpha`. */
  ghost predicate Forest(g: Cfg, alpha: seq<Symbol>, ts: seq<Tree>) {
    && Roots(g, ts) == alpha
    && forall i :: 0 <= i < |ts| ==> ValidTree(g, ts[i])
  }

  function Yield(t: Tree): seq<Symbol>
    decreases t, 1
  {
    match t
    case Leaf(s) => [s]
    case Node(_, kids) => Yields(kids)
  }

  function Yields(ts: seq<Tree>): seq<Symbol>
    decreases ts, 0
  {
    if ts == [] then [] else Yield(ts[0]) + Yields(ts[1..])
  }

  function Leaves(a: seq<Symbol>): (ts: seq<Tree>)
    ensures |ts| == |a|
  {
    seq(|a|, i requires 0 <= i < |a| => Leaf(a[i]))
  }

  lemma {:induction false} YieldsConcat(ts: seq<Tree>, us: seq<Tree>)
    ensures Yields(ts + us) == Yields(ts) + Yields(us)
  {
    if ts == [] {
      assert ts + us == us;
    } else {
      assert (ts + us)[1..] == ts[1..] + us;
      YieldsConcat(ts[1..], us);
    }
  }

  lemma YieldsOne(t: Tree)
    ensures Yields([t]) == Yield(t)
  {
    assert Yields([t][1..]) == [];
  }

  lemma {:induction false} LeavesYield(g: Cfg, a: seq<Symbol>)
    ensures Forest(g, a, Leaves(a)) && Yields(Leaves(a)) == a
  {
    if a != [] {
      assert Leaves(a)[1..] == Leaves(a[1..]);
      LeavesYield(g, a[1..]);
    }
  }

  lemma ForestConcat(g: Cfg, a: seq<Symbol>, ts: seq<Tree>, b: seq<Symbol>, us: seq<Tree>)
    requires Forest(g, a, ts) && Forest(g, b, us)
    ensures Forest(g, a + b, ts + us) && Yields(ts + us) == Yields(ts) + Yields(us)
  {
    YieldsConcat(ts, us);
  }

  lemma ForestSlice(g: Cfg, a: seq<Symbol>, ts: seq<Tree>, i: nat, j: nat)
    requires Forest(g, a, ts) && i <= j <= |a|
    ensures |ts| == |a| && Forest(g, a[i..j], ts[i..j])
  {
    assert |Roots(g, ts)| == |ts|;
    forall k | 0 <= k < j - i
      ensures Roots(g, ts[i..j])[k] == a[i..j][k]
    {
      assert Roots(g, ts)[i + k] == a[i + k];
    }
  }

  lemma {:induction false} TreeDerives(g: Cfg, t: Tree)
    requires ValidTree(g, t)
    ensures Derives(g, [Root(g, t)], Yield(t))
    decreases t, 1
  {
    match t
    case Leaf(s) =>
      DerivesSelf(g, [s]);
    case Node(p, kids) =>
      DerivesProduction(g, p);
      ForestDerives(g, g.Rhs(p), kids);
      DerivesTrans(g, [Root(g, t)], g.Rhs(p), Yield(t));
  }

  lemma {:induction false} ForestDerives(g: Cfg, a: seq<Symbol>, ts: seq<Tree>)
    requires Forest(g, a, ts)
    ensures Derives(g, a, Yields(ts))
    decreases ts, 0
  {
    if ts == [] {
      DerivesSelf(g, a);
    } else {
      var t, rest := ts[0], ts[1..];
      ForestSlice(g, a, ts, 1, |a|);
      assert a[1..|a|] == a[1..] && ts[1..|a|] == rest;
      TreeDerives(g, t);
      ForestDerives(g, a[1..], rest);
      assert a == [Root(g, t)] + a[1..];
      DerivesJoin(g, [Root(g, t)], Yield(t), a[1..], Yields(rest));
    }
  }

  lemma {:induction false} DerivesInForest(g: Cfg, a: seq<Symbol>, b: seq<Symbol>, n: nat) returns (ts: seq<Tree>)
    requires DerivesIn(g, a, b, n)
    ensures Forest(g, a, ts) && Yields(ts) == b
    decreases n
  {
    if n == 0 {
      LeavesYield(g, a);
      ts := Leaves(a);
    } else {
      var c :| Rewrites(g, a, c) && DerivesIn(g, c, b, n - 1);
      var i: nat, p: nat :| RewritesAt(g, a, c, i, p);
      var us := DerivesInForest(g, c, b, n - 1);
      ts := FoldProduction(g, a, c, i, p, us);
    }
  }

  /** Undo one rewriting step on a forest: the trees of the right-hand side become one node. */
  lemma FoldProduction(g: Cfg, a: seq<Symbol>, c: seq<Symbol>, i: nat, p: nat, us: seq<Tree>) returns (ts: seq<Tree>)
    requires RewritesAt(g, a, c, i, p) && Forest(g, c, us)
    ensures Forest(g, a, ts) && Yields(ts) == Yields(us)
  {
    hide Forest, Yields;
    var left, mid, right := RewrittenForests(g, a, c, i, p, us);
    var node := Node(p, mid);
    NodeForest(g, p, mid);
    YieldsOne(node);
    ForestConcat(g, a[..i], left, [a[i]], [node]);
    ForestConcat(g, a[..i] + [a[i]], left + [node], a[i + 1..], right);
    assert a[..i] + [a[i]] + a[i + 1..] == a;
    YieldsConcat(left, mid);
    YieldsConcat(left, [node]);
    YieldsConcat(left + mid, right);
    YieldsConcat(left + [node], right);
    ts := left + [node] + right;
  }

  lemma NodeForest(g: Cfg, p: nat, kids: seq<Tree>)
    requires p < |g.productions| && Forest(g, g.Rhs(p), kids)
    ensures Forest(g, [g.productions[p].name], [Node(p, kids)]) && Yield(Node(p, kids)) == Yields(kids)
  {
  }

  lemma RewrittenForests(g: Cfg, a: seq<Symbol>, c: seq<Symbol>, i: nat, p: nat, us: seq<Tree>)
    returns (left: seq<Tree>, mid: seq<Tree>, right: seq<Tree>)
    requires RewritesAt(g, a, c, i, p) && Forest(g, c, us)
    ensures us == left + mid + right
    ensures Forest(g, a[..i], left) && Forest(g, g.Rhs(p), mid) && Forest(g, a[i + 1..], right)
  {
    hide Forest;
    var k := |g.Rhs(p)|;
    assert c[0..i] == a[..i] && c[i..i + k] == g.Rhs(p) && c[i + k..|c|] == a[i + 1..];
    ForestSlice(g, c, us, 0, i);
    ForestSlice(g, c, us, i, i + k);
    ForestSlice(g, c, us, i + k, |c|);
    left, mid, right := us[0..i], us[i..i + k], us[i + k..|c|];
    ForestLength(g, c, us);
  }

  lemma ForestLength(g: Cfg, a: seq<Symbol>, ts: seq<Tree>)
    requires Forest(g, a, ts)
    ensures |a| == |ts|
  {
  }

  /** Rewriting and forests of derivation trees agree on every pair of sentential forms. */
  lemma DerivesIffForest(g: Cfg, a: seq<Symbol>, b: seq<Symbol>)
    ensures Derives(g, a, b) <==> exists ts :: Forest(g, a, ts) && Yields(ts) == b
  {
    if Derives(g, a, b) {
      var n: nat :| DerivesIn(g, a, b, n);
      var ts := DerivesInForest(g, a, b, n);
    }
    if ts :| Forest(g, a, ts) && Yields(ts) == b {
      ForestDerives(g, a, ts);
    }
  }
}
