/** The parser loop ends on every input, in the language or not, when the tables have no conflict and the
    grammar no infinite recursion: between two shifts there are only finitely many reduces. */
module Halting {
  import opened Lists
  import opened Grammars
  import opened GrammarFacts
  import opened Items
  import opened ParserTables
  import opened Engine
  import opened EngineFacts
  import opened Soundness
  import opened Completeness
  import opened SlrLanguage
  import opened Coverage
  import opened ActiveStates
  import opened Futures
  import opened Recovery

  /** The stacks cannot stay at the bottom when they are broken into. */
  lemma KeepsUntil(T: Tables, h: bool, c: Config, n: nat, k: nat)
    requires Breaks(T, h, c, n) && Keeps(T, h, c, k, c)
    ensures k < n
  {
    hide Run, RunsClean, Kept;
    assert n <= k ==> Kept(Run(T, h, c, n), c);
  }

  // ----- No cycle of nullable transitions -----

  /** The tree of an empty string. */
  lemma EmptyTree(g: Cfg, x: Symbol) returns (t: Tree)
    requires g.WellFormed() && x in g.nonterminals && Nullable(g, [x])
    ensures ValidTree(g, t) && Root(g, t) == x && Yield(t) == [] && Spine(t) > 0
  {
    t := TreeOf(g, x, []);
    assert t.Node?;
  }

  /** Along the path `alpha` from `q` the follow sets of all transitions have the symbol `a`. */
  ghost predicate CanPass(g: Cfg, d: Delta, fol: FollowMap, q: nat, alpha: seq<Symbol>, a: Symbol) {
    forall i :: 0 <= i < |alpha| ==> PassesAt(d, fol, q, alpha, i, a)
  }

  ghost predicate PassesAt(d: Delta, fol: FollowMap, q: nat, alpha: seq<Symbol>, i: nat, a: Symbol) {
    i < |alpha| && Walk(d, q, alpha[..i]).Some? &&
    var e := (Walk(d, q, alpha[..i]).value, alpha[i]);
    e in d && e in fol && a in fol[e]
  }

  /** The engine goes once along a path of nullable symbols without reading a token. */
  lemma {:induction false} PassOnce(g: Cfg, C: seq<seq<Item>>, K: seq<seq<Item>>, d: Delta, fol: FollowMap, la: LookTable, T: Tables, h: bool,
                                    q: nat, alpha: seq<Symbol>, i: nat, c: Config) returns (n: nat)
    requires Deterministic(g, C, K, d, fol, la, T) && NullableSymbols(g, alpha) && CanPass(g, d, fol, q, alpha, NextSymbol(Pending(c)))
    requires i <= |alpha| && Ready(g, C, d, c) && Walk(d, q, alpha[..i]) == Some(c.state)
    ensures var e := Run(T, h, c, n);
      Ready(g, C, d, e) && Pending(e) == Pending(c) && Walk(d, q, alpha) == Some(e.state) && Kept(e, c)
    ensures Keeps(T, h, c, n, c) && n >= |alpha| - i
    decreases |alpha| - i
  {
    hide *;
    ReadyKept(g, C, d, c);
    if i == |alpha| {
      n := 0;
      assert alpha[..i] == alpha;
      RunStep(T, h, c, 0);
      KeepsNothing(T, h, c, c);
    } else {
      var it, t := PassExpected(g, C, K, d, fol, la, T, q, alpha, i, c);
      assert Pending(c) == Yield(t) + Pending(c);
      var m := ParseTree(g, C, K, d, fol, la, T, h, c, t, Pending(c), it);
      var e := Run(T, h, c, m);
      Passed(g, C, d, q, alpha, i, c, e, t);
      var k := PassOnce(g, C, K, d, fol, la, T, h, q, alpha, i + 1, e);
      RunPlus(T, h, c, m, k);
      KeptTrans(Run(T, h, e, k), e, c);
      KeepsBelow(T, h, e, k, e, c);
      KeepsPlus(T, h, c, m, k, c);
      n := m + k;
    }
  }

  lemma KeptTrans(a: Config, b: Config, c: Config)
    requires Kept(a, b) && Kept(b, c)
    ensures Kept(a, c)
  {
  }

  lemma PassExpected(g: Cfg, C: seq<seq<Item>>, K: seq<seq<Item>>, d: Delta, fol: FollowMap, la: LookTable, T: Tables,
                     q: nat, alpha: seq<Symbol>, i: nat, c: Config) returns (it: Item, t: Tree)
    requires Deterministic(g, C, K, d, fol, la, T) && NullableSymbols(g, alpha) && CanPass(g, d, fol, q, alpha, NextSymbol(Pending(c)))
    requires i < |alpha| && Walk(d, q, alpha[..i]) == Some(c.state)
    ensures ValidTree(g, t) && Root(g, t) == alpha[i] && Yield(t) == [] && Terminals(g, Yield(t)) && Spine(t) > 0
    ensures c.state < |C| && it in C[c.state] && DotBefore(g, it, Root(g, t))
    ensures (c.state, Root(g, t)) in fol && NextSymbol(Pending(c)) in fol[(c.state, Root(g, t))]
    ensures (c.state, alpha[i]) in d
  {
    hide Walk, Nullable, Collection, Filled, Adequate, ConflictFree;
    assert PassesAt(d, fol, q, alpha, i, NextSymbol(Pending(c)));
    it := EdgeItem(g, C, K, d, c.state, alpha[i]);
    t := EmptyTree(g, alpha[i]);
  }

  lemma Passed(g: Cfg, C: seq<seq<Item>>, d: Delta, q: nat, alpha: seq<Symbol>, i: nat, c: Config, e: Config, t: Tree)
    requires i < |alpha| && Walk(d, q, alpha[..i]) == Some(c.state) && Parsed(g, C, d, c, e, alpha[i], t, Pending(c))
    ensures Ready(g, C, d, e) && Pending(e) == Pending(c) && Walk(d, q, alpha[..i + 1]) == Some(e.state) && Kept(e, c)
  {
    hide Viable;
    assert alpha[..i + 1] == alpha[..i] + [alpha[i]];
    WalkSnoc(d, q, alpha[..i], alpha[i]);
  }

  /** Round and round. */
  lemma {:induction false} PassOften(g: Cfg, C: seq<seq<Item>>, K: seq<seq<Item>>, d: Delta, fol: FollowMap, la: LookTable, T: Tables, h: bool,
                                     alpha: seq<Symbol>, c: Config, k: nat) returns (n: nat)
    requires Deterministic(g, C, K, d, fol, la, T) && NullableSymbols(g, alpha) && alpha != []
    requires Ready(g, C, d, c) && CanPass(g, d, fol, c.state, alpha, NextSymbol(Pending(c))) && Walk(d, c.state, alpha) == Some(c.state)
    ensures Keeps(T, h, c, n, c) && n >= k
    decreases k
  {
    hide *;
    EmptyWalk(d, c.state);
    assert alpha[..0] == [];
    n := PassOnce(g, C, K, d, fol, la, T, h, c.state, alpha, 0, c);
    if n < k {
      var e := Run(T, h, c, n);
      var m := PassOften(g, C, K, d, fol, la, T, h, alpha, e, k - n);
      KeepsBelow(T, h, e, m, e, c);
      KeepsPlus(T, h, c, n, m, c);
      n := n + m;
    }
  }

  /** No path of nullable symbols leads from a state back to it: on some input the engine would go round
      it for good, where it has to get on. */
  lemma NoNullableCycle(g: Cfg, C: seq<seq<Item>>, K: seq<seq<Item>>, d: Delta, fol: FollowMap, la: LookTable, T: Tables,
                        q: nat, alpha: seq<Symbol>)
    requires Deterministic(g, C, K, d, fol, la, T) && AllProductive(g) && q < |C|
    requires alpha != [] && NullableSymbols(g, alpha)
    ensures Walk(d, q, alpha) != Some(q)
  {
    hide *;
    if Walk(d, q, alpha) == Some(q) {
      WellFormedOf(g, C, K, d, fol, la, T);
      AdequateOf(g, C, K, d, fol, la, T);
      var delta := PathTo(g, C, K, d, q);
      var gamma := delta + alpha;
      WalkAppend(d, 0, delta, alpha);
      var y, ts := FutureOf(g, C, K, d, gamma, 0);
      var c := ConfigAlong(g, C, K, d, gamma, Yields(ts) + y);
      AlongReady(g, C, d, gamma, c);
      PassFuture(g, C, K, d, fol, la, delta, alpha, q, y, ts);
      var n := TailBreaks(g, C, K, d, fol, la, T, true, gamma, 0, y, c, ts);
      var k := PassOften(g, C, K, d, fol, la, T, true, alpha, c, n);
      KeepsUntil(T, true, c, n, k);
    }
  }

  /** A tail of the item, and a derivation of what is expected before it. */
  lemma FutureOf(g: Cfg, C: seq<seq<Item>>, K: seq<seq<Item>>, d: Delta, gamma: seq<Symbol>, m: nat) returns (y: seq<Symbol>, ts: seq<Tree>)
    requires g.WellFormed() && Collection(g, C, K, d) && AllProductive(g) && Walk(d, 0, gamma).Some? && Walk(d, 0, gamma).value < |C|
    requires m == 0 || m < |C[Walk(d, 0, gamma).value]|
    ensures Tail(g, C, d, gamma, m, y) && ItemAt(g, C, d, gamma, m) && Forest(g, Rest(g, At(g, C, d, gamma, m)), ts)
    ensures Terminals(g, Yields(ts)) && Terminals(g, Yields(ts) + y) && Derives(g, Rest(g, At(g, C, d, gamma, m)), Yields(ts))
  {
    hide Collection, AllProductive, Tail, Derives;
    var q := StateOf(g, C, K, d, gamma);
    var n := KernelSize(g, C, K, d, q);
    y := TailExists(g, C, K, d, gamma, m);
    var it := TailItem(g, C, d, gamma, m, y);
    var v := RestDerives(g, it, it.dot);
    forall i | 0 <= i < |v| ensures v[i] in g.terminals {
      assert v[i] in v;
    }
    DerivesIffForest(g, Rest(g, it), v);
    ts :| Forest(g, Rest(g, it), ts) && Yields(ts) == v;
  }

  lemma PassFuture(g: Cfg, C: seq<seq<Item>>, K: seq<seq<Item>>, d: Delta, fol: FollowMap, la: LookTable,
                   delta: seq<Symbol>, alpha: seq<Symbol>, q: nat, y: seq<Symbol>, ts: seq<Tree>)
    requires Collection(g, C, K, d) && Adequate(g, C, d, fol, la) && NullableSymbols(g, alpha)
    requires Walk(d, 0, delta) == Some(q) && Walk(d, 0, delta + alpha).Some?
    requires Tail(g, C, d, delta + alpha, 0, y) && ItemAt(g, C, d, delta + alpha, 0) && Terminals(g, Yields(ts))
    requires Derives(g, Rest(g, At(g, C, d, delta + alpha, 0)), Yields(ts))
    ensures CanPass(g, d, fol, q, alpha, NextSymbol(Yields(ts) + y))
  {
    hide *;
    var gamma := delta + alpha;
    var v, a := Yields(ts), NextSymbol(Yields(ts) + y);
    forall i | 0 <= i < |alpha| ensures PassesAt(d, fol, q, alpha, i, a) {
      var j := |delta| + i;
      SuffixNullable(g, delta, alpha, i);
      TailSuffix(g, C, K, d, fol, la, gamma, 0, y, v, j);
      PassesFrom(d, fol, delta, alpha, q, i, a);
    }
    PassesAll(g, d, fol, q, alpha, a);
  }

  lemma PassesAll(g: Cfg, d: Delta, fol: FollowMap, q: nat, alpha: seq<Symbol>, a: Symbol)
    requires forall i :: 0 <= i < |alpha| ==> PassesAt(d, fol, q, alpha, i, a)
    ensures CanPass(g, d, fol, q, alpha, a)
  {
  }

  lemma SuffixNullable(g: Cfg, delta: seq<Symbol>, alpha: seq<Symbol>, i: nat)
    requires i < |alpha| && NullableSymbols(g, alpha)
    ensures NullableSymbols(g, (delta + alpha)[|delta| + i..])
  {
    assert (delta + alpha)[|delta| + i..] == alpha[i..];
  }

  lemma PassesFrom(d: Delta, fol: FollowMap, delta: seq<Symbol>, alpha: seq<Symbol>, q: nat, i: nat, a: Symbol)
    requires i < |alpha| && Walk(d, 0, delta) == Some(q) && Walk(d, 0, delta + alpha).Some?
    requires var gamma, j := delta + alpha, |delta| + i;
      var e := (StartState(d, gamma, |gamma| - j), gamma[j]); e in fol && a in fol[e]
    ensures PassesAt(d, fol, q, alpha, i, a)
  {
    hide Walk;
    var gamma, j := delta + alpha, |delta| + i;
    assert gamma[..j] == delta + alpha[..i] && gamma[j] == alpha[i];
    WalkAppend(d, 0, delta, alpha[..i]);
    WalkPrefix(d, gamma, j);
  }

  lemma {:induction false} WalkPrefix(d: Delta, gamma: seq<Symbol>, j: nat)
    requires j < |gamma| && Walk(d, 0, gamma).Some?
    ensures Walk(d, 0, gamma[..j]).Some? && (Walk(d, 0, gamma[..j]).value, gamma[j]) in d
    decreases |gamma|
  {
    PathStep(d, gamma);
    if j < |gamma| - 1 {
      WalkPrefix(d, gamma[..|gamma| - 1], j);
      assert gamma[..|gamma| - 1][..j] == gamma[..j];
    }
  }

  // ----- No cycle of unit steps -----

  /** A rule makes `u` into `x`, with nothing but nullable symbols behind it. */
  ghost predicate UnitBy(g: Cfg, x: Symbol, u: Symbol, p: nat) {
    && 1 <= p < |g.productions| && g.productions[p].name == x && g.Rhs(p) != [] && g.Rhs(p)[0] == u
    && NullableSymbols(g, g.Rhs(p)[1..])
  }

  ghost predicate Unit(g: Cfg, x: Symbol, u: Symbol) {
    exists p: nat :: UnitBy(g, x, u, p)
  }

  ghost predicate Units(g: Cfg, x: Symbol, y: Symbol, n: nat)
    decreases n
  {
    n > 0 && if n == 1 then Unit(g, x, y) else exists u :: Unit(g, x, u) && Units(g, u, y, n - 1)
  }

  lemma {:induction false} EmptyForest(g: Cfg, alpha: seq<Symbol>) returns (ts: seq<Tree>)
    requires g.WellFormed() && NullableSymbols(g, alpha)
    ensures Forest(g, alpha, ts) && Yields(ts) == []
  {
    if alpha == [] {
      ts := [];
    } else {
      assert alpha[0] in g.nonterminals && Nullable(g, [alpha[0]]);
      var t := EmptyTree(g, alpha[0]);
      var us := EmptyForest(g, alpha[1..]);
      YieldsOne(t);
      ForestConcat(g, [alpha[0]], [t], alpha[1..], us);
      assert alpha == [alpha[0]] + alpha[1..];
      ts := [t] + us;
    }
  }

  lemma UnitTree(g: Cfg, x: Symbol, u: Symbol, t: Tree) returns (t': Tree)
    requires g.WellFormed() && Unit(g, x, u) && ValidTree(g, t) && Root(g, t) == u
    ensures ValidTree(g, t') && Root(g, t') == x && Yield(t') == Yield(t) && Spine(t') == Spine(t) + 1
  {
    var p: nat :| UnitBy(g, x, u, p);
    var ts := EmptyForest(g, g.Rhs(p)[1..]);
    YieldsOne(t);
    ForestConcat(g, [u], [t], g.Rhs(p)[1..], ts);
    assert [u] + g.Rhs(p)[1..] == g.Rhs(p);
    t' := Node(p, [t] + ts);
  }

  lemma {:induction false} UnitsTree(g: Cfg, x: Symbol, y: Symbol, n: nat, t: Tree) returns (t': Tree)
    requires g.WellFormed() && Units(g, x, y, n) && ValidTree(g, t) && Root(g, t) == y
    ensures ValidTree(g, t') && Root(g, t') == x && Yield(t') == Yield(t) && Spine(t') > Spine(t)
    decreases n
  {
    hide Unit, ValidTree, Yield, Spine;
    if n == 1 {
      t' := UnitTree(g, x, y, t);
    } else {
      var u :| Unit(g, x, u) && Units(g, u, y, n - 1);
      var s := UnitsTree(g, u, y, n - 1, t);
      t' := UnitTree(g, x, u, s);
    }
  }

  /** A cycle of unit steps makes trees as high as you like. */
  lemma {:induction false} HighTree(g: Cfg, x: Symbol, n: nat, t: Tree, k: nat) returns (t': Tree)
    requires g.WellFormed() && Units(g, x, x, n) && ValidTree(g, t) && Root(g, t) == x
    ensures ValidTree(g, t') && Root(g, t') == x && Yield(t') == Yield(t) && Spine(t') >= k
    decreases k
  {
    hide Units, ValidTree, Yield, Spine;
    if k == 0 {
      t' := t;
    } else {
      var s := HighTree(g, x, n, t, k - 1);
      t' := UnitsTree(g, x, x, n, s);
    }
  }

  lemma UnitName(g: Cfg, x: Symbol, u: Symbol)
    requires g.WellFormed() && Unit(g, x, u)
    ensures x in g.nonterminals
  {
  }

  lemma UnitsName(g: Cfg, x: Symbol, y: Symbol, n: nat)
    requires g.WellFormed() && Units(g, x, y, n)
    ensures x in g.nonterminals
  {
    hide Unit;
    if n == 1 {
      UnitName(g, x, y);
    } else {
      var u :| Unit(g, x, u) && Units(g, u, y, n - 1);
      UnitName(g, x, u);
    }
  }

  /** No symbol with a transition makes itself: on some input the engine would reduce for good, where it
      has to get on. */
  lemma NoUnitCycle(g: Cfg, C: seq<seq<Item>>, K: seq<seq<Item>>, d: Delta, fol: FollowMap, la: LookTable, T: Tables,
                    s: nat, x: Symbol, n: nat)
    requires Deterministic(g, C, K, d, fol, la, T) && AllProductive(g) && s < |C| && (s, x) in d
    ensures !Units(g, x, x, n)
  {
    hide *;
    if Units(g, x, x, n) {
      WellFormedOf(g, C, K, d, fol, la, T);
      AdequateOf(g, C, K, d, fol, la, T);
      UnitsName(g, x, x, n);
      var gamma := PathTo(g, C, K, d, s);
      var it, m := ExpectingItem(g, C, K, d, gamma, s, x);
      var y, ts := FutureOf(g, C, K, d, gamma, m);
      var t, us := FirstTree(g, it, x, ts, y);
      var c := ConfigAlong(g, C, K, d, gamma, Yields(ts) + y);
      AlongReady(g, C, d, gamma, c);
      var b := TailBreaks(g, C, K, d, fol, la, T, true, gamma, m, y, c, ts);
      var t' := HighTree(g, x, n, t, b);
      UnitFollow(g, C, K, d, fol, la, gamma, m, it, x, y, us);
      var k := ParseTree(g, C, K, d, fol, la, T, true, c, t', Yields(us) + y, it);
      KeepsUntil(T, true, c, b, k);
    }
  }

  lemma ExpectingItem(g: Cfg, C: seq<seq<Item>>, K: seq<seq<Item>>, d: Delta, gamma: seq<Symbol>, s: nat, x: Symbol) returns (it: Item, m: nat)
    requires Collection(g, C, K, d) && s < |C| && (s, x) in d && Walk(d, 0, gamma) == Some(s)
    ensures ItemAt(g, C, d, gamma, m) && it == At(g, C, d, gamma, m) && m < |C[s]| && it in C[s] && DotBefore(g, it, x)
    ensures it.dot < |g.Rhs(it.num)| && g.Rhs(it.num)[it.dot] == x && Rest(g, it) == [x] + g.Rhs(it.num)[it.dot + 1..]
  {
    hide Collection, Walk;
    it := EdgeItem(g, C, K, d, s, x);
    m :| 0 <= m < |C[s]| && C[s][m] == it;
    NextValid(g, it, x);
  }

  lemma FirstTree(g: Cfg, it: Item, x: Symbol, ts: seq<Tree>, y: seq<Symbol>) returns (t: Tree, us: seq<Tree>)
    requires ValidItem(g, it) && it.dot < |g.Rhs(it.num)| && Rest(g, it) == [x] + g.Rhs(it.num)[it.dot + 1..]
    requires Forest(g, Rest(g, it), ts) && Terminals(g, Yields(ts))
    ensures ValidTree(g, t) && Root(g, t) == x && Terminals(g, Yield(t)) && Forest(g, g.Rhs(it.num)[it.dot + 1..], us)
    ensures Yields(ts) + y == Yield(t) + (Yields(us) + y) && Terminals(g, Yields(us)) && Derives(g, g.Rhs(it.num)[it.dot + 1..], Yields(us))
  {
    hide Derives;
    assert |Roots(g, ts)| == |ts|;
    t, us := ts[0], ts[1..];
    assert Roots(g, ts)[0] == x;
    ForestSlice(g, Rest(g, it), ts, 1, |ts|);
    assert Rest(g, it)[1..|ts|] == g.Rhs(it.num)[it.dot + 1..] && ts[1..|ts|] == us;
    assert Yields(ts) == Yield(t) + Yields(us);
    forall i | 0 <= i < |Yield(t)| ensures Yield(t)[i] in g.terminals {
      assert Yields(ts)[i] == Yield(t)[i];
    }
    forall i | 0 <= i < |Yields(us)| ensures Yields(us)[i] in g.terminals {
      assert Yields(ts)[|Yield(t)| + i] == Yields(us)[i];
    }
    ForestDerives(g, g.Rhs(it.num)[it.dot + 1..], us);
  }

  lemma UnitFollow(g: Cfg, C: seq<seq<Item>>, K: seq<seq<Item>>, d: Delta, fol: FollowMap, la: LookTable, gamma: seq<Symbol>, m: nat, it: Item,
                   x: Symbol, y: seq<Symbol>, us: seq<Tree>)
    requires Collection(g, C, K, d) && Adequate(g, C, d, fol, la) && Tail(g, C, d, gamma, m, y) && ItemAt(g, C, d, gamma, m)
    requires it == At(g, C, d, gamma, m) && it.dot < |g.Rhs(it.num)| && g.Rhs(it.num)[it.dot] == x && x in g.nonterminals
    requires Terminals(g, Yields(us)) && Derives(g, g.Rhs(it.num)[it.dot + 1..], Yields(us)) && Walk(d, 0, gamma).Some?
    ensures var e := (Walk(d, 0, gamma).value, x); e in fol && NextSymbol(Yields(us) + y) in fol[e]
  {
    hide *;
    TailFollow(g, C, K, d, fol, la, gamma, m, y);
    OccurrenceFollow(g, C, K, d, fol, la, gamma, it, Yields(us), y);
    StartHere(d, gamma);
  }

  lemma StartHere(d: Delta, gamma: seq<Symbol>)
    requires Walk(d, 0, gamma).Some?
    ensures StartState(d, gamma, 0) == Walk(d, 0, gamma).value
  {
    assert gamma[..|gamma| - 0] == gamma;
  }

  // ----- One reduce -----

  /** The next round is not a reduce. */
  ghost predicate Stops(T: Tables, c: Config) {
    c.status != Running || Errs(T, c) ||
    (c.state in T.action && Fetch(c).lookahead.Some? && Lookup(T.action[c.state], Fetch(c).lookahead.value.sym).Some?
     && Lookup(T.action[c.state], Fetch(c).lookahead.value.sym).value >= 0)
  }

  function Syms(ys: seq<YaccSymbol>): (r: seq<Symbol>)
    ensures |r| == |ys|
  {
    seq(|ys|, i requires 0 <= i < |ys| => ys[i].sym)
  }

  /** From `c` to `e` production `p` has been reduced. */
  ghost predicate Reduced(g: Cfg, C: seq<seq<Item>>, d: Delta, c: Config, e: Config, p: nat) {
    && Ready(g, C, d, e) && Pending(e) == Pending(c) && 1 <= p < |g.productions| && |g.Rhs(p)| < |c.statestack| == |c.symstack|
    && var m := |c.statestack| - |g.Rhs(p)|;
    && |e.statestack| == |e.symstack| == m + 1 && e.statestack[..m] == c.statestack[..m] && e.symstack[..m] == c.symstack[..m]
    && e.statestack[m] == e.state && e.symstack[m].sym == g.productions[p].name && Syms(c.symstack[m..]) == g.Rhs(p)
    && (c.statestack[m - 1], g.productions[p].name) in d && e.state == d[(c.statestack[m - 1], g.productions[p].name)] < |C|
  }

  lemma ReduceRound(g: Cfg, C: seq<seq<Item>>, K: seq<seq<Item>>, d: Delta, la: LookTable, T: Tables, h: bool, c: Config) returns (p: nat)
    requires Built(g, C, K, d, la, T) && Ready(g, C, d, c) && !Stops(T, c)
    ensures RunsClean(T, h, c, 1) && Reduced(g, C, d, c, Run(T, h, c, 1), p)
  {
    hide *;
    var f := Fetch(c);
    FetchReady(g, C, d, c);
    ReadyRunning(g, C, d, c);
    ReadyRunning(g, C, d, f);
    NotErring(T, c);
    var t := CleanAction(g, C, K, d, la, T, h, c);
    NotStopping(g, C, K, d, la, T, h, c, f, t);
    p := 0 - t;
    ReduceFinds(g, C, K, d, la, T, f, p);
    RunOne(T, h, c);
    ReducedViable(g, C, d, T, f, p);
    ReducedStacks(g, C, d, T, f, p);
    ReducedReady(g, C, d, T, f, p);
    PoppedSyms(g, C, d, T, f, p);
    ReducedFacts(g, C, d, T, c, f, Reduce(T, f, p), p);
  }

  lemma ReadyRunning(g: Cfg, C: seq<seq<Item>>, d: Delta, c: Config)
    requires Ready(g, C, d, c)
    ensures Viable(g, C, d, c) && c.status == Running && 1 <= |c.statestack| == |c.symstack| && c.state < |C|
    ensures c.state == c.statestack[|c.statestack| - 1]
  {
  }

  lemma NotErring(T: Tables, c: Config)
    requires !Stops(T, c)
    ensures !Errs(T, c) && c.status == Running
  {
  }

  lemma NotStopping(g: Cfg, C: seq<seq<Item>>, K: seq<seq<Item>>, d: Delta, la: LookTable, T: Tables, h: bool, c: Config, f: Config, t: int)
    requires Built(g, C, K, d, la, T) && !Stops(T, c) && Ready(g, C, d, c) && f == Fetch(c) && f.lookahead.Some? && f.state == c.state < |C|
    requires t > 0 ==> Step(T, h, c) == Shift(f, t)
    requires t == 0 ==> |f.symstack| > 0 && Step(T, h, c) == f.(status := Returned(Some(f.symstack[|f.symstack| - 1].value)))
    requires f.status == Running && f.statestack == c.statestack
    requires t < 0 ==> Step(T, h, c) == Reduce(T, f, 0 - t) && 1 <= 0 - t < |g.productions|
    ensures t < 0
  {
  }

  lemma ReducedReady(g: Cfg, C: seq<seq<Item>>, d: Delta, T: Tables, f: Config, p: nat)
    requires Ready(g, C, d, f) && CanReduce(g, C, d, T, f, p)
    ensures Ready(g, C, d, Reduce(T, f, p)) && Pending(Reduce(T, f, p)) == Pending(f)
  {
    hide Viable, Reduce;
    ReadyRunning(g, C, d, f);
    ReducedViable(g, C, d, T, f, p);
    ReducedStacks(g, C, d, T, f, p);
  }

  lemma PoppedSyms(g: Cfg, C: seq<seq<Item>>, d: Delta, T: Tables, f: Config, p: nat)
    requires Viable(g, C, d, f) && CanReduce(g, C, d, T, f, p)
    ensures Syms(f.symstack[|f.symstack| - |g.Rhs(p)|..]) == g.Rhs(p)
  {
    hide ValidTree;
    var m := |f.symstack| - |g.Rhs(p)|;
    var top := f.symstack[m..];
    forall i | 0 <= i < |top| ensures top[i].sym == g.Rhs(p)[i] {
      assert Rooted(g, f.symstack[m + i]);
      assert Values(top)[i] == top[i].value && Roots(g, Values(top))[i] == g.Rhs(p)[i];
    }
  }

  lemma ReducedFacts(g: Cfg, C: seq<seq<Item>>, d: Delta, T: Tables, c: Config, f: Config, e: Config, p: nat)
    requires f.statestack == c.statestack && f.symstack == c.symstack && Pending(f) == Pending(c) && e == Reduce(T, f, p)
    requires Ready(g, C, d, e) && Pending(e) == Pending(f) && CanReduce(g, C, d, T, f, p)
    requires Syms(f.symstack[|f.symstack| - |g.Rhs(p)|..]) == g.Rhs(p)
    ensures Reduced(g, C, d, c, e, p)
  {
    hide Ready, Reduce, ValidTree;
    ReducedStacks(g, C, d, T, f, p);
  }

  // ----- Finitely many reduces -----

  /** A path of nullable symbols leads from `s` to `q`. */
  ghost predicate NullableWay(g: Cfg, d: Delta, s: nat, q: nat) {
    exists alpha :: NullableSymbols(g, alpha) && Walk(d, s, alpha) == Some(q)
  }

  /** The states of `chain` lead over nullable symbols to `q`. */
  ghost predicate Chain(g: Cfg, C: seq<seq<Item>>, d: Delta, chain: set<nat>, q: nat) {
    forall s :: s in chain ==> s < |C| && NullableWay(g, d, s, q)
  }

  /** The run from `c` to `e` has reduced a production that began in the stacks of `c`, at the entry with
      index `k`, and went on with nullable symbols. */
  ghost predicate Landed(g: Cfg, C: seq<seq<Item>>, d: Delta, c: Config, e: Config) {
    && Ready(g, C, d, e) && Pending(e) == Pending(c) && 2 <= |e.statestack| <= |c.statestack| && |c.symstack| == |c.statestack|
    && |e.symstack| == |e.statestack|
    && var k := |e.statestack| - 1;
    && e.statestack[..k] == c.statestack[..k] && e.symstack[..k] == c.symstack[..k] && e.statestack[k] == e.state
    && (c.statestack[k - 1], e.symstack[k].sym) in d && e.state == d[(c.statestack[k - 1], e.symstack[k].sym)] < |C|
    && exists p: nat, nu :: ReachesUp(g, c, k, e.symstack[k].sym, p, nu)
  }

  ghost predicate ReachesUp(g: Cfg, c: Config, k: nat, x: Symbol, p: nat, nu: seq<Symbol>) {
    && 1 <= p < |g.productions| && k < |c.symstack| && g.productions[p].name == x
    && g.Rhs(p) == Syms(c.symstack[k..]) + nu && NullableSymbols(g, nu)
  }

  lemma ReducedLanded(g: Cfg, C: seq<seq<Item>>, d: Delta, c: Config, e: Config, p: nat)
    requires Reduced(g, C, d, c, e, p) && g.Rhs(p) != []
    ensures Landed(g, C, d, c, e)
  {
    hide Ready;
    var k := |e.statestack| - 1;
    assert g.Rhs(p) == Syms(c.symstack[k..]) + [];
    assert ReachesUp(g, c, k, e.symstack[k].sym, p, []);
  }

  /** A symbol pushed by an empty production is nullable. */
  ghost predicate Pushed(g: Cfg, C: seq<seq<Item>>, d: Delta, c: Config, e: Config) {
    && Ready(g, C, d, c) && Ready(g, C, d, e) && Pending(e) == Pending(c)
    && |c.statestack| == |c.symstack| > 0 && c.state == c.statestack[|c.statestack| - 1]
    && e.statestack == c.statestack + [e.state] && |e.symstack| == |c.symstack| + 1 && e.symstack[..|c.symstack|] == c.symstack
    && var x := e.symstack[|c.symstack|].sym;
    && x in g.nonterminals && Nullable(g, [x]) && (c.state, x) in d && e.state == d[(c.state, x)] < |C|
  }

  lemma ReducedPushed(g: Cfg, C: seq<seq<Item>>, d: Delta, c: Config, e: Config, p: nat)
    requires g.WellFormed() && Ready(g, C, d, c) && Reduced(g, C, d, c, e, p) && g.Rhs(p) == []
    ensures Pushed(g, C, d, c, e)
  {
    ReadyRunning(g, C, d, c);
    hide Ready;
    DerivesProduction(g, p);
    var m := |c.statestack|;
    assert c.statestack[..m] == c.statestack && c.symstack[..m] == c.symstack;
    assert e.statestack == e.statestack[..m] + [e.statestack[m]];
  }

  lemma ChainMore(g: Cfg, C: seq<seq<Item>>, d: Delta, chain: set<nat>, q: nat, x: Symbol)
    requires Chain(g, C, d, chain, q) && x in g.nonterminals && Nullable(g, [x]) && (q, x) in d && d[(q, x)] < |C|
    ensures Chain(g, C, d, chain + {d[(q, x)]}, d[(q, x)])
  {
    hide Walk, Nullable;
    var r := d[(q, x)];
    forall s | s in chain ensures NullableWay(g, d, s, r) {
      var alpha :| NullableSymbols(g, alpha) && Walk(d, s, alpha) == Some(q);
      WalkSnoc(d, s, alpha, x);
      assert NullableSymbols(g, alpha + [x]);
    }
    EmptyWalk(d, r);
    assert NullableSymbols(g, []);
  }

  /** A state reached over a nullable symbol is new. */
  lemma ChainNew(g: Cfg, C: seq<seq<Item>>, K: seq<seq<Item>>, d: Delta, fol: FollowMap, la: LookTable, T: Tables,
                 chain: set<nat>, q: nat, x: Symbol)
    requires Deterministic(g, C, K, d, fol, la, T) && AllProductive(g)
    requires Chain(g, C, d, chain, q) && x in g.nonterminals && Nullable(g, [x]) && (q, x) in d && d[(q, x)] < |C|
    ensures d[(q, x)] !in chain
  {
    hide Deterministic, AllProductive, Walk, Nullable;
    var r := d[(q, x)];
    if r in chain {
      var alpha :| NullableSymbols(g, alpha) && Walk(d, r, alpha) == Some(q);
      WalkSnoc(d, r, alpha, x);
      NoNullableCycle(g, C, K, d, fol, la, T, r, alpha + [x]);
    }
  }

  /** The run from `c` stops, or lands. */
  ghost predicate StopsOrLands(g: Cfg, C: seq<seq<Item>>, d: Delta, T: Tables, h: bool, c: Config, n: nat) {
    && RunsClean(T, h, c, n)
    && var e := Run(T, h, c, n);
    (Ready(g, C, d, e) && Pending(e) == Pending(c) && Stops(T, e)) || Landed(g, C, d, c, e)
  }

  lemma StopsHere(g: Cfg, C: seq<seq<Item>>, d: Delta, T: Tables, h: bool, c: Config)
    requires Ready(g, C, d, c) && Stops(T, c)
    ensures StopsOrLands(g, C, d, T, h, c, 0)
  {
    hide Ready, Stops, Landed;
    RunStep(T, h, c, 0);
  }

  lemma LandsHere(g: Cfg, C: seq<seq<Item>>, d: Delta, T: Tables, h: bool, c: Config, n: nat)
    requires RunsClean(T, h, c, n) && Landed(g, C, d, c, Run(T, h, c, n))
    ensures StopsOrLands(g, C, d, T, h, c, n)
  {
  }

  /** From any configuration the engine soon stops reducing, or reduces something that was there. */
  lemma {:induction false} Phase(g: Cfg, C: seq<seq<Item>>, K: seq<seq<Item>>, d: Delta, fol: FollowMap, la: LookTable, T: Tables, h: bool,
                                 c: Config, chain: set<nat>) returns (n: nat)
    requires Deterministic(g, C, K, d, fol, la, T) && AllProductive(g) && Ready(g, C, d, c) && Chain(g, C, d, chain, c.state)
    ensures StopsOrLands(g, C, d, T, h, c, n)
    decreases Numbers(|C|) - chain, 1
  {
    hide *;
    WellFormedOf(g, C, K, d, fol, la, T);
    if Stops(T, c) {
      n := 0;
      StopsHere(g, C, d, T, h, c);
    } else {
      var p := ReduceRound(g, C, K, d, la, T, h, c);
      var e := Run(T, h, c, 1);
      ReducedRule(g, C, d, c, e, p);
      if g.Rhs(p) != [] {
        n := 1;
        ReducedLanded(g, C, d, c, e, p);
        LandsHere(g, C, d, T, h, c, 1);
      } else {
        ReducedPushed(g, C, d, c, e, p);
        var x := PushedSymbol(g, C, d, c, e);
        var m := PhaseAbove(g, C, K, d, fol, la, T, h, c, e, chain, {x});
        RunPlus(T, h, c, 1, m);
        n := 1 + m;
        Later(g, C, d, T, h, c, e, 1, m);
      }
    }
  }

  lemma ReducedRule(g: Cfg, C: seq<seq<Item>>, d: Delta, c: Config, e: Config, p: nat)
    requires Reduced(g, C, d, c, e, p)
    ensures p < |g.productions|
  {
  }

  lemma PushedSymbol(g: Cfg, C: seq<seq<Item>>, d: Delta, c: Config, e: Config) returns (x: Symbol)
    requires Pushed(g, C, d, c, e)
    ensures |e.symstack| == |c.symstack| + 1 && x == Top(e) && x in g.nonterminals && Nullable(g, [x])
    ensures (c.state, x) in d && e.state == d[(c.state, x)] < |C| && Ready(g, C, d, e) && Ready(g, C, d, c) && Pending(e) == Pending(c)
    ensures Leads(g, x, {x}) && |e.statestack| == |c.statestack| + 1
  {
    hide Ready, Nullable;
    x := Top(e);
  }

  function Top(c: Config): Symbol {
    if c.symstack == [] then End else c.symstack[|c.symstack| - 1].sym
  }

  /** From `x` unit steps lead to all symbols of `seen`. */
  ghost predicate Leads(g: Cfg, x: Symbol, seen: set<Symbol>) {
    forall u :: u in seen ==> u == x || exists n: nat :: Units(g, x, u, n)
  }

  /** A unit step leads to a symbol that has not been seen. */
  lemma UnitNew(g: Cfg, C: seq<seq<Item>>, K: seq<seq<Item>>, d: Delta, fol: FollowMap, la: LookTable, T: Tables,
                s: nat, x: Symbol, u: Symbol, seen: set<Symbol>)
    requires Deterministic(g, C, K, d, fol, la, T) && AllProductive(g) && s < |C| && (s, x) in d
    requires Unit(g, x, u) && Leads(g, u, seen)
    ensures x !in seen && Leads(g, x, seen + {x})
  {
    hide Deterministic, AllProductive, Unit;
    forall v | v in seen ensures exists n: nat :: Units(g, x, v, n) {
      if v == u {
        assert Units(g, x, v, 1);
      } else {
        var n: nat :| Units(g, u, v, n);
        assert Units(g, x, v, n + 1);
      }
    }
    if x in seen {
      var n: nat :| Units(g, x, x, n);
      NoUnitCycle(g, C, K, d, fol, la, T, s, x, n);
    }
  }

  ghost predicate StopsOrLandsFrom(g: Cfg, C: seq<seq<Item>>, d: Delta, T: Tables, h: bool, c: Config, e: Config, n: nat) {
    && RunsClean(T, h, e, n)
    && var f := Run(T, h, e, n);
    (Ready(g, C, d, f) && Pending(f) == Pending(c) && Stops(T, f)) || Landed(g, C, d, c, f)
  }

  lemma Later(g: Cfg, C: seq<seq<Item>>, d: Delta, T: Tables, h: bool, c: Config, e: Config, m: nat, n: nat)
    requires RunsClean(T, h, c, m) && e == Run(T, h, c, m) && StopsOrLandsFrom(g, C, d, T, h, c, e, n)
    ensures StopsOrLands(g, C, d, T, h, c, m + n)
  {
    hide Run, RunsClean, Ready, Landed, Stops;
    RunPlus(T, h, c, m, n);
  }

  lemma LaterFrom(g: Cfg, C: seq<seq<Item>>, d: Delta, T: Tables, h: bool, c: Config, e: Config, f: Config, m: nat, n: nat)
    requires RunsClean(T, h, e, m) && f == Run(T, h, e, m) && StopsOrLandsFrom(g, C, d, T, h, c, f, n)
    ensures StopsOrLandsFrom(g, C, d, T, h, c, e, m + n)
  {
    hide Run, RunsClean, Ready, Landed, Stops;
    RunPlus(T, h, e, m, n);
  }

  /** The same, from a configuration with one more symbol on the stacks, a nullable one; the symbols of
      `seen` have been at its place. */
  lemma {:induction false} PhaseAbove(g: Cfg, C: seq<seq<Item>>, K: seq<seq<Item>>, d: Delta, fol: FollowMap, la: LookTable, T: Tables, h: bool,
                                      c: Config, e: Config, chain: set<nat>, seen: set<Symbol>) returns (n: nat)
    requires Deterministic(g, C, K, d, fol, la, T) && AllProductive(g) && Pushed(g, C, d, c, e) && Chain(g, C, d, chain, c.state)
    requires Leads(g, Top(e), seen) && Top(e) in seen
    ensures StopsOrLandsFrom(g, C, d, T, h, c, e, n)
    decreases Numbers(|C|) - chain, 0, g.nonterminals - seen
  {
    hide *;
    WellFormedOf(g, C, K, d, fol, la, T);
    var x := PushedSymbol(g, C, d, c, e);
    ChainNew(g, C, K, d, fol, la, T, chain, c.state, x);
    ChainMore(g, C, d, chain, c.state, x);
    NumberLeft(|C|, chain, e.state);
    n := Phase(g, C, K, d, fol, la, T, h, e, chain + {e.state});
    var f := Run(T, h, e, n);
    StopsOrLandsParts(g, C, d, T, h, e, n);
    if Landed(g, C, d, e, f) {
      if |f.statestack| == |e.statestack| {
        LandedAbove(g, C, d, c, e, f);
        var y := PushedSymbol(g, C, d, c, f);
        StackState(g, C, d, c);
        UnitNew(g, C, K, d, fol, la, T, c.state, y, x, seen);
        SymbolLeft(g.nonterminals, seen, y);
        var m := PhaseAbove(g, C, K, d, fol, la, T, h, c, f, chain, seen + {y});
        LaterFrom(g, C, d, T, h, c, e, f, n, m);
        n := n + m;
      } else {
        LandedBelow(g, C, d, c, e, f);
        LandsFrom(g, C, d, T, h, c, e, n);
      }
    } else {
      StopsFrom(g, C, d, T, h, c, e, n);
    }
  }

  lemma StackState(g: Cfg, C: seq<seq<Item>>, d: Delta, c: Config)
    requires Ready(g, C, d, c)
    ensures c.state < |C|
  {
  }

  lemma NumberLeft(n: nat, chain: set<nat>, q: nat)
    requires q < n && q !in chain
    ensures Numbers(n) - (chain + {q}) < Numbers(n) - chain
  {
    assert q in Numbers(n) - chain;
  }

  lemma SymbolLeft(all: set<Symbol>, seen: set<Symbol>, y: Symbol)
    requires y in all && y !in seen
    ensures all - (seen + {y}) < all - seen
  {
    assert y in all - seen;
  }

  lemma StopsOrLandsParts(g: Cfg, C: seq<seq<Item>>, d: Delta, T: Tables, h: bool, c: Config, n: nat)
    requires StopsOrLands(g, C, d, T, h, c, n)
    ensures RunsClean(T, h, c, n)
    ensures var e := Run(T, h, c, n);
      (Ready(g, C, d, e) && Pending(e) == Pending(c) && Stops(T, e)) || Landed(g, C, d, c, e)
  {
  }

  lemma LandsFrom(g: Cfg, C: seq<seq<Item>>, d: Delta, T: Tables, h: bool, c: Config, e: Config, n: nat)
    requires RunsClean(T, h, e, n) && Landed(g, C, d, c, Run(T, h, e, n))
    ensures StopsOrLandsFrom(g, C, d, T, h, c, e, n)
  {
  }

  lemma StopsFrom(g: Cfg, C: seq<seq<Item>>, d: Delta, T: Tables, h: bool, c: Config, e: Config, n: nat)
    requires RunsClean(T, h, e, n)
    requires var f := Run(T, h, e, n); Ready(g, C, d, f) && Pending(f) == Pending(c) && Stops(T, f)
    ensures StopsOrLandsFrom(g, C, d, T, h, c, e, n)
  {
  }

  /** Landing at the height of the symbol that was pushed is a unit step there. */
  lemma LandedAbove(g: Cfg, C: seq<seq<Item>>, d: Delta, c: Config, e: Config, f: Config)
    requires Pushed(g, C, d, c, e) && Landed(g, C, d, e, f) && |f.statestack| == |e.statestack| && g.WellFormed()
    ensures Pushed(g, C, d, c, f) && Unit(g, Top(f), Top(e))
  {
    hide Ready, Nullable;
    var k := |c.symstack|;
    var p: nat, nu :| ReachesUp(g, e, k, f.symstack[k].sym, p, nu);
    assert Syms(e.symstack[k..]) == [Top(e)];
    assert g.Rhs(p)[1..] == nu;
    assert UnitBy(g, Top(f), Top(e), p);
    UnitNullable(g, p, Top(e), nu);
    assert f.statestack == f.statestack[..k] + [f.statestack[k]];
    assert f.symstack[..k] == e.symstack[..k] == c.symstack;
    assert e.statestack[..k] == c.statestack;
  }

  lemma UnitNullable(g: Cfg, p: nat, x: Symbol, nu: seq<Symbol>)
    requires p < |g.productions| && g.Rhs(p) == [x] + nu && Nullable(g, [x]) && NullableSymbols(g, nu) && g.WellFormed()
    ensures Nullable(g, [g.productions[p].name])
  {
    hide Derives;
    DerivesProduction(g, p);
    var ts := EmptyForest(g, nu);
    ForestDerives(g, nu, ts);
    DerivesJoin(g, [x], [], nu, []);
    var none: seq<Symbol> := [];
    assert none + none == none;
    DerivesTrans(g, [g.productions[p].name], g.Rhs(p), []);
  }

  /** Landing below it, the pushed symbol has become part of the production. */
  lemma LandedBelow(g: Cfg, C: seq<seq<Item>>, d: Delta, c: Config, e: Config, f: Config)
    requires Pushed(g, C, d, c, e) && Landed(g, C, d, e, f) && |f.statestack| != |e.statestack|
    ensures Landed(g, C, d, c, f)
  {
    hide Ready, Nullable;
    var k, n := |f.statestack| - 1, |c.symstack|;
    var p: nat, nu :| ReachesUp(g, e, k, f.symstack[k].sym, p, nu);
    var x := Top(e);
    assert e.symstack[k..] == c.symstack[k..] + [e.symstack[n]];
    assert Syms(e.symstack[k..]) == Syms(c.symstack[k..]) + [x];
    assert g.Rhs(p) == Syms(c.symstack[k..]) + ([x] + nu);
    assert NullableSymbols(g, [x] + nu);
    assert ReachesUp(g, c, k, f.symstack[k].sym, p, [x] + nu);
    assert e.statestack[..k] == c.statestack[..k] && e.symstack[..k] == c.symstack[..k];
    assert e.statestack[k - 1] == c.statestack[k - 1];
  }

  // ----- The next shift, the end, or an error -----

  /** With its symbols `seen` at the top of the stacks the engine stops reducing at last. */
  lemma {:induction false} Settles(g: Cfg, C: seq<seq<Item>>, K: seq<seq<Item>>, d: Delta, fol: FollowMap, la: LookTable, T: Tables, h: bool,
                                   c: Config, seen: set<Symbol>) returns (n: nat)
    requires Deterministic(g, C, K, d, fol, la, T) && AllProductive(g) && Ready(g, C, d, c) && Leads(g, Top(c), seen)
    ensures RunsClean(T, h, c, n)
    ensures var e := Run(T, h, c, n); Ready(g, C, d, e) && Pending(e) == Pending(c) && Stops(T, e)
    decreases |c.statestack|, g.nonterminals - seen
  {
    hide *;
    WellFormedOf(g, C, K, d, fol, la, T);
    ReadyRunning(g, C, d, c);
    OwnChain(g, C, d, c.state);
    n := Phase(g, C, K, d, fol, la, T, h, c, {c.state});
    StopsOrLandsParts(g, C, d, T, h, c, n);
    var e := Run(T, h, c, n);
    if !(Ready(g, C, d, e) && Pending(e) == Pending(c) && Stops(T, e)) {
      var m: nat;
      LandedReady(g, C, d, c, e);
      if |e.statestack| < |c.statestack| {
        NothingSeen(g, Top(e));
        m := Settles(g, C, K, d, fol, la, T, h, e, {});
      } else {
        var s := LandedTop(g, C, d, c, e);
        UnitNew(g, C, K, d, fol, la, T, s, Top(e), Top(c), seen);
        SymbolLeft(g.nonterminals, seen, Top(e));
        m := Settles(g, C, K, d, fol, la, T, h, e, seen + {Top(e)});
      }
      RunPlus(T, h, c, n, m);
      n := n + m;
    }
  }

  lemma OwnChain(g: Cfg, C: seq<seq<Item>>, d: Delta, q: nat)
    requires q < |C|
    ensures Chain(g, C, d, {q}, q)
  {
    EmptyWalk(d, q);
    assert NullableSymbols(g, []);
  }

  lemma NothingSeen(g: Cfg, x: Symbol)
    ensures Leads(g, x, {})
  {
  }

  lemma LandedReady(g: Cfg, C: seq<seq<Item>>, d: Delta, c: Config, e: Config)
    requires Landed(g, C, d, c, e)
    ensures Ready(g, C, d, e) && Pending(e) == Pending(c) && |e.statestack| <= |c.statestack|
  {
  }

  lemma LandedTop(g: Cfg, C: seq<seq<Item>>, d: Delta, c: Config, e: Config) returns (s: nat)
    requires g.WellFormed() && Ready(g, C, d, c) && Landed(g, C, d, c, e) && |e.statestack| == |c.statestack|
    ensures s < |C| && (s, Top(e)) in d && Unit(g, Top(e), Top(c)) && Top(e) in g.nonterminals
  {
    var k := |c.statestack| - 1;
    s := c.statestack[k - 1];
    assert s < |C|;
    hide Ready, Nullable;
    var p: nat, nu :| ReachesUp(g, c, k, e.symstack[k].sym, p, nu);
    assert Syms(c.symstack[k..]) == [Top(c)];
    assert g.Rhs(p)[1..] == nu;
    assert UnitBy(g, Top(e), Top(c), p);
  }

  /** From a configuration without an error in sight the loop is left, or comes to a syntax error. */
  lemma {:induction false} CleanEnds(g: Cfg, C: seq<seq<Item>>, K: seq<seq<Item>>, d: Delta, fol: FollowMap, la: LookTable, T: Tables, h: bool,
                                     c: Config) returns (n: nat)
    requires Deterministic(g, C, K, d, fol, la, T) && AllProductive(g) && Ready(g, C, d, c)
    ensures RunsClean(T, h, c, n)
    ensures var e := Run(T, h, c, n); e.status != Running || (Errs(T, e) && Ready(g, C, d, e))
    decreases |Pending(c)|
  {
    hide *;
    WellFormedOf(g, C, K, d, fol, la, T);
    NothingSeen(g, Top(c));
    n := Settles(g, C, K, d, fol, la, T, h, c, {});
    var e := Run(T, h, c, n);
    ReadyRunning(g, C, d, e);
    if !Errs(T, e) {
      StopRound(g, C, K, d, la, T, h, e);
      RunPlus(T, h, c, n, 1);
      n := n + 1;
      var f := Run(T, h, e, 1);
      if f.status == Running {
        var m := CleanEnds(g, C, K, d, fol, la, T, h, f);
        RunPlus(T, h, c, n, m);
        n := n + m;
      }
    }
  }

  /** A round that is neither a reduce nor an error accepts, or shifts a token. */
  lemma StopRound(g: Cfg, C: seq<seq<Item>>, K: seq<seq<Item>>, d: Delta, la: LookTable, T: Tables, h: bool, c: Config)
    requires Built(g, C, K, d, la, T) && Ready(g, C, d, c) && Stops(T, c) && !Errs(T, c)
    ensures RunsClean(T, h, c, 1)
    ensures var e := Run(T, h, c, 1); e.status == Running ==> Ready(g, C, d, e) && |Pending(e)| < |Pending(c)|
  {
    hide *;
    var f := Fetch(c);
    BuiltFormed(g, C, K, d, la, T);
    FetchReady(g, C, d, c);
    ReadyRunning(g, C, d, c);
    ReadyRunning(g, C, d, f);
    var t := CleanAction(g, C, K, d, la, T, h, c);
    RunOne(T, h, c);
    Stopping(g, C, K, d, la, T, h, c, f, t);
    if t > 0 {
      ShiftedReady(g, C, K, d, la, c, f, t);
    }
  }

  lemma Stopping(g: Cfg, C: seq<seq<Item>>, K: seq<seq<Item>>, d: Delta, la: LookTable, T: Tables, h: bool, c: Config, f: Config, t: int)
    requires Stops(T, c) && !Errs(T, c) && Ready(g, C, d, c) && f == Fetch(c) && f.lookahead.Some?
    requires t < 0 ==> Step(T, h, c) == Reduce(T, f, 0 - t)
    ensures t >= 0
  {
  }

  lemma BuiltFormed(g: Cfg, C: seq<seq<Item>>, K: seq<seq<Item>>, d: Delta, la: LookTable, T: Tables)
    requires Built(g, C, K, d, la, T)
    ensures g.WellFormed() && Collection(g, C, K, d)
  {
  }

  lemma ShiftedReady(g: Cfg, C: seq<seq<Item>>, K: seq<seq<Item>>, d: Delta, la: LookTable, c: Config, f: Config, t: nat)
    requires g.WellFormed() && Collection(g, C, K, d) && Ready(g, C, d, f) && f.lookahead.Some? && f.lookahead.value == Token(NextSymbol(Pending(c)))
    requires Pending(f) == Pending(c) && t > 0 && Offers(g, C, d, la, f.state, f.lookahead.value.sym, t)
    ensures Ready(g, C, d, Shift(f, t)) && |Pending(Shift(f, t))| < |Pending(c)|
  {
    hide Collection, Viable;
    var a := f.lookahead.value.sym;
    var it :| OffersShift(g, C, d, f.state, a, it) && t == d[(f.state, a)];
    ReadyRunning(g, C, d, f);
    ShiftViable(g, C, K, d, f);
  }

  // ----- Every parse ends -----

  lemma FreshStart(g: Cfg, C: seq<seq<Item>>, K: seq<seq<Item>>, d: Delta, w: seq<Symbol>, count: nat)
    requires Collection(g, C, K, d) && End !in w
    ensures Ready(g, C, d, Fresh(w, count)) && Balanced(Fresh(w, count), w)
  {
    FreshReady(g, C, K, d, w, count);
  }

  /** Without `error` rules the loop is left on every input, whether it is in the language or not. */
  lemma {:induction false} ParseEnds(g: Cfg, C: seq<seq<Item>>, K: seq<seq<Item>>, d: Delta, fol: FollowMap, la: LookTable, T: Tables, h: bool,
                                     w: seq<Symbol>, count: nat) returns (n: nat)
    requires Deterministic(g, C, K, d, fol, la, T) && AllProductive(g) && NoErrorRules(g, la) && End !in w && Error !in w
    ensures Run(T, h, Fresh(w, count), n).status != Running
    decreases |w|
  {
    hide *;
    WellFormedOf(g, C, K, d, fol, la, T);
    FreshStart(g, C, K, d, w, count);
    var c := Fresh(w, count);
    n := CleanEnds(g, C, K, d, fol, la, T, h, c);
    var e := Run(T, h, c, n);
    if e.status == Running {
      ReadyRunning(g, C, d, e);
      RunBalanced(g, C, K, d, la, T, h, c, w, n);
      var k := DroppedPrefix(e, w);
      if Fetch(e).lookahead.value.sym == End {
        ErrorAtEnd(g, C, K, d, la, T, h, e);
        RunStep(T, h, e, 1);
        RunStep(T, h, Step(T, h, e), 0);
        RunPlus(T, h, c, n, 1);
        n := n + 1;
      } else {
        var r := ErrorRestarts(g, C, K, d, la, T, h, e);
        DroppedMembers(w, k);
        var m := ParseEnds(g, C, K, d, fol, la, T, h, w[k..], ERROR_COUNT);
        RunPlus(T, h, c, n, r);
        RunPlus(T, h, c, n + r, m);
        n := n + r + m;
      }
    }
  }

  lemma DroppedMembers(w: seq<Symbol>, k: nat)
    requires k <= |w| && End !in w && Error !in w
    ensures End !in w[k..] && Error !in w[k..]
  {
  }

  /** The parser decides the language: the loop ends on every input, and a string of terminals is in the
      language exactly when it ends without a syntax error. */
  lemma ParserDecides(g: Cfg, C: seq<seq<Item>>, K: seq<seq<Item>>, d: Delta, fol: FollowMap, la: LookTable, T: Tables, h: bool,
                      w: seq<Symbol>) returns (n: nat)
    requires Deterministic(g, C, K, d, fol, la, T) && AllProductive(g) && NoErrorRules(g, la) && Terminals(g, w) && Error !in w
    ensures var e := Run(T, h, Initial(w), n);
      && e.status != Running && e.status != Crashed
      && (Derives(g, [g.Start()], w) <==> RunsClean(T, h, Initial(w), n))
  {
    hide *;
    WellFormedOf(g, C, K, d, fol, la, T);
    NoEnd(g, w);
    n := ParseEnds(g, C, K, d, fol, la, T, h, w, 0);
    FreshZero(w);
    ViablePrefix(g, C, K, d, la, T, h, w, n);
    LanguageIsAccepted(g, C, K, d, fol, la, T, h, w);
    CleanToTheEnd(T, h, Initial(w), n);
  }

  lemma NoEnd(g: Cfg, w: seq<Symbol>)
    requires g.WellFormed() && Terminals(g, w)
    ensures End !in w
  {
    assert End !in g.terminals;
  }

  lemma FreshZero(w: seq<Symbol>)
    ensures Fresh(w, 0) == Initial(w)
  {
  }

  /** A run that ends without an error in some number of rounds does so in any number that is enough. */
  lemma CleanToTheEnd(T: Tables, h: bool, c: Config, n: nat)
    requires Run(T, h, c, n).status != Running
    ensures (exists m :: RunsClean(T, h, c, m) && Run(T, h, c, m).status != Running) <==> RunsClean(T, h, c, n)
  {
    hide Run, RunsClean;
    if m :| RunsClean(T, h, c, m) && Run(T, h, c, m).status != Running {
      CleanLater(T, h, c, m, n);
    }
  }

  lemma {:induction false} CleanLater(T: Tables, h: bool, c: Config, m: nat, n: nat)
    requires RunsClean(T, h, c, m) && Run(T, h, c, m).status != Running
    ensures RunsClean(T, h, c, n)
    decreases n
  {
    hide Step, Errs;
    if n > 0 && c.status == Running {
      RunStep(T, h, c, m);
      CleanLater(T, h, Step(T, h, c), m - 1, n - 1);
    }
  }

  /** So the parser object can be run to its end on any input: it returns, and for a string of the
      language it returns a derivation tree. */
  method Parse(parser: LRParser, w: seq<Symbol>, ghost g: Cfg, ghost C: seq<seq<Item>>, ghost K: seq<seq<Item>>, ghost d: Delta,
               ghost fol: FollowMap, ghost la: LookTable) returns (status: Status)
    requires Deterministic(g, C, K, d, fol, la, parser.T) && AllProductive(g) && NoErrorRules(g, la) && Terminals(g, w) && Error !in w
    modifies parser
    ensures status.Returned?
    ensures Derives(g, [g.Start()], w) ==>
              status.result.Some? && ValidTree(g, status.result.value) && Root(g, status.result.value) == g.Start() && Yield(status.result.value) == w
  {
    hide *;
    WellFormedOf(g, C, K, d, fol, la, parser.T);
    ghost var n := ParserDecides(g, C, K, d, fol, la, parser.T, parser.hasErrorFunc, w);
    status := parser.ParseOptNoTrack(w, n);
    NoEnd(g, w);
    if Derives(g, [g.Start()], w) {
      AcceptedIsDerivation(g, C, K, d, la, parser.T, parser.hasErrorFunc, w, n);
    }
  }
}
