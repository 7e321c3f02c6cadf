/** Exactness of the LALR lookaheads: where moved items add nothing to the includes relation, the lookaheads
    of a completed item are those of the right sentential forms that lead to its state. */
module Lalr1 {
  import opened Lists
  import opened Grammars
  import opened GrammarFacts
  import opened Items
  import opened ParserTables
  import opened Digraphs
  import opened LalrFacts
  import opened Relations
  import opened Lookaheads
  import opened FollowBounds
  import opened Lookback
  import opened Coverage
  import opened ActiveStates
  import opened Futures

  // ----- Rightmost derivations -----

  lemma {:induction false} RightmostTrans(g: Cfg, a: seq<Symbol>, b: seq<Symbol>, c: seq<Symbol>, n: nat)
    requires RightmostDerives(g, a, b) && RightmostIn(g, b, c, n)
    ensures RightmostDerives(g, a, c)
    decreases n
  {
    if n > 0 {
      var e, i: nat, p: nat :| RightmostIn(g, b, e, n - 1) && RightmostStep(g, e, c, i, p);
      RightmostTrans(g, a, b, e, n - 1);
      RightmostMore(g, a, e, c, i, p);
    }
  }

  lemma RightmostMore(g: Cfg, a: seq<Symbol>, b: seq<Symbol>, c: seq<Symbol>, i: nat, p: nat)
    requires RightmostDerives(g, a, b) && RightmostStep(g, b, c, i, p)
    ensures RightmostDerives(g, a, c)
  {
    var n: nat :| RightmostIn(g, a, b, n);
    var k := n + 1;
    assert RightmostIn(g, a, c, k);
  }

  lemma RightmostSelf(g: Cfg, a: seq<Symbol>)
    ensures RightmostDerives(g, a, a)
  {
    assert RightmostIn(g, a, a, 0);
  }

  lemma RightmostJoin(g: Cfg, a: seq<Symbol>, b: seq<Symbol>, c: seq<Symbol>)
    requires RightmostDerives(g, a, b) && RightmostDerives(g, b, c)
    ensures RightmostDerives(g, a, c)
  {
    var n: nat :| RightmostIn(g, b, c, n);
    RightmostTrans(g, a, b, c, n);
  }

  /** Between any symbols on the left and terminals on the right a rule can be applied. */
  lemma ApplyRule(g: Cfg, s: seq<Symbol>, u: seq<Symbol>, p: nat, z: seq<Symbol>)
    requires p < |g.productions| && Terminals(g, z) && RightmostDerives(g, s, u + [g.productions[p].name] + z)
    ensures RightmostDerives(g, s, u + g.Rhs(p) + z)
  {
    var a, b := u + [g.productions[p].name] + z, u + g.Rhs(p) + z;
    assert a[..|u|] == u && a[|u|] == g.productions[p].name && a[|u| + 1..] == z;
    assert RightmostStep(g, a, b, |u|, p);
    RightmostMore(g, s, a, b, |u|, p);
  }

  /** A forest with a terminal yield is derived from the right. */
  lemma {:induction false} RightmostForest(g: Cfg, s: seq<Symbol>, u: seq<Symbol>, beta: seq<Symbol>, ts: seq<Tree>, z: seq<Symbol>)
    requires Forest(g, beta, ts) && Terminals(g, Yields(ts)) && Terminals(g, z) && RightmostDerives(g, s, u + beta + z)
    ensures RightmostDerives(g, s, u + Yields(ts) + z)
    decreases ts
  {
    hide RightmostDerives, ValidTree, Terminals, Forest, Yield, Yields, Root;
    if ts == [] {
      NoForest(g, beta);
    } else {
      var n := |ts| - 1;
      var t := ts[n];
      LastTree(g, beta, ts);
      LastYield(ts);
      TerminalParts(g, Yields(ts[..n]), Yield(t), z);
      SplitLast(u, beta, z);
      RightmostTree(g, s, u + beta[..n], t, z);
      Regroup(u, beta[..n], Yield(t), z);
      RightmostForest(g, s, u, beta[..n], ts[..n], Yield(t) + z);
      Regroup(u, Yields(ts[..n]), Yield(t), z);
      assert u + Yields(ts[..n]) + (Yield(t) + z) == u + Yields(ts) + z by {
        Regroup(u, Yields(ts[..n]), Yield(t), z);
        assert u + (Yields(ts[..n]) + Yield(t)) == (u + Yields(ts[..n])) + Yield(t);
      }
    }
  }

  lemma NoForest(g: Cfg, beta: seq<Symbol>)
    requires Forest(g, beta, [])
    ensures beta == [] && Yields([]) == []
  {
    assert |Roots(g, [])| == 0;
  }

  lemma LastYield(ts: seq<Tree>)
    requires ts != []
    ensures var n := |ts| - 1; Yields(ts) == Yields(ts[..n]) + Yield(ts[n])
  {
    var n := |ts| - 1;
    YieldsConcat(ts[..n], [ts[n]]);
    assert ts == ts[..n] + [ts[n]];
    YieldsOne(ts[n]);
  }

  lemma SplitLast(u: seq<Symbol>, beta: seq<Symbol>, z: seq<Symbol>)
    requires beta != []
    ensures var n := |beta| - 1; u + beta + z == (u + beta[..n]) + [beta[n]] + z
  {
    var n := |beta| - 1;
    assert beta == beta[..n] + [beta[n]];
  }

  lemma Regroup(u: seq<Symbol>, a: seq<Symbol>, b: seq<Symbol>, z: seq<Symbol>)
    ensures (u + a) + b + z == u + a + (b + z)
  {
  }

  lemma {:induction false} RightmostTree(g: Cfg, s: seq<Symbol>, u: seq<Symbol>, t: Tree, z: seq<Symbol>)
    requires ValidTree(g, t) && Terminals(g, Yield(t)) && Terminals(g, z) && RightmostDerives(g, s, u + [Root(g, t)] + z)
    ensures RightmostDerives(g, s, u + Yield(t) + z)
    decreases t
  {
    hide RightmostDerives;
    match t
    case Leaf(x) =>
      assert Yield(t) == [x];
    case Node(p, kids) =>
      ApplyRule(g, s, u, p, z);
      assert Forest(g, g.Rhs(p), kids);
      RightmostForest(g, s, u, g.Rhs(p), kids, z);
  }

  lemma LastTree(g: Cfg, beta: seq<Symbol>, ts: seq<Tree>)
    requires Forest(g, beta, ts) && ts != []
    ensures var n := |ts| - 1; |beta| == |ts| && Forest(g, beta[..n], ts[..n]) && ValidTree(g, ts[n]) && Root(g, ts[n]) == beta[n]
  {
    var n := |ts| - 1;
    assert |Roots(g, ts)| == |ts|;
    assert Roots(g, ts)[n] == Root(g, ts[n]);
    ForestSlice(g, beta, ts, 0, n);
    assert beta[0..n] == beta[..n] && ts[0..n] == ts[..n];
  }

  lemma TerminalParts(g: Cfg, a: seq<Symbol>, b: seq<Symbol>, z: seq<Symbol>)
    requires Terminals(g, a + b) && Terminals(g, z)
    ensures Terminals(g, a) && Terminals(g, b) && Terminals(g, b + z)
  {
    assert forall i :: 0 <= i < |a| ==> (a + b)[i] == a[i];
    assert forall i :: 0 <= i < |b| ==> (a + b)[|a| + i] == b[i];
  }

  /** Any derivation of terminals can be made from the right. */
  lemma RightmostRest(g: Cfg, s: seq<Symbol>, u: seq<Symbol>, beta: seq<Symbol>, v: seq<Symbol>, z: seq<Symbol>)
    requires RightmostDerives(g, s, u + beta + z) && Derives(g, beta, v) && Terminals(g, v) && Terminals(g, z)
    ensures RightmostDerives(g, s, u + v + z)
  {
    hide RightmostDerives, Derives, Terminals;
    DerivesIffForest(g, beta, v);
    var ts :| Forest(g, beta, ts) && Yields(ts) == v;
    RightmostForest(g, s, u, beta, ts, z);
  }

  lemma NoTerminals(g: Cfg)
    ensures Terminals(g, [])
  {
  }

  // ----- Items are valid for the paths to their states -----

  /** The item's production is applied in a right sentential form whose prefix is the path. */
  ghost predicate AppliedAt(g: Cfg, gamma: seq<Symbol>, it: Item, mu: seq<Symbol>, z: seq<Symbol>)
    requires g.WellFormed() && ValidItem(g, it)
  {
    gamma == mu + g.Rhs(it.num)[..it.dot] && Terminals(g, z) && RightmostDerives(g, [g.Start()], mu + [g.productions[it.num].name] + z)
  }

  lemma {:induction false} ItemApplied(g: Cfg, C: seq<seq<Item>>, K: seq<seq<Item>>, d: Delta, gamma: seq<Symbol>, m: nat)
    returns (mu: seq<Symbol>, z: seq<Symbol>)
    requires g.WellFormed() && Collection(g, C, K, d) && AllProductive(g) && ItemAt(g, C, d, gamma, m) && At(g, C, d, gamma, m).num > 0
    ensures AppliedAt(g, gamma, At(g, C, d, gamma, m), mu, z)
    decreases |gamma|, m
  {
    hide Collection, AllProductive, RightmostDerives, Walk;
    var it := At(g, C, d, gamma, m);
    if it.dot > 0 {
      var k := Unmoved(g, C, K, d, gamma, m);
      mu, z := ItemApplied(g, C, K, d, gamma[..|gamma| - 1], k);
      PathMoved(g, gamma, it, mu);
    } else {
      var k, v := CallerOf(g, C, K, d, gamma, m);
      var c := At(g, C, d, gamma, k);
      if c.num == 0 {
        StartCaller(g, C, K, d, gamma, k, it);
        mu, z := gamma, [];
      } else {
        var nu, y := ItemApplied(g, C, K, d, gamma, k);
        mu, z := gamma, v + y;
        CallerApplied(g, gamma, c, it, nu, y, v);
      }
      assert gamma == gamma + g.Rhs(it.num)[..0];
    }
  }

  lemma PathMoved(g: Cfg, gamma: seq<Symbol>, it: Item, mu: seq<Symbol>)
    requires ValidItem(g, it) && it.dot > 0 && gamma != [] && DotBefore(g, Item(it.num, it.dot - 1), gamma[|gamma| - 1])
    requires gamma[..|gamma| - 1] == mu + g.Rhs(it.num)[..it.dot - 1]
    ensures gamma == mu + g.Rhs(it.num)[..it.dot]
  {
    assert g.Rhs(it.num)[..it.dot] == g.Rhs(it.num)[..it.dot - 1] + [gamma[|gamma| - 1]];
    assert gamma == gamma[..|gamma| - 1] + [gamma[|gamma| - 1]];
  }

  lemma StartCaller(g: Cfg, C: seq<seq<Item>>, K: seq<seq<Item>>, d: Delta, gamma: seq<Symbol>, k: nat, it: Item)
    requires g.WellFormed() && Collection(g, C, K, d) && ItemAt(g, C, d, gamma, k) && At(g, C, d, gamma, k).num == 0
    requires 1 <= it.num < |g.productions| && DotBefore(g, At(g, C, d, gamma, k), g.productions[it.num].name)
    ensures gamma == [] && Terminals(g, []) && RightmostDerives(g, [g.Start()], gamma + [g.productions[it.num].name] + [])
  {
    hide Collection, Walk;
    var q := StateOf(g, C, K, d, gamma);
    assert C[q][k] == Item(0, 0);
    StartItem(g, C, K, d, q);
    StateBelow(g, C, K, d, gamma);
    RightmostSelf(g, [g.Start()]);
    assert [] + [g.Start()] + [] == [g.Start()];
  }

  lemma CallerApplied(g: Cfg, gamma: seq<Symbol>, c: Item, it: Item, nu: seq<Symbol>, y: seq<Symbol>, v: seq<Symbol>)
    requires g.WellFormed() && ValidItem(g, c) && c.num < |g.productions| && AppliedAt(g, gamma, c, nu, y)
    requires 1 <= it.num < |g.productions| && DotBefore(g, c, g.productions[it.num].name)
    requires Terminals(g, v) && Derives(g, g.Rhs(c.num)[c.dot + 1..], v)
    ensures Terminals(g, v + y) && RightmostDerives(g, [g.Start()], gamma + [g.productions[it.num].name] + (v + y))
  {
    hide RightmostDerives, Derives;
    var s, n, rest := [g.Start()], g.productions[it.num].name, g.Rhs(c.num)[c.dot + 1..];
    ApplyRule(g, s, nu, c.num, y);
    assert g.Rhs(c.num) == g.Rhs(c.num)[..c.dot] + [n] + rest;
    assert nu + g.Rhs(c.num) + y == (gamma + [n]) + rest + y;
    RightmostRest(g, s, gamma + [n], rest, v, y);
    assert (gamma + [n]) + v + y == gamma + [n] + (v + y);
  }

  // ----- What follows a transition -----

  /** The transition is taken in a right sentential form, with `a` next behind it. */
  ghost predicate Followed(g: Cfg, d: Delta, e: Trans, a: Symbol)
    requires g.WellFormed()
  {
    exists gamma, z :: FollowedBy(g, d, e, a, gamma, z)
  }

  ghost predicate FollowedBy(g: Cfg, d: Delta, e: Trans, a: Symbol, gamma: seq<Symbol>, z: seq<Symbol>)
    requires g.WellFormed()
  {
    && Walk(d, 0, gamma) == Some(e.0) && RightmostDerives(g, [g.Start()], gamma + [e.1] + z)
    && Terminals(g, z) && a == if z == [] then End else z[0]
  }

  /** `a` can be shifted behind the transition and a path of nullable symbols, or the transition is that of
      the start symbol and `a` is `$end`. */
  ghost predicate ReadsBehind(g: Cfg, d: Delta, e: Trans, a: Symbol)
    requires g.WellFormed()
  {
    || (exists alpha, s: nat :: ShiftsBehind(g, d, e, a, alpha, s))
    || (a == End && e == (0, g.Start()) && e in d)
  }

  ghost predicate ShiftsBehind(g: Cfg, d: Delta, e: Trans, a: Symbol, alpha: seq<Symbol>, s: nat) {
    e in d && NullableSymbols(g, alpha) && Walk(d, d[e], alpha) == Some(s) && (s, a) in d && a in g.terminals
  }

  lemma ReadIsFollowed(g: Cfg, C: seq<seq<Item>>, K: seq<seq<Item>>, d: Delta, e: Trans, a: Symbol)
    requires g.WellFormed() && Collection(g, C, K, d) && AllProductive(g) && ReadsBehind(g, d, e, a)
    ensures Followed(g, d, e, a)
  {
    hide Collection, AllProductive, RightmostDerives, Walk;
    if alpha, s: nat :| ShiftsBehind(g, d, e, a, alpha, s) {
      ShiftIsFollowed(g, C, K, d, e, a, alpha, s);
    } else {
      RightmostSelf(g, [g.Start()]);
      EmptyWalk(d, 0);
      assert [] + [e.1] + [] == [g.Start()];
      assert FollowedBy(g, d, e, a, [], []);
    }
  }

  lemma ShiftIsFollowed(g: Cfg, C: seq<seq<Item>>, K: seq<seq<Item>>, d: Delta, e: Trans, a: Symbol, alpha: seq<Symbol>, s: nat)
    requires g.WellFormed() && Collection(g, C, K, d) && AllProductive(g) && ShiftsBehind(g, d, e, a, alpha, s)
    ensures Followed(g, d, e, a)
  {
    hide Collection, AllProductive, RightmostDerives, Derives, Walk;
    StateBound(g, C, K, d, e.0, e.1);
    var gamma := PathTo(g, C, K, d, e.0);
    var path := (gamma + [e.1]) + alpha;
    WalkSnoc(d, 0, gamma, e.1);
    WalkAppend(d, 0, gamma + [e.1], alpha);
    var it := EdgeItem(g, C, K, d, s, a);
    StateItems(g, C, K, d, s, it);
    var m: nat :| m < |C[s]| && C[s][m] == it;
    var mu, z := ItemApplied(g, C, K, d, path, m);
    ApplyRule(g, [g.Start()], mu, it.num, z);
    var v := RestDerives(g, it, it.dot + 1);
    AllTerminals(g, v);
    ShiftedForm(g, gamma + [e.1], alpha, a, it, mu, v, z);
    assert FollowedBy(g, d, e, a, gamma, [a] + v + z);
  }

  lemma AllTerminals(g: Cfg, v: seq<Symbol>)
    requires forall a :: a in v ==> a in g.terminals
    ensures Terminals(g, v)
  {
  }

  lemma ShiftedForm(g: Cfg, u: seq<Symbol>, alpha: seq<Symbol>, a: Symbol, it: Item, mu: seq<Symbol>, v: seq<Symbol>, z: seq<Symbol>)
    requires g.WellFormed() && ValidItem(g, it) && DotBefore(g, it, a) && a in g.terminals && u + alpha == mu + g.Rhs(it.num)[..it.dot]
    requires RightmostDerives(g, [g.Start()], mu + g.Rhs(it.num) + z) && Terminals(g, z)
    requires Derives(g, g.Rhs(it.num)[it.dot + 1..], v) && Terminals(g, v) && NullableSymbols(g, alpha)
    ensures Terminals(g, [a] + v + z) && RightmostDerives(g, [g.Start()], u + ([a] + v + z))
  {
    hide RightmostDerives, Derives;
    var s, rest := [g.Start()], g.Rhs(it.num)[it.dot + 1..];
    assert g.Rhs(it.num) == g.Rhs(it.num)[..it.dot] + [a] + rest;
    assert mu + g.Rhs(it.num) + z == (u + alpha + [a]) + rest + z;
    RightmostRest(g, s, u + alpha + [a], rest, v, z);
    assert (u + alpha + [a]) + v + z == u + alpha + ([a] + v + z);
    NullableForest(g, alpha);
    NoTerminals(g);
    RightmostRest(g, s, u, alpha, [], [a] + v + z);
    assert u + [] + ([a] + v + z) == u + ([a] + v + z);
  }

  // ----- From one transition to another -----

  /** An item of t's nonterminal in t's state, with its dot at index `dot`, is followed over `e`, and only
      nullable symbols are left behind it. */
  ghost predicate PassesOver(g: Cfg, C: seq<seq<Item>>, d: Delta, t: Trans, e: Trans, p: nat, dot: nat, k: nat) {
    && t.0 < |C| && p < |g.productions| && g.productions[p].name == t.1 && dot <= k < |g.Rhs(p)| && Item(p, dot) in C[t.0]
    && g.Rhs(p)[k] == e.1 && Walk(d, t.0, g.Rhs(p)[dot..k]) == Some(e.0) && NullableSymbols(g, g.Rhs(p)[k + 1..])
  }

  lemma PassedIsFollowed(g: Cfg, C: seq<seq<Item>>, d: Delta, t: Trans, e: Trans, p: nat, k: nat, a: Symbol)
    requires g.WellFormed() && PassesOver(g, C, d, t, e, p, 0, k) && Followed(g, d, t, a)
    ensures Followed(g, d, e, a)
  {
    hide RightmostDerives, Derives, Walk;
    var gamma, z :| FollowedBy(g, d, t, a, gamma, z);
    var s, r := [g.Start()], g.Rhs(p);
    ApplyRule(g, s, gamma, p, z);
    NullableTail(g, s, gamma, r, k, z);
    assert r[0..k] == r[..k];
    WalkAppend(d, 0, gamma, r[..k]);
    assert FollowedBy(g, d, e, a, gamma + r[..k], z);
  }

  lemma NullableTail(g: Cfg, s: seq<Symbol>, u: seq<Symbol>, r: seq<Symbol>, k: nat, z: seq<Symbol>)
    requires k < |r| && NullableSymbols(g, r[k + 1..]) && Terminals(g, z) && RightmostDerives(g, s, u + r + z)
    ensures RightmostDerives(g, s, (u + r[..k]) + [r[k]] + z)
  {
    hide RightmostDerives, Derives, Terminals;
    var left, rest := u + r[..k] + [r[k]], r[k + 1..];
    assert u + r + z == left + rest + z by {
      assert r == r[..k] + [r[k]] + rest;
    }
    NullableForest(g, rest);
    NoTerminals(g);
    RightmostRest(g, s, left, rest, [], z);
    assert left + [] + z == (u + r[..k]) + [r[k]] + z;
  }

  /** `a` is read behind a transition to which `n` such steps lead. */
  ghost predicate FollowsIn(g: Cfg, C: seq<seq<Item>>, d: Delta, e: Trans, a: Symbol, n: nat)
    requires g.WellFormed()
    decreases n
  {
    if n == 0 then ReadsBehind(g, d, e, a)
    else exists t: Trans, p: nat, dot: nat, k: nat :: Passed(g, C, d, t, e, p, dot, k) && FollowsIn(g, C, d, t, a, n - 1)
  }

  /** From `t` to `e` over items with their dots at the left. */
  ghost predicate PassedPlainly(g: Cfg, C: seq<seq<Item>>, d: Delta, t: Trans, e: Trans, n: nat)
    decreases n
  {
    if n == 0 then t == e
    else exists u: Trans, p: nat, k: nat :: Passed(g, C, d, t, u, p, 0, k) && PassedPlainly(g, C, d, u, e, n - 1)
  }

  /** The item with its dot at index `dot` leads from `t` to `e`, as items with their dots at the left do. */
  ghost predicate PassImplied(g: Cfg, C: seq<seq<Item>>, d: Delta, t: Trans, e: Trans, p: nat, dot: nat, k: nat) {
    Passed(g, C, d, t, e, p, dot, k) ==> exists n: nat :: PassedPlainly(g, C, d, t, e, n)
  }

  /** Moved items lead nowhere else. */
  ghost predicate MovedImplied(g: Cfg, C: seq<seq<Item>>, d: Delta) {
    forall t: Trans, e: Trans, p: nat, dot: nat, k: nat {:trigger Passed(g, C, d, t, e, p, dot, k)} ::
      dot > 0 ==> PassImplied(g, C, d, t, e, p, dot, k)
  }

  lemma {:induction false} PlainlyFollowed(g: Cfg, C: seq<seq<Item>>, d: Delta, t: Trans, e: Trans, n: nat, a: Symbol)
    requires g.WellFormed() && PassedPlainly(g, C, d, t, e, n) && Followed(g, d, t, a)
    ensures Followed(g, d, e, a)
    decreases n
  {
    hide Followed, PassesOver;
    if n > 0 {
      var u: Trans, p: nat, k: nat :| Passed(g, C, d, t, u, p, 0, k) && PassedPlainly(g, C, d, u, e, n - 1);
      PassedIsFollowed(g, C, d, t, u, p, k, a);
      PlainlyFollowed(g, C, d, u, e, n - 1, a);
    }
  }

  ghost predicate Passed(g: Cfg, C: seq<seq<Item>>, d: Delta, t: Trans, e: Trans, p: nat, dot: nat, k: nat) {
    IsTrans(g, d, t) && IsTrans(g, d, e) && PassesOver(g, C, d, t, e, p, dot, k)
  }

  lemma {:induction false} FollowsIsFollowed(g: Cfg, C: seq<seq<Item>>, K: seq<seq<Item>>, d: Delta, e: Trans, a: Symbol, n: nat)
    requires g.WellFormed() && Collection(g, C, K, d) && AllProductive(g) && MovedImplied(g, C, d) && FollowsIn(g, C, d, e, a, n)
    ensures Followed(g, d, e, a)
    decreases n
  {
    hide Collection, AllProductive, Followed, ReadsBehind, MovedImplied, Passed;
    if n == 0 {
      ReadIsFollowed(g, C, K, d, e, a);
    } else {
      var t: Trans, p: nat, dot: nat, k: nat :| Passed(g, C, d, t, e, p, dot, k) && FollowsIn(g, C, d, t, a, n - 1);
      FollowsIsFollowed(g, C, K, d, t, a, n - 1);
      StepIsFollowed(g, C, d, t, e, p, dot, k, a);
    }
  }

  lemma StepIsFollowed(g: Cfg, C: seq<seq<Item>>, d: Delta, t: Trans, e: Trans, p: nat, dot: nat, k: nat, a: Symbol)
    requires g.WellFormed() && MovedImplied(g, C, d) && Passed(g, C, d, t, e, p, dot, k) && Followed(g, d, t, a)
    ensures Followed(g, d, e, a)
  {
    hide Followed, PassedPlainly, PassesOver;
    if dot == 0 {
      PassedIsFollowed(g, C, d, t, e, p, k, a);
    } else {
      assert PassImplied(g, C, d, t, e, p, dot, k);
      var m: nat :| PassedPlainly(g, C, d, t, e, m);
      PlainlyFollowed(g, C, d, t, e, m, a);
    }
  }

  // ----- The computed follow sets -----

  /** A path of nullable symbols behind a transition is a path in the reads relation. */
  lemma {:induction false} PathReads(g: Cfg, d: Delta, nullable: set<Symbol>, R: map<Trans, seq<Trans>>, e: Trans, alpha: seq<Symbol>, s: nat)
    returns (f: Trans)
    requires NullableExact(g, nullable) && R.Keys <= d.Keys && (forall e :: e in R ==> ReadsAt(d, nullable, e, R[e]))
    requires TransKeys(g, d, R.Keys) && e in R && NullableSymbols(g, alpha) && Walk(d, d[e], alpha) == Some(s)
    ensures f in R && Reaches(R, e, f) && d[f] == s
    decreases |alpha|
  {
    hide Nullable, Walk, Reaches;
    if alpha == [] {
      EmptyWalk(d, d[e]);
      ReachesSelf(R, e);
      f := e;
    } else {
      var p, x := alpha[..|alpha| - 1], alpha[|alpha| - 1];
      var r := StateBefore(d, d[e], alpha);
      var f' := PathReads(g, d, nullable, R, e, p, r);
      f := (r, x);
      assert ReadsAt(d, nullable, f', R[f']);
      assert IsTrans(g, d, f);
      ReachesSelf(R, f);
      ReachesStep(R, f', f, f);
      ReachesTrans(R, e, f', f);
    }
  }

  lemma ReadSpelledOut(g: Cfg, C: seq<seq<Item>>, K: seq<seq<Item>>, d: Delta, nullable: set<Symbol>, R: map<Trans, seq<Trans>>,
                       dr: map<Trans, set<Symbol>>, rd: map<Trans, set<Symbol>>, e: Trans, a: Symbol)
    requires g.WellFormed() && Collection(g, C, K, d) && NullableExact(g, nullable) && ReadSets(g, d, nullable, R, dr, rd) && e in rd
    ensures a in rd[e] <==> ReadsBehind(g, d, e, a)
  {
    hide Collection, NullableExact, ReadsAt, Walk, NullableSymbols, Reaches, ReachesIn;
    ReadsFacts(g, d, nullable, R, dr, rd);
    if a in rd[e] {
      ReadIsBehind(g, C, K, d, nullable, R, dr, rd, e, a);
    }
    if alpha, s: nat :| ShiftsBehind(g, d, e, a, alpha, s) {
      var f := PathReads(g, d, nullable, R, e, alpha, s);
      assert DirectlyRead(g, d, f, a);
      assert Required(R, dr, e, a);
    } else if a == End && e == (0, g.Start()) {
      ReachesSelf(R, e);
      assert DirectlyRead(g, d, e, a);
      assert Required(R, dr, e, a);
    }
  }

  lemma ReadIsBehind(g: Cfg, C: seq<seq<Item>>, K: seq<seq<Item>>, d: Delta, nullable: set<Symbol>, R: map<Trans, seq<Trans>>,
                     dr: map<Trans, set<Symbol>>, rd: map<Trans, set<Symbol>>, e: Trans, a: Symbol)
    requires g.WellFormed() && Collection(g, C, K, d) && NullableExact(g, nullable) && ReadSets(g, d, nullable, R, dr, rd)
    requires e in rd && a in rd[e] && e in d
    ensures ReadsBehind(g, d, e, a)
  {
    hide Collection, NullableExact, ReadsAt, Walk, NullableSymbols, Reaches, ReachesIn;
    assert Required(R, dr, e, a);
    var z, n := RequiredPath(R, dr, e, a);
    var alpha := ReadsPath(d, g, nullable, R, e, z, n);
    assert DirectlyRead(g, d, z, a);
    if z in d && a in g.terminals && (d[z], a) in d {
      assert ShiftsBehind(g, d, e, a, alpha, d[z]);
    } else {
      EndReadAtStart(g, C, K, d, R, e, z, n);
    }
  }

  lemma IncludesSpelledOut(g: Cfg, C: seq<seq<Item>>, d: Delta, nullable: set<Symbol>, t: Trans, e: Trans)
    requires NullableExact(g, nullable) && IsTrans(g, d, t) && g.WellFormed()
    ensures IncludesFrom(g, C, d, nullable, t, e) ==> exists p: nat, dot: nat, k: nat :: Passed(g, C, d, t, e, p, dot, k)
    ensures forall p: nat, dot: nat, k: nat :: Passed(g, C, d, t, e, p, dot, k) && (forall it :: it in C[t.0] ==> ValidItem(g, it)) ==>
              IncludesFrom(g, C, d, nullable, t, e)
  {
    hide Walk, Nullable;
    if IncludesFrom(g, C, d, nullable, t, e) {
      var it, k: nat :| it in C[t.0] && IncludesVia(g, d, nullable, t.0, it, k, e) && g.productions[it.num].name == t.1;
      NullableEnd(g, nullable, it.num, k + 1);
      assert Passed(g, C, d, t, e, it.num, it.dot, k);
    }
    forall p: nat, dot: nat, k: nat | Passed(g, C, d, t, e, p, dot, k) && (forall it :: it in C[t.0] ==> ValidItem(g, it))
      ensures IncludesFrom(g, C, d, nullable, t, e)
    {
      NullableEnd(g, nullable, p, k + 1);
      assert IncludesVia(g, d, nullable, t.0, Item(p, dot), k, e);
    }
  }

  lemma NullableEnd(g: Cfg, nullable: set<Symbol>, p: nat, i: nat)
    requires NullableExact(g, nullable) && p < |g.productions| && i <= |g.Rhs(p)|
    ensures NullableFrom(nullable, g.Rhs(p), i) <==> NullableSymbols(g, g.Rhs(p)[i..])
  {
    var rest := g.Rhs(p)[i..];
    if NullableSymbols(g, rest) {
      forall k | i <= k < |g.Rhs(p)| ensures g.Rhs(p)[k] in nullable {
        assert rest[k - i] == g.Rhs(p)[k];
      }
    }
  }

  lemma {:induction false} RequiredFollowsIn(g: Cfg, C: seq<seq<Item>>, K: seq<seq<Item>>, d: Delta, nullable: set<Symbol>,
                                             R: map<Trans, seq<Trans>>, dr: map<Trans, set<Symbol>>, rd: map<Trans, set<Symbol>>,
                                             inc: map<Trans, seq<Trans>>, e: Trans, z: Trans, n: nat, a: Symbol)
    requires g.WellFormed() && Collection(g, C, K, d) && NullableExact(g, nullable) && ReadSets(g, d, nullable, R, dr, rd)
    requires inc.Keys == rd.Keys && forall e, t :: e in inc ==> (t in inc[e] <==> t in inc && IncludesFrom(g, C, d, nullable, t, e))
    requires ReachesIn(inc, e, z, n) && z in rd && a in rd[z]
    ensures FollowsIn(g, C, d, e, a, n)
    decreases n
  {
    hide Collection, NullableExact, ReadSets, IncludesFrom, ReadsBehind, Passed;
    if n == 0 {
      ReadSpelledOut(g, C, K, d, nullable, R, dr, rd, e, a);
    } else {
      var t :| t in inc[e] && ReachesIn(inc, t, z, n - 1);
      RequiredFollowsIn(g, C, K, d, nullable, R, dr, rd, inc, t, z, n - 1, a);
      ReadKeys(g, d, nullable, R, dr, rd);
      assert IsTrans(g, d, t);
      IncludesSpelledOut(g, C, d, nullable, t, e);
      var p: nat, dot: nat, k: nat :| Passed(g, C, d, t, e, p, dot, k);
    }
  }

  lemma {:induction false} FollowsInRequired(g: Cfg, C: seq<seq<Item>>, K: seq<seq<Item>>, d: Delta, nullable: set<Symbol>,
                                             R: map<Trans, seq<Trans>>, dr: map<Trans, set<Symbol>>, rd: map<Trans, set<Symbol>>,
                                             inc: map<Trans, seq<Trans>>, e: Trans, n: nat, a: Symbol)
    requires g.WellFormed() && Collection(g, C, K, d) && NullableExact(g, nullable) && ReadSets(g, d, nullable, R, dr, rd)
    requires inc.Keys == rd.Keys && forall e, t :: e in inc ==> (t in inc[e] <==> t in inc && IncludesFrom(g, C, d, nullable, t, e))
    requires FollowsIn(g, C, d, e, a, n) && e in rd
    ensures Required(inc, rd, e, a)
    decreases n
  {
    hide Collection, NullableExact, ReadSets, IncludesFrom, ReadsBehind, Reaches, Required, Passed;
    if n == 0 {
      ReadSpelledOut(g, C, K, d, nullable, R, dr, rd, e, a);
      ReadRequired(inc, rd, e, a);
    } else {
      var t: Trans, p: nat, dot: nat, k: nat :| Passed(g, C, d, t, e, p, dot, k) && FollowsIn(g, C, d, t, a, n - 1);
      PassedIncluded(g, C, K, d, nullable, R, dr, rd, t, e, p, dot, k);
      FollowsInRequired(g, C, K, d, nullable, R, dr, rd, inc, t, n - 1, a);
      assert t in inc[e];
      RequiredBehind(inc, rd, e, t, a);
    }
  }

  lemma ReadRequired(inc: map<Trans, seq<Trans>>, rd: map<Trans, set<Symbol>>, e: Trans, a: Symbol)
    requires inc.Keys == rd.Keys && e in rd && a in rd[e]
    ensures Required(inc, rd, e, a)
  {
    hide Reaches;
    ReachesSelf(inc, e);
  }

  lemma RequiredBehind(inc: map<Trans, seq<Trans>>, rd: map<Trans, set<Symbol>>, e: Trans, t: Trans, a: Symbol)
    requires e in inc && t in inc && t in inc[e] && Required(inc, rd, t, a)
    ensures Required(inc, rd, e, a)
  {
    hide Reaches, Required;
    ReachesSelf(inc, t);
    ReachesStep(inc, e, t, t);
    RequiredStep(inc, rd, e, t, a);
  }

  lemma PassedIncluded(g: Cfg, C: seq<seq<Item>>, K: seq<seq<Item>>, d: Delta, nullable: set<Symbol>, R: map<Trans, seq<Trans>>,
                       dr: map<Trans, set<Symbol>>, rd: map<Trans, set<Symbol>>, t: Trans, e: Trans, p: nat, dot: nat, k: nat)
    requires g.WellFormed() && Collection(g, C, K, d) && NullableExact(g, nullable) && ReadSets(g, d, nullable, R, dr, rd)
    requires Passed(g, C, d, t, e, p, dot, k)
    ensures t in rd && IncludesFrom(g, C, d, nullable, t, e)
  {
    hide Collection, NullableExact, ReadSets, IncludesFrom, Walk;
    ReadKeys(g, d, nullable, R, dr, rd);
    forall it | it in C[t.0] ensures ValidItem(g, it) {
      StateItems(g, C, K, d, t.0, it);
    }
    IncludesSpelledOut(g, C, d, nullable, t, e);
  }

  ghost predicate FollowsSomehow(g: Cfg, C: seq<seq<Item>>, d: Delta, e: Trans, a: Symbol)
    requires g.WellFormed()
  {
    exists n: nat :: FollowsIn(g, C, d, e, a, n)
  }

  /** The lookaheads are made of follow sets that hold whatever is read behind a transition or passed on to
      it, and nothing else if no path of nullable symbols goes round in a circle. */
  ghost predicate LooksComputed(g: Cfg, C: seq<seq<Item>>, d: Delta, la: LookTable)
    requires g.WellFormed()
  {
    exists fs :: FollowsComputed(g, C, d, fs) && MadeOf(g, C, d, fs, la)
  }

  ghost predicate FollowsComputed(g: Cfg, C: seq<seq<Item>>, d: Delta, fs: map<Trans, set<Symbol>>)
    requires g.WellFormed()
  {
    && TransKeys(g, d, fs.Keys)
    && (forall e, a :: e in fs && FollowsSomehow(g, C, d, e, a) ==> a in fs[e])
    && (NoReadsCycle(g, d) ==> forall e, a :: e in fs && a in fs[e] ==> FollowsSomehow(g, C, d, e, a))
  }

  lemma FollowsAreComputed(g: Cfg, C: seq<seq<Item>>, K: seq<seq<Item>>, d: Delta, nullable: set<Symbol>, R: map<Trans, seq<Trans>>,
                           dr: map<Trans, set<Symbol>>, trans: seq<Trans>, readF: map<Trans, nat>, rd: map<Trans, set<Symbol>>,
                           inc: map<Trans, seq<Trans>>, fs: map<Trans, set<Symbol>>)
    requires g.WellFormed() && Collection(g, C, K, d) && NullableExact(g, nullable) && ReadSets(g, d, nullable, R, dr, rd)
    requires readF.Keys == rd.Keys && SharedWithin(R, readF) && FollowSets(g, C, d, nullable, inc, WithSharing(inc, readF, trans), rd, fs)
    ensures FollowsComputed(g, C, d, fs)
  {
    hide Collection, NullableExact, ReadSets, SharedWithin, WithSharing, NoReadsCycle, Required, IncludesFrom, FollowsIn, TransKeys, Unaliased;
    ReadKeys(g, d, nullable, R, dr, rd);
    forall e, a | e in fs && FollowsSomehow(g, C, d, e, a) ensures a in fs[e] {
      var n: nat :| FollowsIn(g, C, d, e, a, n);
      FollowsInRequired(g, C, K, d, nullable, R, dr, rd, inc, e, n, a);
    }
    if NoReadsCycle(g, d) {
      ReadsFacts(g, d, nullable, R, dr, rd);
      ReadsUnshared(g, d, nullable, R, readF);
      forall e, a | e in fs && a in fs[e] ensures FollowsSomehow(g, C, d, e, a) {
        UnsharedIsExact(inc, readF, trans, rd, e, a);
        var z, n := RequiredPath(inc, rd, e, a);
        RequiredFollowsIn(g, C, K, d, nullable, R, dr, rd, inc, e, z, n, a);
      }
    }
  }

  lemma LooksAreComputed(g: Cfg, C: seq<seq<Item>>, K: seq<seq<Item>>, d: Delta, nullable: set<Symbol>, R: map<Trans, seq<Trans>>,
                         dr: map<Trans, set<Symbol>>, trans: seq<Trans>, readF: map<Trans, nat>, rd: map<Trans, set<Symbol>>,
                         inc: map<Trans, seq<Trans>>, lookbacks: map<Trans, seq<(nat, Item)>>, F: map<Trans, nat>, lists: seq<seq<Symbol>>,
                         la: LookDict)
    requires g.WellFormed() && Collection(g, C, K, d) && NullableExact(g, nullable) && ReadSets(g, d, nullable, R, dr, rd)
    requires readF.Keys == rd.Keys && SharedWithin(R, readF) && forall e :: e in F ==> F[e] < |lists|
    requires FollowSets(g, C, d, nullable, inc, WithSharing(inc, readF, trans), rd, SetsOf(F, lists))
    requires LookdictFull(g, C, d, lookbacks) && lookbacks.Keys == F.Keys && Attached(lookbacks, F, lists, lookbacks.Keys, la)
    ensures LooksComputed(g, C, d, CompletedLooks(g, la))
  {
    hide *;
    FollowsAreComputed(g, C, K, d, nullable, R, dr, trans, readF, rd, inc, SetsOf(F, lists));
    LooksMadeOf(g, C, K, d, lookbacks, F, lists, la);
    ComputedFrom(g, C, d, SetsOf(F, lists), CompletedLooks(g, la));
  }

  lemma ComputedFrom(g: Cfg, C: seq<seq<Item>>, d: Delta, fs: map<Trans, set<Symbol>>, la: LookTable)
    requires g.WellFormed() && FollowsComputed(g, C, d, fs) && MadeOf(g, C, d, fs, la)
    ensures LooksComputed(g, C, d, la)
  {
  }

  // ----- Exactness -----

  /** The production was begun in state `q`, and `a` is read behind the transition over its name, or behind
      one from which items lead to it. */
  ghost predicate FollowedFrom(g: Cfg, C: seq<seq<Item>>, d: Delta, q: nat, p: nat, j: nat, a: Symbol)
    requires g.WellFormed()
  {
    BegunAt(g, C, d, q, p, j) && FollowsSomehow(g, C, d, (q, g.productions[p].name), a)
  }

  /** The computed lookaheads of a completed item, exactly, if no path of nullable symbols goes round in a
      circle. */
  lemma LooksSpelledOut(g: Cfg, C: seq<seq<Item>>, K: seq<seq<Item>>, d: Delta, la: LookTable, j: nat, p: nat, a: Symbol)
    requires g.WellFormed() && Collection(g, C, K, d) && LooksComputed(g, C, d, la) && NoReadsCycle(g, d)
    requires 1 <= p < |g.productions| && (j, p) in la
    ensures a in la[(j, p)] <==> exists q: nat :: FollowedFrom(g, C, d, q, p, j, a)
  {
    hide Collection, NoReadsCycle, FollowsSomehow, BegunAt;
    var fs :| FollowsComputed(g, C, d, fs) && MadeOf(g, C, d, fs, la);
    if a in la[(j, p)] {
      var q: nat :| Contributes(g, C, d, fs, q, p, j, a);
      assert FollowedFrom(g, C, d, q, p, j, a);
    }
    if q: nat :| FollowedFrom(g, C, d, q, p, j, a) {
      FollowedTrans(g, C, d, (q, g.productions[p].name), a);
      assert Contributes(g, C, d, fs, q, p, j, a);
    }
  }

  lemma FollowedTrans(g: Cfg, C: seq<seq<Item>>, d: Delta, e: Trans, a: Symbol)
    requires g.WellFormed() && FollowsSomehow(g, C, d, e, a)
    ensures e in d
  {
    hide Walk, NullableSymbols, PassesOver;
    var n: nat :| FollowsIn(g, C, d, e, a, n);
  }

  /** The LALR(1) lookaheads: what comes next in a right sentential form in which the production is applied
      behind a prefix that leads to the state. */
  ghost predicate LalrLook(g: Cfg, d: Delta, j: nat, p: nat, a: Symbol)
    requires g.WellFormed() && p < |g.productions|
  {
    exists alpha, z :: LalrForm(g, d, j, p, a, alpha, z)
  }

  ghost predicate LalrForm(g: Cfg, d: Delta, j: nat, p: nat, a: Symbol, alpha: seq<Symbol>, z: seq<Symbol>)
    requires g.WellFormed() && p < |g.productions|
  {
    && RightmostDerives(g, [g.Start()], alpha + [g.productions[p].name] + z) && Terminals(g, z)
    && Walk(d, 0, alpha + g.Rhs(p)) == Some(j) && a == if z == [] then End else z[0]
  }

  /** The computed lookaheads are exactly the LALR(1) lookaheads, if no path of nullable symbols goes round in
      a circle, moved items pass nothing on that others do not, and the production does not start with ".". */
  lemma LalrLooksExact(g: Cfg, C: seq<seq<Item>>, K: seq<seq<Item>>, d: Delta, fol: FollowMap, la: LookTable, j: nat, p: nat, a: Symbol)
    requires g.WellFormed() && Collection(g, C, K, d) && AllProductive(g) && Adequate(g, C, d, fol, la) && LooksComputed(g, C, d, la)
    requires NoReadsCycle(g, d) && MovedImplied(g, C, d)
    requires 1 <= p < |g.productions| && (j, p) in la && (g.Rhs(p) != [] ==> g.Rhs(p)[0] != Sym("."))
    ensures a in la[(j, p)] <==> LalrLook(g, d, j, p, a)
  {
    hide Collection, AllProductive, Adequate, NoReadsCycle, MovedImplied, RightmostDerives, Walk, FollowsSomehow, BegunAt, Followed;
    if a in la[(j, p)] {
      var fs :| FollowsComputed(g, C, d, fs) && MadeOf(g, C, d, fs, la);
      var q: nat :| Contributes(g, C, d, fs, q, p, j, a);
      LookIsLalr(g, C, K, d, q, p, j, a);
    }
    if alpha, z :| LalrForm(g, d, j, p, a, alpha, z) {
      FormCovered(g, C, K, d, fol, la, j, p, a, alpha, z);
    }
  }

  lemma FormCovered(g: Cfg, C: seq<seq<Item>>, K: seq<seq<Item>>, d: Delta, fol: FollowMap, la: LookTable, j: nat, p: nat, a: Symbol,
                    alpha: seq<Symbol>, z: seq<Symbol>)
    requires g.WellFormed() && Collection(g, C, K, d) && Adequate(g, C, d, fol, la)
    requires 1 <= p < |g.productions| && LalrForm(g, d, j, p, a, alpha, z)
    ensures (j, p) in la && a in la[(j, p)]
  {
    hide Collection, Adequate, RightmostDerives, Walk;
    LookaheadCoverage(g, C, K, d, fol, la, alpha, p, z);
  }

  lemma LookIsLalr(g: Cfg, C: seq<seq<Item>>, K: seq<seq<Item>>, d: Delta, q: nat, p: nat, j: nat, a: Symbol)
    requires g.WellFormed() && Collection(g, C, K, d) && AllProductive(g) && MovedImplied(g, C, d)
    requires 1 <= p < |g.productions| && (g.Rhs(p) != [] ==> g.Rhs(p)[0] != Sym("."))
    requires BegunAt(g, C, d, q, p, j) && FollowsSomehow(g, C, d, (q, g.productions[p].name), a)
    ensures LalrLook(g, d, j, p, a)
  {
    hide Collection, AllProductive, MovedImplied, RightmostDerives, Walk, FollowsIn;
    BegunPlainly(g, C, d, q, p, j);
    var e := (q, g.productions[p].name);
    var n: nat :| FollowsIn(g, C, d, e, a, n);
    FollowsIsFollowed(g, C, K, d, e, a, n);
    var gamma, z :| FollowedBy(g, d, e, a, gamma, z);
    WalkAppend(d, 0, gamma, g.Rhs(p));
    assert LalrForm(g, d, j, p, a, gamma, z);
  }
}
