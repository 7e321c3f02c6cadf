/** What FIRST, FOLLOW and nullability mean for derivations, and why a table of sets that is sound
    and closed under the productions is exactly right. */
module GrammarFacts {
  import opened Grammars
  import opened Lists

  /** The keys and values of the FIRST and FOLLOW dictionaries. */
  type SetTable = map<Symbol, seq<Symbol>>

  // ----- The meaning of FIRST -----

  ghost predicate Nullable(g: Cfg, alpha: seq<Symbol>) {
    Derives(g, alpha, [])
  }

  /** `alpha` derives a sentential form that starts with `a`. */
  ghost predicate CanStart(g: Cfg, alpha: seq<Symbol>, a: Symbol) {
    exists rest :: Derives(g, alpha, [a] + rest)
  }

  /** What it means for `f` to be listed in FIRST of `alpha`. */
  ghost predicate FirstFact(g: Cfg, alpha: seq<Symbol>, f: Symbol) {
    if f == Empty then Nullable(g, alpha) else f in g.terminals + {End} && CanStart(g, alpha, f)
  }

  ghost predicate FirstKeys(g: Cfg, F: SetTable) {
    && F.Keys == g.terminals + g.nonterminals + {End}
    && forall t :: t in g.terminals + {End} ==> F[t] == [t]
  }

  ghost predicate FirstSound(g: Cfg, F: SetTable) {
    FirstKeys(g, F) && forall x, f :: x in F && f in F[x] ==> FirstFact(g, [x], f)
  }

  lemma FirstSoundKeys(g: Cfg, F: SetTable)
    requires FirstSound(g, F)
    ensures FirstKeys(g, F)
  {
  }

  /** FIRST of a sequence, read off a table: the value of `_first(beta)` as a set. */
  function FirstSet(F: SetTable, beta: seq<Symbol>): set<Symbol>
    requires forall x :: x in beta ==> x in F
  {
    if beta == [] then {Empty}
    else if Empty in F[beta[0]] then Elems(F[beta[0]]) - {Empty} + FirstSet(F, beta[1..])
    else Elems(F[beta[0]])
  }

  /** Production `p` has nothing more to add. */
  ghost predicate FirstClosedAt(g: Cfg, F: SetTable, p: nat) {
    && 1 <= p < |g.productions| && g.productions[p].name in F
    && (forall x :: x in g.Rhs(p) ==> x in F)
    && FirstSet(F, g.Rhs(p)) <= Elems(F[g.productions[p].name])
  }

  ghost predicate FirstClosed(g: Cfg, F: SetTable) {
    forall p {:trigger FirstClosedAt(g, F, p)} :: 1 <= p < |g.productions| ==> FirstClosedAt(g, F, p)
  }

  /** The table lists exactly the terminals that a symbol can start with, and `<empty>` exactly when
      the symbol derives the empty string. */
  ghost predicate FirstExact(g: Cfg, F: SetTable) {
    && FirstKeys(g, F)
    && forall x, f :: x in F ==> (f in F[x] <==> FirstFact(g, [x], f))
  }

  lemma FirstFactJoin(g: Cfg, x: Symbol, rest: seq<Symbol>, f: Symbol)
    requires (FirstFact(g, [x], f) && f != Empty) || (Nullable(g, [x]) && FirstFact(g, rest, f))
    ensures FirstFact(g, [x] + rest, f)
  {
    if FirstFact(g, [x], f) && f != Empty {
      var r :| Derives(g, [x], [f] + r);
      DerivesSelf(g, rest);
      DerivesJoin(g, [x], [f] + r, rest, rest);
      assert [f] + r + rest == [f] + (r + rest);
    } else if f == Empty {
      DerivesJoin(g, [x], [], rest, []);
      var none: seq<Symbol> := [];
      assert none + none == none;
    } else {
      var r :| Derives(g, rest, [f] + r);
      DerivesJoin(g, [x], [], rest, [f] + r);
      assert [] + ([f] + r) == [f] + r;
    }
  }

  lemma {:induction false} FirstSetSound(g: Cfg, F: SetTable, beta: seq<Symbol>, f: Symbol)
    requires FirstSound(g, F)
    requires forall x :: x in beta ==> x in F
    requires f in FirstSet(F, beta)
    ensures FirstFact(g, beta, f)
  {
    if beta == [] {
      DerivesSelf(g, beta);
    } else {
      var x, rest := beta[0], beta[1..];
      assert beta == [x] + rest;
      if f in F[x] && (f != Empty || Empty !in F[x]) {
        assert FirstFact(g, [x], f);
        FirstFactJoin(g, x, rest, f);
      } else {
        assert FirstFact(g, [x], Empty);
        FirstSetSound(g, F, rest, f);
        FirstFactJoin(g, x, rest, f);
      }
    }
  }

  lemma FirstFactProduction(g: Cfg, p: nat, f: Symbol)
    requires p < |g.productions| && FirstFact(g, g.Rhs(p), f)
    ensures FirstFact(g, [g.productions[p].name], f)
  {
    DerivesProduction(g, p);
    if f == Empty {
      DerivesTrans(g, [g.productions[p].name], g.Rhs(p), []);
    } else {
      var r :| Derives(g, g.Rhs(p), [f] + r);
      DerivesTrans(g, [g.productions[p].name], g.Rhs(p), [f] + r);
    }
  }

  /** `<empty>` for an empty yield, otherwise the first symbol if it is a terminal or `$end`. */
  ghost predicate Covers(g: Cfg, fs: set<Symbol>, w: seq<Symbol>) {
    && (w == [] ==> Empty in fs)
    && (w != [] && w[0] in g.terminals + {End} ==> w[0] in fs)
  }

  lemma {:induction false} FirstCoversTree(g: Cfg, F: SetTable, t: Tree)
    requires g.WellFormed() && FirstKeys(g, F) && FirstClosed(g, F)
    requires ValidTree(g, t) && Root(g, t) in F
    ensures Covers(g, Elems(F[Root(g, t)]), Yield(t))
    decreases t, 1
  {
    match t
    case Leaf(_) =>
    case Node(p, kids) =>
      assert FirstClosedAt(g, F, p);
      FirstCoversForest(g, F, g.Rhs(p), kids);
  }

  lemma {:induction false} FirstCoversForest(g: Cfg, F: SetTable, beta: seq<Symbol>, ts: seq<Tree>)
    requires g.WellFormed() && FirstKeys(g, F) && FirstClosed(g, F)
    requires Forest(g, beta, ts) && forall x :: x in beta ==> x in F
    ensures Covers(g, FirstSet(F, beta), Yields(ts))
    decreases ts, 0
  {
    if ts != [] {
      assert Roots(g, ts)[0] == Root(g, ts[0]);
      FirstCoversTree(g, F, ts[0]);
      ForestSlice(g, beta, ts, 1, |beta|);
      assert beta[1..|beta|] == beta[1..] && ts[1..|beta|] == ts[1..];
      FirstCoversForest(g, F, beta[1..], ts[1..]);
    }
  }

  lemma FirstSetCovers(g: Cfg, F: SetTable, beta: seq<Symbol>, f: Symbol)
    requires g.WellFormed() && FirstKeys(g, F) && FirstClosed(g, F)
    requires forall x :: x in beta ==> x in F
    requires FirstFact(g, beta, f)
    ensures f in FirstSet(F, beta)
  {
    if f == Empty {
      DerivesIffForest(g, beta, []);
      var ts :| Forest(g, beta, ts) && Yields(ts) == [];
      FirstCoversForest(g, F, beta, ts);
    } else {
      var r :| Derives(g, beta, [f] + r);
      DerivesIffForest(g, beta, [f] + r);
      var ts :| Forest(g, beta, ts) && Yields(ts) == [f] + r;
      FirstCoversForest(g, F, beta, ts);
    }
  }

  /** A sound table that no production can extend is exact, on symbols and on sequences. */
  lemma FirstIsExact(g: Cfg, F: SetTable)
    requires g.WellFormed() && FirstSound(g, F) && FirstClosed(g, F)
    ensures FirstExact(g, F)
    ensures forall beta, f :: (forall x :: x in beta ==> x in F) ==> (f in FirstSet(F, beta) <==> FirstFact(g, beta, f))
  {
    forall beta, f | forall x :: x in beta ==> x in F
      ensures f in FirstSet(F, beta) <==> FirstFact(g, beta, f)
    {
      if f in FirstSet(F, beta) {
        FirstSetSound(g, F, beta, f);
      }
      if FirstFact(g, beta, f) {
        FirstSetCovers(g, F, beta, f);
      }
    }
    forall x, f | x in F && FirstFact(g, [x], f) ensures f in F[x] {
      FirstSetCovers(g, F, [x], f);
      assert [x][1..] == [];
    }
  }

  // ----- The meaning of FOLLOW -----

  /** `a` can stand right after `b` in a sentential form of some nonterminal or, for `$end`, `b` can
      end a sentential form of the start symbol. */
  ghost predicate FollowFact(g: Cfg, start: Symbol, b: Symbol, a: Symbol) {
    if a == End then exists u :: Derives(g, [start], u + [b])
    else a in g.terminals && exists n, u, v :: n in g.nonterminals && Derives(g, [n], u + [b, a] + v)
  }

  ghost predicate FollowSound(g: Cfg, start: Symbol, T: SetTable) {
    && T.Keys == g.nonterminals
    && (forall b, a :: b in T && a in T[b] ==> FollowFact(g, start, b, a))
    && (forall b :: b in T ==> NoDuplicates(T[b]))
  }

  /** The occurrence at index `i` of production `p` has nothing more to add. */
  ghost predicate FollowClosedAt(g: Cfg, F: SetTable, T: SetTable, p: nat, i: nat)
    requires FirstKeys(g, F) && g.WellFormed() && T.Keys == g.nonterminals
  {
    && 1 <= p < |g.productions| && i < |g.Rhs(p)|
    && (g.Rhs(p)[i] in g.nonterminals ==>
          var firsts := FirstSet(F, g.Rhs(p)[i + 1..]);
          && firsts - {Empty} <= Elems(T[g.Rhs(p)[i]])
          && (Empty in firsts ==> Elems(T[g.productions[p].name]) <= Elems(T[g.Rhs(p)[i]])))
  }

  ghost predicate FollowClosed(g: Cfg, start: Symbol, F: SetTable, T: SetTable)
    requires FirstKeys(g, F) && g.WellFormed()
  {
    && T.Keys == g.nonterminals && start in g.nonterminals && End in T[start]
    && forall p, i {:trigger FollowClosedAt(g, F, T, p, i)} ::
         1 <= p < |g.productions| && 0 <= i < |g.Rhs(p)| ==> FollowClosedAt(g, F, T, p, i)
  }

  ghost predicate FollowExact(g: Cfg, start: Symbol, T: SetTable) {
    && T.Keys == g.nonterminals
    && forall b, a :: b in T ==> (a in T[b] <==> FollowFact(g, start, b, a))
  }

  /** Split a production around one occurrence and rewrite what comes after it. */
  lemma DerivesAround(g: Cfg, p: nat, i: nat, w: seq<Symbol>)
    requires p < |g.productions| && i < |g.Rhs(p)| && Derives(g, g.Rhs(p)[i + 1..], w)
    ensures Derives(g, [g.productions[p].name], g.Rhs(p)[..i + 1] + w)
  {
    var rhs := g.Rhs(p);
    DerivesProduction(g, p);
    DerivesSelf(g, rhs[..i + 1]);
    DerivesJoin(g, rhs[..i + 1], rhs[..i + 1], rhs[i + 1..], w);
    assert rhs[..i + 1] + rhs[i + 1..] == rhs;
    DerivesTrans(g, [g.productions[p].name], rhs, rhs[..i + 1] + w);
  }

  lemma FollowFromFirst(g: Cfg, start: Symbol, p: nat, i: nat, a: Symbol)
    requires g.WellFormed() && 1 <= p < |g.productions| && i < |g.Rhs(p)|
    requires a != Empty && a != End && FirstFact(g, g.Rhs(p)[i + 1..], a)
    ensures FollowFact(g, start, g.Rhs(p)[i], a)
  {
    hide Derives, FollowFact;
    var r :| Derives(g, g.Rhs(p)[i + 1..], [a] + r);
    DerivesAround(g, p, i, [a] + r);
    BesideNext(g.Rhs(p), i, a, r);
    FollowFactFrom(g, start, g.productions[p].name, g.Rhs(p)[..i], g.Rhs(p)[i], a, r);
  }

  lemma BesideNext(s: seq<Symbol>, i: nat, a: Symbol, r: seq<Symbol>)
    requires i < |s|
    ensures s[..i + 1] + ([a] + r) == s[..i] + [s[i], a] + r
  {
  }

  lemma FollowFactFrom(g: Cfg, start: Symbol, n: Symbol, u: seq<Symbol>, b: Symbol, a: Symbol, v: seq<Symbol>)
    requires n in g.nonterminals && a in g.terminals && a != End && Derives(g, [n], u + [b, a] + v)
    ensures FollowFact(g, start, b, a)
  {
  }

  lemma FollowFromFollow(g: Cfg, start: Symbol, p: nat, i: nat, a: Symbol)
    requires 1 <= p < |g.productions| && i < |g.Rhs(p)|
    requires Nullable(g, g.Rhs(p)[i + 1..]) && FollowFact(g, start, g.productions[p].name, a)
    ensures FollowFact(g, start, g.Rhs(p)[i], a)
  {
    hide Derives;
    var n, b, w := g.productions[p].name, g.Rhs(p)[i], g.Rhs(p)[..i];
    DerivesAround(g, p, i, []);
    assert g.Rhs(p)[..i + 1] + [] == w + [b];
    if a == End {
      var u :| Derives(g, [start], u + [n]);
      PutLast(g, [start], u, n, w, b);
    } else {
      var m, u, v :| m in g.nonterminals && Derives(g, [m], u + [n, a] + v);
      PutBefore(g, [m], u, n, w, b, a, v);
      FollowFactFrom(g, start, m, u + w, b, a, v);
    }
  }

  lemma PutLast(g: Cfg, s: seq<Symbol>, u: seq<Symbol>, n: Symbol, w: seq<Symbol>, b: Symbol)
    requires Derives(g, s, u + [n]) && Derives(g, [n], w + [b])
    ensures Derives(g, s, (u + w) + [b])
  {
    hide Derives;
    DerivesContext(g, u, [n], w + [b], []);
    assert u + [n] + [] == u + [n];
    assert u + (w + [b]) + [] == (u + w) + [b];
    DerivesTrans(g, s, u + [n], (u + w) + [b]);
  }

  lemma PutBefore(g: Cfg, s: seq<Symbol>, u: seq<Symbol>, n: Symbol, w: seq<Symbol>, b: Symbol, a: Symbol, v: seq<Symbol>)
    requires Derives(g, s, u + [n, a] + v) && Derives(g, [n], w + [b])
    ensures Derives(g, s, (u + w) + [b, a] + v)
  {
    hide Derives;
    DerivesContext(g, u, [n], w + [b], [a] + v);
    assert u + [n] + ([a] + v) == u + [n, a] + v;
    assert u + (w + [b]) + ([a] + v) == (u + w) + [b, a] + v;
    DerivesTrans(g, s, u + [n, a] + v, (u + w) + [b, a] + v);
  }

  /** The tree of a forest whose yield contains position `k`. */
  lemma {:induction false} Locate(ts: seq<Tree>, k: nat) returns (i: nat)
    requires k < |Yields(ts)|
    ensures i < |ts| && |Yields(ts[..i])| <= k < |Yields(ts[..i])| + |Yield(ts[i])|
    ensures Yields(ts) == Yields(ts[..i]) + Yield(ts[i]) + Yields(ts[i + 1..])
  {
    if k < |Yield(ts[0])| {
      i := 0;
    } else {
      var j := Locate(ts[1..], k - |Yield(ts[0])|);
      i := j + 1;
      LocateLater(ts, j);
    }
  }

  lemma LocateLater(ts: seq<Tree>, j: nat)
    requires ts != [] && j < |ts[1..]|
    ensures Yields(ts[..j + 1]) == Yield(ts[0]) + Yields(ts[1..][..j]) && ts[j + 1] == ts[1..][j] && ts[j + 2..] == ts[1..][j + 1..]
  {
    assert ts[..j + 1] == [ts[0]] + ts[1..][..j];
    YieldsConcat([ts[0]], ts[1..][..j]);
    YieldsOne(ts[0]);
  }

  lemma ForestSuffix(g: Cfg, beta: seq<Symbol>, ts: seq<Tree>, i: nat)
    requires Forest(g, beta, ts) && i < |ts|
    ensures |ts| == |beta| && Forest(g, beta[i + 1..], ts[i + 1..]) && Root(g, ts[i]) == beta[i] && ValidTree(g, ts[i])
  {
    assert |Roots(g, ts)| == |ts|;
    assert Roots(g, ts)[i] == Root(g, ts[i]);
    ForestSlice(g, beta, ts, i + 1, |beta|);
    assert beta[i + 1..|beta|] == beta[i + 1..] && ts[i + 1..|beta|] == ts[i + 1..];
  }

  ghost predicate SetsClosed(g: Cfg, start: Symbol, F: SetTable, T: SetTable) {
    g.WellFormed() && FirstKeys(g, F) && FirstClosed(g, F) && FollowClosed(g, start, F, T)
  }

  /** A nonterminal that ends the yield of a tree can be followed by whatever follows the root. */
  lemma {:induction false} FollowOfLast(g: Cfg, start: Symbol, F: SetTable, T: SetTable, t: Tree)
    requires SetsClosed(g, start, F, T) && ValidTree(g, t) && Root(g, t) in g.nonterminals
    requires Yield(t) != [] && Yield(t)[|Yield(t)| - 1] in g.nonterminals
    ensures Elems(T[Root(g, t)]) <= Elems(T[Yield(t)[|Yield(t)| - 1]])
    decreases t
  {
    hide FollowClosed, FirstClosed, FirstKeys;
    match t
    case Leaf(_) =>
    case Node(p, kids) =>
      var i := LastKid(kids);
      ForestSuffix(g, g.Rhs(p), kids, i);
      RootKind(g, kids[i]);
      SuffixSymbols(g, p, i);
      FollowPastNothing(g, start, F, T, p, kids, i);
      FollowOfLast(g, start, F, T, kids[i]);
  }

  /** The tree that the last symbol of the yield comes from. */
  lemma LastKid(kids: seq<Tree>) returns (i: nat)
    requires Yields(kids) != []
    ensures i < |kids| && Yields(kids[i + 1..]) == [] && Yield(kids[i]) != []
    ensures Yields(kids)[|Yields(kids)| - 1] == Yield(kids[i])[|Yield(kids[i])| - 1]
  {
    i := Locate(kids, |Yields(kids)| - 1);
  }

  lemma FollowPastNothing(g: Cfg, start: Symbol, F: SetTable, T: SetTable, p: nat, kids: seq<Tree>, i: nat)
    requires SetsClosed(g, start, F, T) && 1 <= p < |g.productions| && i < |kids| && |kids| == |g.Rhs(p)|
    requires Forest(g, g.Rhs(p)[i + 1..], kids[i + 1..]) && Yields(kids[i + 1..]) == [] && g.Rhs(p)[i] in g.nonterminals
    ensures Elems(T[g.productions[p].name]) <= Elems(T[g.Rhs(p)[i]])
  {
    SuffixSymbols(g, p, i);
    assert FollowClosedAt(g, F, T, p, i);
    FirstCoversForest(g, F, g.Rhs(p)[i + 1..], kids[i + 1..]);
  }

  lemma SuffixSymbols(g: Cfg, p: nat, i: nat)
    requires g.WellFormed() && p < |g.productions| && i < |g.Rhs(p)|
    ensures forall x :: x in g.Rhs(p)[i + 1..] ==> x in g.terminals + g.nonterminals
    ensures g.Rhs(p)[i] in g.terminals + g.nonterminals
  {
  }

  /** A tree whose root is a terminal is a leaf. */
  lemma RootKind(g: Cfg, t: Tree)
    requires g.WellFormed() && ValidTree(g, t)
    ensures Root(g, t) in g.terminals + {End} ==> t == Leaf(Root(g, t))
  {
  }

  /** The terminal at the start of what follows child `i` is in FOLLOW of a nonterminal ending child `i`. */
  lemma FollowAcross(g: Cfg, start: Symbol, F: SetTable, T: SetTable, p: nat, kids: seq<Tree>, i: nat)
    requires SetsClosed(g, start, F, T) && 1 <= p < |g.productions| && Forest(g, g.Rhs(p), kids) && i < |kids|
    requires var mine, after := Yield(kids[i]), Yields(kids[i + 1..]);
      mine != [] && after != [] && mine[|mine| - 1] in g.nonterminals && after[0] in g.terminals
    ensures Yields(kids[i + 1..])[0] in T[Yield(kids[i])[|Yield(kids[i])| - 1]]
  {
    hide FollowClosedAt, FirstClosed, FirstKeys, Yields, ValidTree;
    ForestSuffix(g, g.Rhs(p), kids, i);
    SuffixSymbols(g, p, i);
    RootKind(g, kids[i]);
    FollowOfLast(g, start, F, T, kids[i]);
    FollowOfRest(g, start, F, T, p, kids, i);
    assert Yields(kids[i + 1..])[0] in Elems(T[g.Rhs(p)[i]]);
  }

  lemma FollowOfRest(g: Cfg, start: Symbol, F: SetTable, T: SetTable, p: nat, kids: seq<Tree>, i: nat)
    requires SetsClosed(g, start, F, T) && 1 <= p < |g.productions| && i < |kids| && |kids| == |g.Rhs(p)|
    requires Forest(g, g.Rhs(p)[i + 1..], kids[i + 1..]) && g.Rhs(p)[i] in g.nonterminals
    requires Yields(kids[i + 1..]) != [] && Yields(kids[i + 1..])[0] in g.terminals
    ensures Yields(kids[i + 1..])[0] in Elems(T[g.Rhs(p)[i]])
  {
    hide Yields, ValidTree, FirstClosed;
    SuffixSymbols(g, p, i);
    assert FollowClosedAt(g, F, T, p, i);
    FirstCoversForest(g, F, g.Rhs(p)[i + 1..], kids[i + 1..]);
  }

  /** Adjacent symbols of a yield: the terminal is in FOLLOW of the nonterminal before it. */
  lemma {:induction false} FollowOfNeighbour(g: Cfg, start: Symbol, F: SetTable, T: SetTable, t: Tree, k: nat)
    requires SetsClosed(g, start, F, T) && ValidTree(g, t) && Root(g, t) in g.nonterminals
    requires k + 1 < |Yield(t)| && Yield(t)[k] in g.nonterminals && Yield(t)[k + 1] in g.terminals
    ensures Yield(t)[k + 1] in T[Yield(t)[k]]
    decreases t
  {
    hide FollowClosed, FirstClosed;
    var p, kids := t.prod, t.kids;
    var w := Yields(kids);
    var i := Locate(kids, k);
    var before, mine, after := Yields(kids[..i]), Yield(kids[i]), Yields(kids[i + 1..]);
    ForestSuffix(g, g.Rhs(p), kids, i);
    SuffixSymbols(g, p, i);
    RootKind(g, kids[i]);
    assert w[k] == mine[k - |before|];
    if k + 1 < |before| + |mine| {
      assert w[k + 1] == mine[k + 1 - |before|];
      FollowOfNeighbour(g, start, F, T, kids[i], k - |before|);
    } else {
      assert w[k + 1] == after[0];
      FollowAcross(g, start, F, T, p, kids, i);
    }
  }

  lemma FollowCovers(g: Cfg, start: Symbol, F: SetTable, T: SetTable, b: Symbol, a: Symbol)
    requires SetsClosed(g, start, F, T) && b in g.nonterminals && FollowFact(g, start, b, a)
    ensures a in T[b]
  {
    hide ValidTree, Derives, FollowClosedAt, FirstClosed, FirstKeys;
    if a == End {
      var u :| Derives(g, [start], u + [b]);
      var t := TreeOf(g, start, u + [b]);
      FollowOfLast(g, start, F, T, t);
      assert End in Elems(T[start]);
    } else {
      var n, u, v :| n in g.nonterminals && Derives(g, [n], u + [b, a] + v);
      var t := TreeOf(g, n, u + [b, a] + v);
      assert Yield(t)[|u|] == b && Yield(t)[|u| + 1] == a;
      FollowOfNeighbour(g, start, F, T, t, |u|);
    }
  }

  lemma TreeOf(g: Cfg, n: Symbol, w: seq<Symbol>) returns (t: Tree)
    requires Derives(g, [n], w)
    ensures ValidTree(g, t) && Root(g, t) == n && Yield(t) == w
  {
    DerivesIffForest(g, [n], w);
    var ts :| Forest(g, [n], ts) && Yields(ts) == w;
    assert |Roots(g, ts)| == 1 && Roots(g, ts)[0] == Root(g, ts[0]);
    assert ts == [ts[0]];
    YieldsOne(ts[0]);
    t := ts[0];
  }

  /** A sound and closed FOLLOW table is exact. */
  lemma FollowIsExact(g: Cfg, start: Symbol, F: SetTable, T: SetTable)
    requires SetsClosed(g, start, F, T) && FollowSound(g, start, T)
    ensures FollowExact(g, start, T)
  {
    forall b, a | b in T && FollowFact(g, start, b, a) ensures a in T[b] {
      FollowCovers(g, start, F, T, b, a);
    }
  }

  /** The computed table is the least one that solves the FOLLOW equations. */
  lemma FollowIsLeast(g: Cfg, start: Symbol, F: SetTable, T: SetTable, T': SetTable)
    requires FollowSound(g, start, T) && SetsClosed(g, start, F, T')
    ensures forall b :: b in T ==> b in T' && Elems(T[b]) <= Elems(T'[b])
  {
    forall b, a | b in T && a in T[b] ensures b in T' && a in T'[b] {
      FollowCovers(g, start, F, T', b, a);
    }
  }

  /** `x` occurs in some sentential form of `s`. */
  ghost predicate ReachableFrom(g: Cfg, s: Symbol, x: Symbol) {
    exists u, v :: Derives(g, [s], u + [x] + v)
  }

  /** When every nonterminal is reachable from the start symbol that was used, FOLLOW is about the
      sentential forms of that symbol alone, with `$end` written after them. */
  lemma FollowFromStart(g: Cfg, start: Symbol, T: SetTable, b: Symbol, a: Symbol)
    requires g.WellFormed() && FollowExact(g, start, T) && b in g.nonterminals && start in g.nonterminals
    requires forall n :: n in g.nonterminals ==> ReachableFrom(g, start, n)
    requires a in g.terminals + {End}
    ensures a in T[b] <==> exists w, u, v :: Derives(g, [start], w) && w + [End] == u + [b, a] + v
  {
    if a in T[b] {
      FormFromFollow(g, start, b, a);
    }
    if w, u, v :| Derives(g, [start], w) && w + [End] == u + [b, a] + v {
      FollowFromForm(g, start, w, u, b, a, v);
    }
  }

  lemma FormFromFollow(g: Cfg, start: Symbol, b: Symbol, a: Symbol)
    requires FollowFact(g, start, b, a)
    requires forall n :: n in g.nonterminals ==> ReachableFrom(g, start, n)
    ensures exists w, u, v :: Derives(g, [start], w) && w + [End] == u + [b, a] + v
  {
    hide Derives;
    if a == End {
      var u :| Derives(g, [start], u + [b]);
      assert u + [b] + [End] == u + [b, a] + [];
    } else {
      var n, u, v :| n in g.nonterminals && Derives(g, [n], u + [b, a] + v);
      assert ReachableFrom(g, start, n);
      var x, y :| Derives(g, [start], x + [n] + y);
      DerivesContext(g, x, [n], u + [b, a] + v, y);
      DerivesTrans(g, [start], x + [n] + y, x + (u + [b, a] + v) + y);
      Regroup(x, u, [b, a], v, y);
      FormAround(g, start, b, a, x + u, v + y);
    }
  }

  lemma FormAround(g: Cfg, start: Symbol, b: Symbol, a: Symbol, u: seq<Symbol>, v: seq<Symbol>)
    requires Derives(g, [start], u + [b, a] + v)
    ensures exists w, u, v :: Derives(g, [start], w) && w + [End] == u + [b, a] + v
  {
    hide Derives;
    assert u + [b, a] + v + [End] == u + [b, a] + (v + [End]);
  }

  lemma FollowFromForm(g: Cfg, start: Symbol, w: seq<Symbol>, u: seq<Symbol>, b: Symbol, a: Symbol, v: seq<Symbol>)
    requires g.WellFormed() && start in g.nonterminals && b in g.nonterminals && a in g.terminals + {End}
    requires Derives(g, [start], w) && w + [End] == u + [b, a] + v
    ensures FollowFact(g, start, b, a)
  {
    var all := w + [End];
    assert |all| == |u| + 2 + |v|;
    if v == [] {
      assert all[|all| - 1] == a;
      assert w == all[..|all| - 1] == u + [b];
    } else {
      assert w == all[..|all| - 1] == u + [b, a] + v[..|v| - 1];
      FormSymbols(g, [start], w, |u| + 1);
    }
  }

  /** Only grammar symbols occur in a form derived from grammar symbols: not `$end`, for one. */
  lemma FormSymbols(g: Cfg, beta: seq<Symbol>, w: seq<Symbol>, k: nat)
    requires g.WellFormed() && forall x :: x in beta ==> x in g.terminals + g.nonterminals
    requires Derives(g, beta, w) && k < |w|
    ensures w[k] in g.terminals + g.nonterminals
  {
    hide Derives, ValidTree, Yields;
    DerivesIffForest(g, beta, w);
    var ts :| Forest(g, beta, ts) && Yields(ts) == w;
    var i := Locate(ts, k);
    ForestSuffix(g, beta, ts, i);
    YieldSymbols(g, ts[i], k - |Yields(ts[..i])|);
  }

  lemma {:induction false} YieldSymbols(g: Cfg, t: Tree, k: nat)
    requires g.WellFormed() && ValidTree(g, t) && Root(g, t) in g.terminals + g.nonterminals && k < |Yield(t)|
    ensures Yield(t)[k] in g.terminals + g.nonterminals
    decreases t
  {
    match t
    case Leaf(_) =>
    case Node(p, kids) =>
      var i := Locate(kids, k);
      ForestSuffix(g, g.Rhs(p), kids, i);
      YieldSymbols(g, kids[i], k - |Yields(kids[..i])|);
  }

  // ----- Nullable, productive and reachable symbols -----

  ghost predicate NullableClosed(g: Cfg, ns: set<Symbol>) {
    forall p :: 1 <= p < |g.productions| && (forall x :: x in g.Rhs(p) ==> x in ns) ==> g.productions[p].name in ns
  }

  ghost predicate NullableExact(g: Cfg, ns: set<Symbol>) {
    forall n :: n in ns <==> n in g.nonterminals && Nullable(g, [n])
  }

  ghost predicate NullableSymbols(g: Cfg, alpha: seq<Symbol>) {
    forall i :: 0 <= i < |alpha| ==> alpha[i] in g.nonterminals && Nullable(g, [alpha[i]])
  }

  lemma {:induction false} NullableForest(g: Cfg, alpha: seq<Symbol>)
    requires forall x :: x in alpha ==> Nullable(g, [x])
    ensures Nullable(g, alpha)
  {
    if alpha == [] {
      DerivesSelf(g, alpha);
    } else {
      NullableForest(g, alpha[1..]);
      assert FirstFact(g, alpha[1..], Empty);
      FirstFactJoin(g, alpha[0], alpha[1..], Empty);
      assert alpha == [alpha[0]] + alpha[1..];
    }
  }

  lemma {:induction false} NullableTree(g: Cfg, ns: set<Symbol>, t: Tree)
    requires g.WellFormed() && NullableClosed(g, ns)
    requires ValidTree(g, t) && Yield(t) == [] && Root(g, t) != Augmented
    ensures Root(g, t) in ns
    decreases t
  {
    var p, kids := t.prod, t.kids;
    forall x | x in g.Rhs(p) ensures x in ns {
      var i :| 0 <= i < |g.Rhs(p)| && g.Rhs(p)[i] == x;
      assert Roots(g, kids)[i] == Root(g, kids[i]);
      YieldPart(kids, i);
      SuffixSymbols(g, p, i);
      NullableTree(g, ns, kids[i]);
    }
  }

  lemma YieldPart(ts: seq<Tree>, i: nat)
    requires i < |ts|
    ensures Yields(ts) == Yields(ts[..i]) + Yield(ts[i]) + Yields(ts[i + 1..])
  {
    hide *;
    SplitAround(ts, i);
    YieldsConcat(ts[..i], [ts[i]]);
    YieldsConcat(ts[..i] + [ts[i]], ts[i + 1..]);
    YieldsOne(ts[i]);
  }

  lemma SplitAround<T>(s: seq<T>, i: nat)
    requires i < |s|
    ensures s == s[..i] + [s[i]] + s[i + 1..]
  {
  }

  lemma Regroup<T>(u: seq<T>, a: seq<T>, x: seq<T>, b: seq<T>, v: seq<T>)
    ensures u + (a + x + b) + v == (u + a) + x + (b + v)
  {
  }

  lemma NullableIsExact(g: Cfg, ns: set<Symbol>)
    requires g.WellFormed() && NullableClosed(g, ns)
    requires forall n :: n in ns ==> n in g.nonterminals && Nullable(g, [n])
    ensures NullableExact(g, ns)
  {
    forall n | n in g.nonterminals && Nullable(g, [n]) ensures n in ns {
      var t := TreeOf(g, n, []);
      NullableTree(g, ns, t);
    }
  }

  /** The two computations of nullability agree. */
  lemma NullableAgreesWithFirst(g: Cfg, F: SetTable, ns: set<Symbol>)
    requires FirstExact(g, F) && FirstKeys(g, F) && NullableExact(g, ns)
    ensures forall n :: n in g.nonterminals ==> (n in ns <==> Empty in F[n])
  {
    forall n | n in g.nonterminals ensures n in ns <==> Empty in F[n] {
      assert Empty in F[n] <==> FirstFact(g, [n], Empty);
    }
  }

  /** `x` derives a string of terminals. */
  ghost predicate Productive(g: Cfg, x: Symbol) {
    exists w :: Derives(g, [x], w) && forall a :: a in w ==> a in g.terminals
  }

  ghost predicate ProductiveClosed(g: Cfg, ps: set<Symbol>) {
    && g.terminals <= ps
    && forall p :: 1 <= p < |g.productions| && (forall x :: x in g.Rhs(p) ==> x in ps) ==> g.productions[p].name in ps
  }

  lemma {:induction false} ProductiveForest(g: Cfg, alpha: seq<Symbol>) returns (w: seq<Symbol>)
    requires forall x :: x in alpha ==> Productive(g, x)
    ensures Derives(g, alpha, w) && forall a :: a in w ==> a in g.terminals
  {
    if alpha == [] {
      DerivesSelf(g, alpha);
      w := alpha;
    } else {
      var v := ProductiveForest(g, alpha[1..]);
      assert Productive(g, alpha[0]);
      var u :| Derives(g, [alpha[0]], u) && forall a :: a in u ==> a in g.terminals;
      DerivesJoin(g, [alpha[0]], u, alpha[1..], v);
      assert alpha == [alpha[0]] + alpha[1..];
      w := u + v;
    }
  }

  lemma ProductiveProduction(g: Cfg, p: nat)
    requires p < |g.productions| && forall x :: x in g.Rhs(p) ==> Productive(g, x)
    ensures Productive(g, g.productions[p].name)
  {
    var w := ProductiveForest(g, g.Rhs(p));
    DerivesProduction(g, p);
    DerivesTrans(g, [g.productions[p].name], g.Rhs(p), w);
  }

  lemma {:induction false} ProductiveTree(g: Cfg, ps: set<Symbol>, t: Tree)
    requires g.WellFormed() && ProductiveClosed(g, ps)
    requires ValidTree(g, t) && Root(g, t) in g.nonterminals + g.terminals
    requires forall a :: a in Yield(t) ==> a in g.terminals
    ensures Root(g, t) in ps
    decreases t
  {
    hide Yields;
    match t
    case Leaf(s) => assert s in Yield(t);
    case Node(p, kids) =>
      forall x | x in g.Rhs(p) ensures x in ps {
        var i :| 0 <= i < |g.Rhs(p)| && g.Rhs(p)[i] == x;
        assert Roots(g, kids)[i] == Root(g, kids[i]);
        YieldPart(kids, i);
        assert forall a :: a in Yield(kids[i]) ==> a in Yield(t);
        SuffixSymbols(g, p, i);
        ProductiveTree(g, ps, kids[i]);
      }
  }

  lemma ProductiveIsExact(g: Cfg, ps: set<Symbol>, n: Symbol)
    requires g.WellFormed() && ProductiveClosed(g, ps) && n in g.nonterminals
    requires n in ps ==> Productive(g, n)
    ensures n in ps <==> Productive(g, n)
  {
    if Productive(g, n) {
      var w :| Derives(g, [n], w) && forall a :: a in w ==> a in g.terminals;
      var t := TreeOf(g, n, w);
      ProductiveTree(g, ps, t);
    }
  }

  ghost predicate ReachClosedAt(g: Cfg, marked: set<Symbol>, n: Symbol) {
    forall p, x :: 1 <= p < |g.productions| && g.productions[p].name == n && x in g.Rhs(p) ==> x in marked
  }

  lemma ReachableStep(g: Cfg, s: Symbol, p: nat, x: Symbol)
    requires p < |g.productions| && x in g.Rhs(p) && ReachableFrom(g, s, g.productions[p].name)
    ensures ReachableFrom(g, s, x)
  {
    hide Derives;
    var n := g.productions[p].name;
    var u, v :| Derives(g, [s], u + [n] + v);
    var i :| 0 <= i < |g.Rhs(p)| && g.Rhs(p)[i] == x;
    DerivesProduction(g, p);
    DerivesContext(g, u, [n], g.Rhs(p), v);
    DerivesTrans(g, [s], u + [n] + v, u + g.Rhs(p) + v);
    SplitAround(g.Rhs(p), i);
    Regroup(u, g.Rhs(p)[..i], [x], g.Rhs(p)[i + 1..], v);
    ReachedAround(g, s, u + g.Rhs(p)[..i], x, g.Rhs(p)[i + 1..] + v);
  }

  lemma ReachedAround(g: Cfg, s: Symbol, u: seq<Symbol>, x: Symbol, v: seq<Symbol>)
    requires Derives(g, [s], u + [x] + v)
    ensures ReachableFrom(g, s, x)
  {
  }

  lemma {:induction false} ReachableTree(g: Cfg, marked: set<Symbol>, t: Tree, k: nat)
    requires g.WellFormed() && forall n :: n in marked ==> ReachClosedAt(g, marked, n)
    requires ValidTree(g, t) && Root(g, t) in marked && Root(g, t) != Augmented && k < |Yield(t)|
    ensures Yield(t)[k] in marked
    decreases t
  {
    match t
    case Leaf(_) =>
    case Node(p, kids) =>
      var i := Locate(kids, k);
      ForestSuffix(g, g.Rhs(p), kids, i);
      SuffixSymbols(g, p, i);
      assert ReachClosedAt(g, marked, g.productions[p].name);
      ReachableTree(g, marked, kids[i], k - |Yields(kids[..i])|);
  }

  /** A set that contains `s`, holds only symbols reachable from `s` and is closed is exact. */
  lemma ReachableIsExact(g: Cfg, s: Symbol, marked: set<Symbol>, x: Symbol)
    requires g.WellFormed() && s in marked && s in g.nonterminals
    requires forall n :: n in marked ==> ReachClosedAt(g, marked, n) && ReachableFrom(g, s, n)
    ensures x in marked <==> ReachableFrom(g, s, x)
  {
    if ReachableFrom(g, s, x) {
      var u, v :| Derives(g, [s], u + [x] + v);
      var t := TreeOf(g, s, u + [x] + v);
      assert Yield(t)[|u|] == x;
      ReachableTree(g, marked, t, |u|);
    }
  }
}
