/** Lookahead coverage: whatever follows a nonterminal in a rightmost derivation is in the lookaheads
    of its completed productions, in the state that the viable prefix leads to. */
module Coverage {
  import opened Grammars
  import opened GrammarFacts
  import opened Items
  import opened ParserTables

  /** A rightmost step: nothing but terminals to the right of the symbol replaced. */
  ghost predicate RightmostStep(g: Cfg, a: seq<Symbol>, b: seq<Symbol>, i: nat, p: nat) {
    RewritesAt(g, a, b, i, p) && Terminals(g, a[i + 1..])
  }

  ghost predicate RightmostIn(g: Cfg, a: seq<Symbol>, b: seq<Symbol>, n: nat)
    decreases n
  {
    if n == 0 then a == b
    else exists c, i: nat, p: nat :: RightmostIn(g, a, c, n - 1) && RightmostStep(g, c, b, i, p)
  }

  ghost predicate RightmostDerives(g: Cfg, a: seq<Symbol>, b: seq<Symbol>) {
    exists n: nat :: RightmostIn(g, a, b, n)
  }

  // ----- What a form can start with -----

  lemma SplitForm(g: Cfg, x: seq<Symbol>, y: seq<Symbol>, w: seq<Symbol>) returns (u: seq<Symbol>, v: seq<Symbol>)
    requires Derives(g, x + y, w)
    ensures w == u + v && Derives(g, x, u) && Derives(g, y, v)
  {
    DerivesIffForest(g, x + y, w);
    var ts :| Forest(g, x + y, ts) && Yields(ts) == w;
    ForestSlice(g, x + y, ts, 0, |x|);
    ForestSlice(g, x + y, ts, |x|, |x + y|);
    assert (x + y)[0..|x|] == x && (x + y)[|x|..|x + y|] == y;
    var us, vs := ts[0..|x|], ts[|x|..|x + y|];
    assert ts == us + vs;
    YieldsConcat(us, vs);
    ForestDerives(g, x, us);
    ForestDerives(g, y, vs);
    u, v := Yields(us), Yields(vs);
  }

  lemma SplitStart(g: Cfg, x: seq<Symbol>, y: seq<Symbol>, a: Symbol)
    ensures CanStart(g, x + y, a) ==> CanStart(g, x, a) || (Nullable(g, x) && CanStart(g, y, a))
    ensures Nullable(g, x + y) ==> Nullable(g, x) && Nullable(g, y)
  {
    if CanStart(g, x + y, a) {
      var rest :| Derives(g, x + y, [a] + rest);
      var u, v := SplitForm(g, x, y, [a] + rest);
      if u == [] {
        assert v == [a] + rest;
      } else {
        assert (u + v)[0] == a;
        assert u == [a] + u[1..];
      }
    }
    if Nullable(g, x + y) {
      var u, v := SplitForm(g, x, y, []);
    }
  }

  /** `a` can come next, or the input can end, after forms derived from `suffix`. */
  ghost predicate Next(g: Cfg, suffix: seq<Symbol>, a: Symbol) {
    (a in g.terminals && CanStart(g, suffix, a)) || (a == End && Nullable(g, suffix))
  }

  lemma NextSplit(g: Cfg, x: seq<Symbol>, y: seq<Symbol>, a: Symbol)
    requires Next(g, x + y, a)
    ensures (a in g.terminals && CanStart(g, x, a)) || (Nullable(g, x) && Next(g, y, a))
  {
    SplitStart(g, x, y, a);
  }

  /** Rewriting inside the suffix takes nothing new to the front. */
  lemma NextBefore(g: Cfg, c: seq<Symbol>, b: seq<Symbol>, a: Symbol)
    requires Derives(g, c, b) && Next(g, b, a)
    ensures Next(g, c, a)
  {
    if CanStart(g, b, a) {
      var rest :| Derives(g, b, [a] + rest);
      DerivesTrans(g, c, b, [a] + rest);
    }
    if Nullable(g, b) {
      DerivesTrans(g, c, b, []);
    }
  }

  // ----- Nonterminals of a right sentential form -----

  lemma {:induction false} WalkAppend(d: Delta, q: nat, x: seq<Symbol>, y: seq<Symbol>)
    requires Walk(d, q, x).Some?
    ensures Walk(d, q, x + y) == Walk(d, Walk(d, q, x).value, y)
  {
    if y == [] {
      assert x + y == x;
    } else {
      var y', z := y[..|y| - 1], y[|y| - 1];
      WalkAppend(d, q, x, y');
      assert x + y == (x + y') + [z] && y == y' + [z];
      WalkSnoc(d, q, x + y', z);
      WalkSnoc(d, Walk(d, q, x).value, y', z);
    }
  }

  /** The nonterminal at index `i` of the form: its prefix can be walked, the state there expects it,
      and its follow set has everything that can come next. */
  ghost predicate Placed(g: Cfg, C: seq<seq<Item>>, d: Delta, fol: FollowMap, w: seq<Symbol>, i: nat) {
    i < |w| && Walk(d, 0, w[..i]).Some? &&
    var r := Walk(d, 0, w[..i]).value;
    && r < |C| && (exists it :: it in C[r] && DotBefore(g, it, w[i]))
    && (r, w[i]) in fol && forall a :: Next(g, w[i + 1..], a) ==> a in fol[(r, w[i])]
  }

  ghost predicate AllPlaced(g: Cfg, C: seq<seq<Item>>, d: Delta, fol: FollowMap, w: seq<Symbol>) {
    forall i :: 0 <= i < |w| && w[i] in g.nonterminals ==> Placed(g, C, d, fol, w, i)
  }

  /** Nothing but the end of the input comes after the empty form. */
  lemma NothingNext(g: Cfg, a: Symbol)
    requires Next(g, [], a)
    ensures a == End
  {
    if rest :| Derives(g, [], [a] + rest) {
      NothingDerived(g, [a] + rest);
    }
  }

  lemma NothingDerived(g: Cfg, w: seq<Symbol>)
    requires Derives(g, [], w)
    ensures w == []
  {
    DerivesIffForest(g, [], w);
    var ts :| Forest(g, [], ts) && Yields(ts) == w;
    assert |Roots(g, ts)| == |ts|;
  }

  lemma StartPlaced(g: Cfg, C: seq<seq<Item>>, K: seq<seq<Item>>, d: Delta, fol: FollowMap, la: LookTable)
    requires g.WellFormed() && Collection(g, C, K, d) && Adequate(g, C, d, fol, la)
    ensures AllPlaced(g, C, d, fol, [g.Start()])
  {
    var w := [g.Start()];
    StartItem(g, C, K, d, 0);
    assert DotBefore(g, Item(0, 0), w[0]);
    assert w[..0] == [] && w[1..] == [];
    forall a | Next(g, [], a) ensures a in fol[(0, w[0])] {
      NothingNext(g, a);
    }
    assert Placed(g, C, d, fol, w, 0);
  }

  /** A nonterminal left of the one replaced. */
  lemma PlacedBefore(g: Cfg, C: seq<seq<Item>>, d: Delta, fol: FollowMap, c: seq<Symbol>, b: seq<Symbol>, i: nat, p: nat, k: nat)
    requires RewritesAt(g, c, b, i, p) && k < i && Placed(g, C, d, fol, c, k)
    ensures Placed(g, C, d, fol, b, k)
  {
    var rhs := g.productions[p].rhs;
    assert b[..k] == c[..k] && b[k] == c[k];
    var x, y := c[k + 1..i], c[i + 1..];
    assert c[k + 1..] == x + [c[i]] + y && b[k + 1..] == x + rhs + y;
    DerivesProduction(g, p);
    DerivesContext(g, x, [c[i]], rhs, y);
    var before, after := c[k + 1..], b[k + 1..];
    forall a | Next(g, after, a) ensures Next(g, before, a) {
      NextBefore(g, before, after, a);
    }
  }

  /** A nonterminal inside the right-hand side that has been put in. */
  lemma PlacedInside(g: Cfg, C: seq<seq<Item>>, K: seq<seq<Item>>, d: Delta, fol: FollowMap, la: LookTable, c: seq<Symbol>, b: seq<Symbol>,
                     i: nat, p: nat, m: nat)
    requires g.WellFormed() && Collection(g, C, K, d) && Adequate(g, C, d, fol, la)
    requires RewritesAt(g, c, b, i, p) && p > 0 && Placed(g, C, d, fol, c, i) && m < |g.Rhs(p)| && g.Rhs(p)[m] in g.nonterminals
    ensures Placed(g, C, d, fol, b, i + m)
  {
    hide Collection, Next, Walk, DotBefore;
    var rhs, q := g.Rhs(p), Walk(d, 0, c[..i]).value;
    var it :| it in C[q] && DotBefore(g, it, c[i]);
    CloseItem(g, C, K, d, q, it, p);
    WalkItem(g, C, K, d, q, p, m);
    var r := Walk(d, q, rhs[..m]).value;
    assert b[..i + m] == c[..i] + rhs[..m] && b[i + m] == rhs[m];
    WalkAppend(d, 0, c[..i], rhs[..m]);
    DotAt(g, C, K, d, r, p, m);
    assert AdequateAt(g, C, d, fol, q, p, m);
    assert b[i + m + 1..] == rhs[m + 1..] + c[i + 1..];
    forall a | Next(g, b[i + m + 1..], a) ensures a in fol[(r, rhs[m])] {
      NextSplit(g, rhs[m + 1..], c[i + 1..], a);
    }
  }

  lemma DotAt(g: Cfg, C: seq<seq<Item>>, K: seq<seq<Item>>, d: Delta, r: nat, p: nat, m: nat)
    requires r < |C| && Item(p, m) in C[r] && p < |g.productions| && m < |g.Rhs(p)|
    ensures exists it :: it in C[r] && DotBefore(g, it, g.Rhs(p)[m])
  {
    assert DotBefore(g, Item(p, m), g.Rhs(p)[m]);
  }

  lemma {:induction false} FormPlaced(g: Cfg, C: seq<seq<Item>>, K: seq<seq<Item>>, d: Delta, fol: FollowMap, la: LookTable,
                                      w: seq<Symbol>, n: nat)
    requires g.WellFormed() && Collection(g, C, K, d) && Adequate(g, C, d, fol, la)
    requires RightmostIn(g, [g.Start()], w, n)
    ensures AllPlaced(g, C, d, fol, w) && Augmented !in w
    decreases n
  {
    hide Collection, Adequate, AllPlaced, RightmostStep;
    if n == 0 {
      StartPlaced(g, C, K, d, fol, la);
    } else {
      var c, i: nat, p: nat :| RightmostIn(g, [g.Start()], c, n - 1) && RightmostStep(g, c, w, i, p);
      FormPlaced(g, C, K, d, fol, la, c, n - 1);
      StepPlaced(g, C, K, d, fol, la, c, w, i, p);
    }
  }

  lemma StepPlaced(g: Cfg, C: seq<seq<Item>>, K: seq<seq<Item>>, d: Delta, fol: FollowMap, la: LookTable,
                   c: seq<Symbol>, w: seq<Symbol>, i: nat, p: nat)
    requires g.WellFormed() && Collection(g, C, K, d) && Adequate(g, C, d, fol, la)
    requires AllPlaced(g, C, d, fol, c) && Augmented !in c && RightmostStep(g, c, w, i, p)
    ensures AllPlaced(g, C, d, fol, w) && Augmented !in w
  {
    hide Collection, Adequate, Placed;
    StepNames(g, c, w, i, p);
    forall k | 0 <= k < |w| && w[k] in g.nonterminals ensures Placed(g, C, d, fol, w, k) {
      if k < i {
        assert w[k] == c[k];
        PlacedBefore(g, C, d, fol, c, w, i, p, k);
      } else if k < i + |g.Rhs(p)| {
        PlacedInside(g, C, K, d, fol, la, c, w, i, p, k - i);
      } else {
        TokenAfter(g, c, w, i, p, k);
      }
    }
  }

  lemma StepNames(g: Cfg, c: seq<Symbol>, w: seq<Symbol>, i: nat, p: nat)
    requires g.WellFormed() && RewritesAt(g, c, w, i, p) && Augmented !in c
    ensures 0 < p < |g.productions| && i < |c| && c[i] in g.nonterminals && Augmented !in w
    ensures forall k :: i <= k < i + |g.Rhs(p)| ==> w[k] == g.Rhs(p)[k - i]
  {
    assert c[i] in c;
    forall k | 0 <= k < |w| ensures w[k] != Augmented {
      if k < i {
        assert w[k] == c[k];
      } else if k < i + |g.Rhs(p)| {
        assert w[k] == g.Rhs(p)[k - i];
        assert g.productions[p].rhs[k - i] in g.terminals + g.nonterminals;
      } else {
        assert w[k] == c[k - |g.Rhs(p)| + 1];
      }
    }
  }

  lemma TokenAfter(g: Cfg, c: seq<Symbol>, w: seq<Symbol>, i: nat, p: nat, k: nat)
    requires g.WellFormed() && RightmostStep(g, c, w, i, p) && i + |g.Rhs(p)| <= k < |w|
    ensures w[k] in g.terminals && w[k] !in g.nonterminals
  {
    assert w[k] == c[i + 1..][k - i - |g.Rhs(p)|];
  }

  /** Coverage. If the start symbol rightmost-derives alpha A z, then for every production A: omega the
      viable prefix alpha omega leads to a state in which the completed production has among its
      lookaheads the first symbol of z, or `$end` when z is empty. */
  lemma LookaheadCoverage(g: Cfg, C: seq<seq<Item>>, K: seq<seq<Item>>, d: Delta, fol: FollowMap, la: LookTable,
                          alpha: seq<Symbol>, p: nat, z: seq<Symbol>)
    requires g.WellFormed() && Collection(g, C, K, d) && Adequate(g, C, d, fol, la)
    requires 1 <= p < |g.productions| && RightmostDerives(g, [g.Start()], alpha + [g.productions[p].name] + z)
    requires z != [] ==> z[0] in g.terminals
    ensures var q := Walk(d, 0, alpha + g.Rhs(p));
      && q.Some? && q.value < |C| && Item(p, |g.Rhs(p)|) in C[q.value]
      && (q.value, p) in la && (if z == [] then End else z[0]) in la[(q.value, p)]
  {
    hide Collection, Adequate, Placed, Next, Walk, RightmostIn;
    var w, i, A := alpha + [g.productions[p].name] + z, |alpha|, g.productions[p].name;
    var n: nat :| RightmostIn(g, [g.Start()], w, n);
    FormPlaced(g, C, K, d, fol, la, w, n);
    assert w[i] == A && w[..i] == alpha && w[i + 1..] == z;
    assert Placed(g, C, d, fol, w, i);
    NextHead(g, z);
    PlacedCompletes(g, C, K, d, fol, la, w, i, p);
  }

  lemma NextHead(g: Cfg, z: seq<Symbol>)
    requires z != [] ==> z[0] in g.terminals
    ensures Next(g, z, if z == [] then End else z[0])
  {
    DerivesSelf(g, z);
    assert z != [] ==> z == [z[0]] + z[1..];
  }

  lemma PlacedCompletes(g: Cfg, C: seq<seq<Item>>, K: seq<seq<Item>>, d: Delta, fol: FollowMap, la: LookTable, w: seq<Symbol>, i: nat, p: nat)
    requires g.WellFormed() && Collection(g, C, K, d) && Adequate(g, C, d, fol, la)
    requires 1 <= p < |g.productions| && i < |w| && w[i] == g.productions[p].name && Placed(g, C, d, fol, w, i)
    ensures var q := Walk(d, 0, w[..i] + g.Rhs(p));
      && q.Some? && q.value < |C| && Item(p, |g.Rhs(p)|) in C[q.value] && (q.value, p) in la
      && forall a :: Next(g, w[i + 1..], a) ==> a in la[(q.value, p)]
  {
    hide Collection, Next, Walk, DotBefore, AdequateAt;
    var r := Walk(d, 0, w[..i]).value;
    var it :| it in C[r] && DotBefore(g, it, w[i]);
    CloseItem(g, C, K, d, r, it, p);
    WalkItem(g, C, K, d, r, p, |g.Rhs(p)|);
    assert g.Rhs(p)[..|g.Rhs(p)|] == g.Rhs(p);
    WalkAppend(d, 0, w[..i], g.Rhs(p));
    assert LooksAt(g, C, d, fol, la, r, p);
  }
}
