/** The relations of DeRemer and Pennello as the generator computes them, stated on a finished
    collection, and the loops that read them off a list of items. */
module Relations {
  import opened Lists
  import opened Grammars
  import opened GrammarFacts
  import opened Items
  import opened ParserTables
  import opened LalrFacts

  ghost predicate HasDotBefore(g: Cfg, I: seq<Item>, x: Symbol) {
    exists it :: it in I && DotBefore(g, it, x)
  }

  lemma EdgeIffDot(g: Cfg, C: seq<seq<Item>>, K: seq<seq<Item>>, d: Delta, q: nat, x: Symbol)
    requires Collection(g, C, K, d) && q < |C|
    ensures (q, x) in d <==> HasDotBefore(g, C[q], x)
    ensures (q, x) in d ==> 0 < d[(q, x)] < |C|
  {
    hide Collection, DotBefore;
    if (q, x) in d {
      var it := EdgeItem(g, C, K, d, q, x);
      StateBound(g, C, K, d, q, x);
    }
    if HasDotBefore(g, C[q], x) {
      var it :| it in C[q] && DotBefore(g, it, x);
      MoveItem(g, C, K, d, q, it, x);
    }
  }

  /** The loop of `dr_relation`: each terminal after a dot, once. */
  method TerminalsAfterDots(g: Cfg, I: seq<Item>) returns (terms: seq<Symbol>)
    requires ValidItems(g, I)
    ensures forall a :: a in terms <==> a in g.terminals && HasDotBefore(g, I, a)
  {
    terms := [];
    for k := 0 to |I|
      invariant forall a :: a in terms ==> a in g.terminals && HasDotBefore(g, I, a)
      invariant forall i, a :: 0 <= i < k && DotBefore(g, I[i], a) && a in g.terminals ==> a in terms
    {
      if I[k].dot < |g.Rhs(I[k].num)| {
        var a := g.Rhs(I[k].num)[I[k].dot];
        assert DotBefore(g, I[k], a);
        if a in g.terminals && a !in terms {
          terms := terms + [a];
        }
      }
    }
  }

  /** The loop of `reads_relation`: a nullable nonterminal may be listed more than once. */
  method NullableAfterDots(g: Cfg, I: seq<Item>, j: nat, empty: set<Symbol>) returns (rel: seq<Trans>)
    requires ValidItems(g, I)
    ensures forall r: Trans :: r in rel <==> r.0 == j && r.1 in empty && HasDotBefore(g, I, r.1)
  {
    rel := [];
    for k := 0 to |I|
      invariant forall r: Trans :: r in rel ==> r.0 == j && r.1 in empty && HasDotBefore(g, I, r.1)
      invariant forall i, a :: 0 <= i < k && DotBefore(g, I[i], a) && a in empty ==> (j, a) in rel
    {
      if I[k].dot < |g.Rhs(I[k].num)| {
        var a := g.Rhs(I[k].num)[I[k].dot];
        assert DotBefore(g, I[k], a);
        if a in empty {
          rel := rel + [(j, a)];
        }
      }
    }
  }

  /** The inner loop of `find_nonterminal_transitions`. */
  method TransitionsFrom(g: Cfg, I: seq<Item>, state: nat, trans0: seq<Trans>) returns (trans: seq<Trans>)
    requires ValidItems(g, I)
    ensures forall e: Trans :: e in trans <==> e in trans0 || (e.0 == state && e.1 in g.nonterminals && HasDotBefore(g, I, e.1))
    ensures (forall i, j :: 0 <= i < j < |trans0| ==> trans0[i] != trans0[j]) ==> forall i, j :: 0 <= i < j < |trans| ==> trans[i] != trans[j]
  {
    trans := trans0;
    for k := 0 to |I|
      invariant forall e: Trans :: e in trans0 ==> e in trans
      invariant forall e: Trans :: e in trans ==> e in trans0 || (e.0 == state && e.1 in g.nonterminals && HasDotBefore(g, I, e.1))
      invariant forall i, a :: 0 <= i < k && DotBefore(g, I[i], a) && a in g.nonterminals ==> (state, a) in trans
      invariant (forall i, j :: 0 <= i < j < |trans0| ==> trans0[i] != trans0[j]) ==> forall i, j :: 0 <= i < j < |trans| ==> trans[i] != trans[j]
    {
      if I[k].dot < |g.Rhs(I[k].num)| {
        var t := (state, g.Rhs(I[k].num)[I[k].dot]);
        assert DotBefore(g, I[k], t.1);
        if t.1 in g.nonterminals {
          if t !in trans {
            trans := trans + [t];
          }
        }
      }
    }
  }

  // ----- Nullable nonterminals -----

  lemma NullableProduction(g: Cfg, p: nat)
    requires p < |g.productions| && forall x :: x in g.Rhs(p) ==> Nullable(g, [x])
    ensures Nullable(g, [g.productions[p].name])
  {
    NullableForest(g, g.Rhs(p));
    DerivesProduction(g, p);
    DerivesTrans(g, [g.productions[p].name], g.Rhs(p), []);
  }

  lemma SubsetCounts(s: set<Symbol>, t: set<Symbol>)
    requires s <= t
    ensures |s| <= |t| && (|s| == |t| ==> s == t)
  {
    assert t == s + (t - s);
  }

  /** Known nullable nonterminals. */
  ghost predicate NullableSound(g: Cfg, ns: set<Symbol>) {
    ns <= g.nonterminals && forall n :: n in ns ==> Nullable(g, [n])
  }

  /** One production of a pass of `compute_nullable_nonterminals`. */
  method NullableRule(g: Cfg, ns0: set<Symbol>, p: nat) returns (ns: set<Symbol>)
    requires g.WellFormed() && NullableSound(g, ns0) && 1 <= p < |g.productions|
    ensures NullableSound(g, ns) && ns0 <= ns
    ensures (forall x :: x in g.Rhs(p) ==> x in ns0) ==> g.productions[p].name in ns
  {
    var rhs, i := g.Rhs(p), 0;
    while i < |rhs| && rhs[i] in ns0
      invariant i <= |rhs| && forall j :: 0 <= j < i ==> rhs[j] in ns0
    {
      i := i + 1;
    }
    ns := ns0;
    if i == |rhs| {
      NullableProduction(g, p);
      ns := ns + {g.productions[p].name};
    }
  }

  /** One pass over the productions. */
  method NullablePass(g: Cfg, ns0: set<Symbol>) returns (ns: set<Symbol>)
    requires g.WellFormed() && NullableSound(g, ns0)
    ensures NullableSound(g, ns) && ns0 <= ns && |ns0| <= |ns| <= |g.nonterminals|
    ensures |ns| == |ns0| ==> NullableExact(g, ns)
  {
    hide NullableSound, NullableExact;
    ns := ns0;
    for p := 1 to |g.productions|
      invariant NullableSound(g, ns) && ns0 <= ns
      invariant forall k :: 1 <= k < p ==> RuleFired(g, ns0, ns, k)
    {
      ghost var ns1 := ns;
      ns := NullableRule(g, ns, p);
      forall k | 1 <= k < p + 1 ensures RuleFired(g, ns0, ns, k) {
        assert k < p ==> RuleFired(g, ns0, ns1, k);
      }
    }
    PassCounts(g, ns0, ns);
    if |ns| == |ns0| {
      PassExact(g, ns0, ns);
    }
  }

  ghost predicate RuleFired(g: Cfg, ns0: set<Symbol>, ns: set<Symbol>, k: nat) {
    1 <= k < |g.productions| && ((forall x :: x in g.Rhs(k) ==> x in ns0) ==> g.productions[k].name in ns)
  }

  lemma PassCounts(g: Cfg, ns0: set<Symbol>, ns: set<Symbol>)
    requires NullableSound(g, ns) && ns0 <= ns
    ensures |ns0| <= |ns| <= |g.nonterminals|
  {
    SubsetCounts(ns0, ns);
    SubsetCounts(ns, g.nonterminals);
  }

  lemma PassExact(g: Cfg, ns0: set<Symbol>, ns: set<Symbol>)
    requires g.WellFormed() && NullableSound(g, ns) && ns0 <= ns && |ns0| == |ns|
    requires forall k :: 1 <= k < |g.productions| ==> RuleFired(g, ns0, ns, k)
    ensures NullableExact(g, ns)
  {
    SubsetCounts(ns0, ns);
    forall p | 1 <= p < |g.productions| && (forall x :: x in g.Rhs(p) ==> x in ns) ensures g.productions[p].name in ns {
      assert RuleFired(g, ns0, ns, p);
    }
    NullableIsExact(g, ns);
  }

  // ----- Includes and lookback -----

  /** Following the item `it` from state `q`, its symbol at index `k` is taken over the nonterminal
      transition `e`, and only nullable symbols come after it. */
  ghost predicate IncludesVia(g: Cfg, d: Delta, nullable: set<Symbol>, q: nat, it: Item, k: nat, e: Trans) {
    && ValidItem(g, it) && it.dot <= k < |g.Rhs(it.num)| && IsTrans(g, d, e)
    && Walk(d, q, g.Rhs(it.num)[it.dot..k]) == Some(e.0) && e.1 == g.Rhs(it.num)[k]
    && NullableFrom(nullable, g.Rhs(it.num), k + 1)
  }

  /** The transition `t` is put among those that `e` includes, because of some item of its nonterminal
      in the list `I`: the item may have its dot anywhere. */
  ghost predicate IncludesAmong(g: Cfg, d: Delta, nullable: set<Symbol>, I: seq<Item>, t: Trans, e: Trans) {
    exists it, k: nat :: it in I && IncludesVia(g, d, nullable, t.0, it, k, e) && g.productions[it.num].name == t.1
  }

  ghost predicate IncludesFrom(g: Cfg, C: seq<seq<Item>>, d: Delta, nullable: set<Symbol>, t: Trans, e: Trans) {
    t.0 < |C| && IncludesAmong(g, d, nullable, C[t.0], t, e)
  }

  /** The symbols of an item with a "." where the dot is. */
  function Marked(g: Cfg, it: Item): (s: seq<Symbol>)
    requires ValidItem(g, it)
    ensures |s| == |g.Rhs(it.num)| + 1
  {
    g.Rhs(it.num)[..it.dot] + [Sym(".")] + g.Rhs(it.num)[it.dot..]
  }

  /** `r` passes the comparison with the item `it`, made symbol by symbol up to the dot of `r`. */
  ghost predicate Matches(g: Cfg, it: Item, r: Item) {
    && ValidItem(g, it) && ValidItem(g, r)
    && g.productions[r.num].name == g.productions[it.num].name
    && |g.Rhs(r.num)| == |g.Rhs(it.num)|
    && forall i :: 0 <= i < r.dot ==> g.Rhs(r.num)[i] == Marked(g, it)[i + 1]
  }

  /** Following the item `it` from state `q` to its end leads to state `j`, where `r` matches it. */
  ghost predicate LooksVia(g: Cfg, C: seq<seq<Item>>, d: Delta, q: nat, it: Item, j: nat, r: Item) {
    && q < |C| && it in C[q] && ValidItem(g, it) && Walk(d, q, g.Rhs(it.num)[it.dot..]) == Some(j)
    && j < |C| && r in C[j] && Matches(g, it, r)
  }

  /** The item `r` in state `j` looks back to the transition `t`, because of an item in `I`. */
  ghost predicate LooksAmong(g: Cfg, C: seq<seq<Item>>, d: Delta, I: seq<Item>, t: Trans, j: nat, r: Item) {
    exists it :: it in I && LooksVia(g, C, d, t.0, it, j, r) && g.productions[it.num].name == t.1
  }

  ghost predicate LooksBack(g: Cfg, C: seq<seq<Item>>, d: Delta, t: Trans, j: nat, r: Item) {
    t.0 < |C| && LooksAmong(g, C, d, C[t.0], t, j, r)
  }

  /** Items of the same length and name that agree with a whole right-hand side are the completed item. */
  lemma CompletedMatches(g: Cfg, p: nat)
    requires p < |g.productions|
    ensures Matches(g, Item(p, 0), Item(p, |g.Rhs(p)|))
  {
    assert Marked(g, Item(p, 0)) == [Sym(".")] + g.Rhs(p);
  }

  /** The walk over the rest of an item never gets stuck. */
  lemma {:induction false} WalkRest(g: Cfg, C: seq<seq<Item>>, K: seq<seq<Item>>, d: Delta, q: nat, it: Item, k: nat)
    requires Collection(g, C, K, d) && q < |C| && it in C[q] && ValidItem(g, it) && it.dot <= k <= |g.Rhs(it.num)|
    ensures Walk(d, q, g.Rhs(it.num)[it.dot..k]).Some?
    ensures var r := Walk(d, q, g.Rhs(it.num)[it.dot..k]).value; r < |C| && Item(it.num, k) in C[r]
    decreases k
  {
    hide Collection, DotBefore;
    var rhs := g.Rhs(it.num);
    if k == it.dot {
      assert rhs[it.dot..k] == [] && it == Item(it.num, k);
    } else {
      WalkRest(g, C, K, d, q, it, k - 1);
      WalkOne(g, C, K, d, q, it, k - 1, Walk(d, q, rhs[it.dot..k - 1]).value);
    }
  }

  lemma WalkOne(g: Cfg, C: seq<seq<Item>>, K: seq<seq<Item>>, d: Delta, q: nat, it: Item, k: nat, r: nat)
    requires Collection(g, C, K, d) && ValidItem(g, it) && it.dot <= k < |g.Rhs(it.num)| && r < |C| && Item(it.num, k) in C[r]
    requires Walk(d, q, g.Rhs(it.num)[it.dot..k]) == Some(r)
    ensures (r, g.Rhs(it.num)[k]) in d && d[(r, g.Rhs(it.num)[k])] < |C| && Item(it.num, k + 1) in C[d[(r, g.Rhs(it.num)[k])]]
    ensures Walk(d, q, g.Rhs(it.num)[it.dot..k + 1]) == Some(d[(r, g.Rhs(it.num)[k])])
  {
    hide Collection, Walk;
    var rhs := g.Rhs(it.num);
    assert rhs[it.dot..k + 1] == rhs[it.dot..k] + [rhs[k]];
    WalkSnoc(d, q, rhs[it.dot..k], rhs[k]);
    MoveItem(g, C, K, d, r, Item(it.num, k), rhs[k]);
    StateBound(g, C, K, d, r, rhs[k]);
  }

  /** Can the rest of the production be skipped? */
  method RestIsNullable(g: Cfg, nullable: set<Symbol>, rhs: seq<Symbol>, i: nat) returns (yes: bool)
    requires g.WellFormed() && nullable <= g.nonterminals && i <= |rhs|
    ensures yes <==> NullableFrom(nullable, rhs, i)
  {
    var li := i;
    while li < |rhs|
      invariant i <= li <= |rhs| && forall k :: i <= k < li ==> rhs[k] in nullable
    {
      if rhs[li] in g.terminals {
        return false;
      }
      if rhs[li] !in nullable {
        return false;
      }
      li := li + 1;
    }
    yes := true;
  }

  /** The items of state `j` that match `it`. */
  method MatchingItems(g: Cfg, I: seq<Item>, it: Item, j: nat, lookb0: seq<(nat, Item)>) returns (lookb: seq<(nat, Item)>)
    requires ValidItems(g, I) && ValidItem(g, it)
    ensures forall x: (nat, Item) :: x in lookb <==> x in lookb0 || (x.0 == j && x.1 in I && Matches(g, it, x.1))
  {
    lookb := lookb0;
    for m := 0 to |I|
      invariant forall x: (nat, Item) :: x in lookb <==> x in lookb0 || (x.0 == j && x.1 in I[..m] && Matches(g, it, x.1))
    {
      var r := I[m];
      assert I[..m + 1] == I[..m] + [r];
      if g.productions[r.num].name == g.productions[it.num].name && |g.Rhs(r.num)| == |g.Rhs(it.num)| {
        var i := 0;
        while i < r.dot && g.Rhs(r.num)[i] == Marked(g, it)[i + 1]
          invariant i <= r.dot && forall k :: 0 <= k < i ==> g.Rhs(r.num)[k] == Marked(g, it)[k + 1]
        {
          i := i + 1;
        }
        if i == r.dot {
          lookb := lookb + [(j, r)];
        }
      }
    }
    assert I[..|I|] == I;
  }

  ghost predicate IncludesUpTo(g: Cfg, d: Delta, nullable: set<Symbol>, q: nat, it: Item, k: nat, e: Trans) {
    exists i: nat :: i < k && IncludesVia(g, d, nullable, q, it, i, e)
  }

  /** One symbol further along the item. */
  lemma IncludesStep(g: Cfg, d: Delta, nullable: set<Symbol>, q: nat, it: Item, k: nat, j: nat, e: Trans)
    requires ValidItem(g, it) && it.dot <= k < |g.Rhs(it.num)| && Walk(d, q, g.Rhs(it.num)[it.dot..k]) == Some(j)
    ensures IncludesUpTo(g, d, nullable, q, it, k + 1, e) <==>
            || IncludesUpTo(g, d, nullable, q, it, k, e)
            || (e == (j, g.Rhs(it.num)[k]) && IsTrans(g, d, e) && NullableFrom(nullable, g.Rhs(it.num), k + 1))
  {
    hide IsTrans, NullableFrom;
    assert IncludesVia(g, d, nullable, q, it, k, e) <==>
      (e == (j, g.Rhs(it.num)[k]) && IsTrans(g, d, e) && NullableFrom(nullable, g.Rhs(it.num), k + 1));
  }

  lemma IncludesEnd(g: Cfg, d: Delta, nullable: set<Symbol>, q: nat, it: Item, k: nat, e: Trans)
    requires ValidItem(g, it) && k >= |g.Rhs(it.num)|
    ensures IncludesUpTo(g, d, nullable, q, it, k, e) <==> exists i: nat :: IncludesVia(g, d, nullable, q, it, i, e)
  {
  }

  /** The walk along the item goes on over a transition. */
  lemma WalkNext(g: Cfg, C: seq<seq<Item>>, K: seq<seq<Item>>, d: Delta, q: nat, it: Item, k: nat, j: nat)
    requires Collection(g, C, K, d) && q < |C| && it in C[q] && ValidItem(g, it) && it.dot <= k < |g.Rhs(it.num)|
    requires Walk(d, q, g.Rhs(it.num)[it.dot..k]) == Some(j)
    ensures j < |C| && (j, g.Rhs(it.num)[k]) in d && d[(j, g.Rhs(it.num)[k])] < |C|
    ensures Walk(d, q, g.Rhs(it.num)[it.dot..k + 1]) == Some(d[(j, g.Rhs(it.num)[k])])
  {
    hide Collection;
    var rhs := g.Rhs(it.num);
    WalkRest(g, C, K, d, q, it, k);
    WalkRest(g, C, K, d, q, it, k + 1);
    assert rhs[it.dot..k + 1] == rhs[it.dot..k] + [rhs[k]];
    WalkSnoc(d, q, rhs[it.dot..k], rhs[k]);
  }

  lemma FollowStart(g: Cfg, d: Delta, nullable: set<Symbol>, q: nat, it: Item)
    requires ValidItem(g, it)
    ensures Walk(d, q, g.Rhs(it.num)[it.dot..it.dot]) == Some(q)
    ensures forall e: Trans :: !IncludesUpTo(g, d, nullable, q, it, it.dot, e)
  {
    assert g.Rhs(it.num)[it.dot..it.dot] == [];
  }

  lemma FollowStep(g: Cfg, d: Delta, dtrans: set<Trans>, nullable: set<Symbol>, q: nat, it: Item, k: nat, j: nat,
                   includes0: seq<Trans>, before: seq<Trans>, after: seq<Trans>)
    requires ValidItem(g, it) && it.dot <= k < |g.Rhs(it.num)| && Walk(d, q, g.Rhs(it.num)[it.dot..k]) == Some(j)
    requires TransKeys(g, d, dtrans)
    requires forall e: Trans :: e in before <==> e in includes0 || IncludesUpTo(g, d, nullable, q, it, k, e)
    requires var t := g.Rhs(it.num)[k];
      after == if (j, t) in dtrans && NullableFrom(nullable, g.Rhs(it.num), k + 1) then before + [(j, t)] else before
    ensures forall e: Trans :: e in after <==> e in includes0 || IncludesUpTo(g, d, nullable, q, it, k + 1, e)
  {
    hide IncludesUpTo, NullableFrom, Walk;
    forall e: Trans ensures e in after <==> e in includes0 || IncludesUpTo(g, d, nullable, q, it, k + 1, e) {
      IncludesStep(g, d, nullable, q, it, k, j, e);
    }
  }

  /** The members of DR(e). */
  ghost predicate DirectlyRead(g: Cfg, d: Delta, e: Trans, a: Symbol) {
    || (e in d && a in g.terminals && (d[e], a) in d)
    || (g.WellFormed() && a == End && e == (0, g.Start()))
  }

  lemma ReadFacts(g: Cfg, d: Delta, e: Trans, shifted: seq<Symbol>, terms: seq<Symbol>)
    requires g.WellFormed() && e in d && forall a :: a in shifted <==> a in g.terminals && (d[e], a) in d
    requires terms == if e.0 == 0 && e.1 == g.productions[0].rhs[0] then shifted + [End] else shifted
    ensures forall a :: a in terms <==> DirectlyRead(g, d, e, a)
  {
  }

  lemma ItemBounds(g: Cfg, it: Item)
    requires ValidItem(g, it)
    ensures it.num < |g.productions| && it.dot <= |g.Rhs(it.num)|
  {
  }

  lemma StartBounds(g: Cfg)
    requires g.WellFormed()
    ensures |g.productions| >= 2 && |g.productions[0].rhs| == 1
  {
  }

  /** One more item of the list has been followed to its end in state `j`. */
  lemma IncludesItem(g: Cfg, d: Delta, nullable: set<Symbol>, I: seq<Item>, m: nat, t: Trans, includes: seq<Trans>, includes': seq<Trans>)
    requires m < |I| && ValidItem(g, I[m])
    requires forall e: Trans :: e in includes <==> IncludesAmong(g, d, nullable, I[..m], t, e)
    requires forall e: Trans :: e in includes' <==>
               e in includes || (g.productions[I[m].num].name == t.1 && IncludesUpTo(g, d, nullable, t.0, I[m], |g.Rhs(I[m].num)|, e))
    ensures forall e: Trans :: e in includes' <==> IncludesAmong(g, d, nullable, I[..m + 1], t, e)
  {
    hide IncludesVia, IncludesUpTo;
    assert I[..m + 1] == I[..m] + [I[m]];
    forall e: Trans ensures e in includes' <==> IncludesAmong(g, d, nullable, I[..m + 1], t, e) {
      IncludesEnd(g, d, nullable, t.0, I[m], |g.Rhs(I[m].num)|, e);
    }
  }

  lemma LooksItem(g: Cfg, C: seq<seq<Item>>, d: Delta, m: nat, t: Trans, j: nat, lookb: seq<(nat, Item)>, lookb': seq<(nat, Item)>)
    requires t.0 < |C| && m < |C[t.0]| && ValidItem(g, C[t.0][m]) && j < |C|
    requires g.productions[C[t.0][m].num].name == t.1 && Walk(d, t.0, g.Rhs(C[t.0][m].num)[C[t.0][m].dot..]) == Some(j)
    requires forall x: (nat, Item) :: x in lookb <==> LooksAmong(g, C, d, C[t.0][..m], t, x.0, x.1)
    requires forall x: (nat, Item) :: x in lookb' <==> x in lookb || (x.0 == j && x.1 in C[j] && Matches(g, C[t.0][m], x.1))
    ensures forall x: (nat, Item) :: x in lookb' <==> LooksAmong(g, C, d, C[t.0][..m + 1], t, x.0, x.1)
  {
    hide Matches, Walk;
    var I := C[t.0];
    assert I[..m + 1] == I[..m] + [I[m]];
    forall x: (nat, Item) ensures x in lookb' <==> LooksAmong(g, C, d, I[..m + 1], t, x.0, x.1) {
      assert LooksVia(g, C, d, t.0, I[m], x.0, x.1) <==> x.0 == j && x.1 in C[j] && Matches(g, I[m], x.1);
    }
  }

  /** An item of another nonterminal changes nothing. */
  lemma OtherItem(g: Cfg, C: seq<seq<Item>>, d: Delta, nullable: set<Symbol>, m: nat, t: Trans,
                  lookb: seq<(nat, Item)>, includes: seq<Trans>)
    requires t.0 < |C| && m < |C[t.0]| && ValidItem(g, C[t.0][m]) && g.productions[C[t.0][m].num].name != t.1
    requires forall x: (nat, Item) :: x in lookb <==> LooksAmong(g, C, d, C[t.0][..m], t, x.0, x.1)
    requires forall e: Trans :: e in includes <==> IncludesAmong(g, d, nullable, C[t.0][..m], t, e)
    ensures forall x: (nat, Item) :: x in lookb <==> LooksAmong(g, C, d, C[t.0][..m + 1], t, x.0, x.1)
    ensures forall e: Trans :: e in includes <==> IncludesAmong(g, d, nullable, C[t.0][..m + 1], t, e)
  {
    hide LooksVia, IncludesVia;
    assert C[t.0][..m + 1] == C[t.0][..m] + [C[t.0][m]];
  }

  lemma NoItems(g: Cfg, C: seq<seq<Item>>, d: Delta, nullable: set<Symbol>, t: Trans)
    requires t.0 < |C|
    ensures forall x: (nat, Item) :: !LooksAmong(g, C, d, C[t.0][..0], t, x.0, x.1)
    ensures forall e: Trans :: !IncludesAmong(g, d, nullable, C[t.0][..0], t, e)
  {
  }

  lemma AllItemsSeen(g: Cfg, C: seq<seq<Item>>, d: Delta, nullable: set<Symbol>, t: Trans, lookb: seq<(nat, Item)>, includes: seq<Trans>)
    requires t.0 < |C|
    requires forall x: (nat, Item) :: x in lookb <==> LooksAmong(g, C, d, C[t.0][..|C[t.0]|], t, x.0, x.1)
    requires forall e: Trans :: e in includes <==> IncludesAmong(g, d, nullable, C[t.0][..|C[t.0]|], t, e)
    ensures forall x: (nat, Item) :: x in lookb <==> LooksBack(g, C, d, t, x.0, x.1)
    ensures forall e: Trans :: e in includes <==> IncludesFrom(g, C, d, nullable, t, e)
  {
    assert C[t.0][..|C[t.0]|] == C[t.0];
  }

  /** The includes dictionary says that `e` includes `t`. */
  predicate Listed(included: map<Trans, seq<Trans>>, e: Trans, t: Trans) {
    e in included && t in included[e]
  }

  lemma ListedMore(before: map<Trans, seq<Trans>>, after: map<Trans, seq<Trans>>, i: Trans, t: Trans)
    requires after == before[i := (if i in before then before[i] else []) + [t]]
    ensures forall e: Trans, u: Trans :: Listed(after, e, u) <==> Listed(before, e, u) || (u == t && e == i)
  {
  }

  /** The collected transitions are entered in the dictionary. */
  method AddIncludes(included0: map<Trans, seq<Trans>>, includes: seq<Trans>, t: Trans) returns (included: map<Trans, seq<Trans>>)
    ensures forall e: Trans, u: Trans :: Listed(included, e, u) <==> Listed(included0, e, u) || (u == t && e in includes)
    ensures included.Keys == included0.Keys + Elems(includes)
  {
    included := included0;
    for k := 0 to |includes|
      invariant forall e: Trans, u: Trans :: Listed(included, e, u) <==> Listed(included0, e, u) || (u == t && e in includes[..k])
      invariant included.Keys == included0.Keys + Elems(includes[..k])
    {
      var i := includes[k];
      assert includes[..k + 1] == includes[..k] + [i];
      ghost var before := included;
      if i !in included {
        included := included[i := []];
      }
      included := included[i := included[i] + [t]];
      ListedMore(before, included, i, t);
    }
    assert includes[..|includes|] == includes;
  }

  ghost predicate LookdictOk(g: Cfg, C: seq<seq<Item>>, d: Delta, lookdict: map<Trans, seq<(nat, Item)>>) {
    forall t: Trans, x: (nat, Item) :: t in lookdict ==> (x in lookdict[t] <==> LooksBack(g, C, d, t, x.0, x.1))
  }

  ghost predicate IncludedictOk(g: Cfg, C: seq<seq<Item>>, d: Delta, nullable: set<Symbol>, ts: set<Trans>, included: map<Trans, seq<Trans>>) {
    && (forall e: Trans, t: Trans :: Listed(included, e, t) <==> t in ts && IncludesFrom(g, C, d, nullable, t, e))
    && (forall e :: e in included ==> IsTrans(g, d, e))
  }

  lemma NoTransitions(g: Cfg, C: seq<seq<Item>>, d: Delta, nullable: set<Symbol>, trans: seq<Trans>)
    ensures LookdictOk(g, C, d, map[]) && IncludedictOk(g, C, d, nullable, Elems(trans[..0]), map[])
    ensures Elems(trans[..0]) == {}
  {
  }

  lemma KeyIsTrans(g: Cfg, d: Delta, trans: seq<Trans>, i: nat)
    requires TransKeys(g, d, Elems(trans)) && i < |trans|
    ensures IsTrans(g, d, trans[i])
  {
    assert trans[i] in Elems(trans);
  }

  lemma PrefixElems<T>(s: seq<T>, i: nat)
    requires i < |s|
    ensures Elems(s[..i + 1]) == Elems(s[..i]) + {s[i]}
  {
    assert s[..i + 1] == s[..i] + [s[i]];
  }

  lemma LookdictMore(g: Cfg, C: seq<seq<Item>>, d: Delta, lookdict: map<Trans, seq<(nat, Item)>>, t: Trans, lookb: seq<(nat, Item)>)
    requires LookdictOk(g, C, d, lookdict)
    requires forall x: (nat, Item) :: x in lookb <==> LooksBack(g, C, d, t, x.0, x.1)
    ensures LookdictOk(g, C, d, lookdict[t := lookb])
  {
    hide LooksBack;
  }

  lemma IncludedMore(g: Cfg, C: seq<seq<Item>>, d: Delta, nullable: set<Symbol>, trans: seq<Trans>, i: nat,
                     before: map<Trans, seq<Trans>>, includes: seq<Trans>, after: map<Trans, seq<Trans>>)
    requires i < |trans| && IncludedictOk(g, C, d, nullable, Elems(trans[..i]), before)
    requires forall e: Trans :: e in includes <==> IncludesFrom(g, C, d, nullable, trans[i], e)
    requires forall e: Trans, u: Trans :: Listed(after, e, u) <==> Listed(before, e, u) || (u == trans[i] && e in includes)
    requires after.Keys == before.Keys + Elems(includes)
    ensures IncludedictOk(g, C, d, nullable, Elems(trans[..i + 1]), after)
  {
    hide IncludesVia;
    PrefixElems(trans, i);
    forall e | e in after ensures IsTrans(g, d, e) {
      if e in Elems(includes) {
        assert IncludesFrom(g, C, d, nullable, trans[i], e);
        IncludesIsTrans(g, C, d, nullable, trans[i], e);
      }
    }
  }

  lemma IncludesIsTrans(g: Cfg, C: seq<seq<Item>>, d: Delta, nullable: set<Symbol>, t: Trans, e: Trans)
    requires IncludesFrom(g, C, d, nullable, t, e)
    ensures IsTrans(g, d, e)
  {
  }
}
