/** Which transitions a completed item looks back to, and which follow sets its lookaheads are made of, in
    terms of the automaton alone. */
module Lookback {
  import opened Lists
  import opened Grammars
  import opened Items
  import opened ParserTables
  import opened Digraphs
  import opened LalrFacts
  import opened Relations
  import opened Lookaheads

  /** Items of one state agree on what stands before their dots, as far as both go back. */
  lemma {:induction false} SameBefore(g: Cfg, C: seq<seq<Item>>, K: seq<seq<Item>>, d: Delta, j: nat, it: Item, r: Item, k: nat)
    requires Collection(g, C, K, d) && j < |C| && it in C[j] && r in C[j] && k < it.dot && k < r.dot
    ensures ValidItem(g, it) && ValidItem(g, r) && g.Rhs(it.num)[it.dot - 1 - k] == g.Rhs(r.num)[r.dot - 1 - k]
    decreases k
  {
    hide Collection;
    StateItems(g, C, K, d, j, it);
    StateItems(g, C, K, d, j, r);
    var e := Predecessor(g, C, K, d, j, it);
    UnmoveItem(g, C, K, d, e.0, e.1, it);
    UnmoveItem(g, C, K, d, e.0, e.1, r);
    if k > 0 {
      SameBefore(g, C, K, d, e.0, Item(it.num, it.dot - 1), Item(r.num, r.dot - 1), k - 1);
    }
  }

  /** Two completed items of a state with the same name and length are one. */
  lemma SameCompleted(g: Cfg, C: seq<seq<Item>>, K: seq<seq<Item>>, d: Delta, j: nat, p: nat, r: nat)
    requires g.WellFormed() && Collection(g, C, K, d) && j < |C| && 1 <= p < |g.productions| && 1 <= r < |g.productions|
    requires Item(p, |g.Rhs(p)|) in C[j] && Item(r, |g.Rhs(r)|) in C[j]
    requires g.productions[p].name == g.productions[r].name && |g.Rhs(p)| == |g.Rhs(r)|
    ensures p == r
  {
    hide Collection;
    var n := |g.Rhs(p)|;
    forall i | 0 <= i < n ensures g.Rhs(p)[i] == g.Rhs(r)[i] {
      SameBefore(g, C, K, d, j, Item(p, n), Item(r, n), n - 1 - i);
    }
    assert g.productions[p].rhs == g.productions[r].rhs;
  }

  /** The completed item of production `p` in state `j` belongs to a parse of the production begun in state
      `q`: begun there with its dot at the left, or behind leading symbols all written ".". */
  ghost predicate BegunAt(g: Cfg, C: seq<seq<Item>>, d: Delta, q: nat, p: nat, j: nat) {
    q < |C| && p < |g.productions| && exists k: nat :: DotsSkipped(g, C, d, q, p, j, k)
  }

  ghost predicate DotsSkipped(g: Cfg, C: seq<seq<Item>>, d: Delta, q: nat, p: nat, j: nat, k: nat) {
    && q < |C| && p < |g.productions| && k <= |g.Rhs(p)|
    && (forall i :: 0 <= i < k ==> g.Rhs(p)[i] == Sym("."))
    && Item(p, k) in C[q] && Walk(d, q, g.Rhs(p)[k..]) == Some(j)
  }

  /** The lookback of completed items, for all grammars: a transition of the production's name in a state in
      which the production was begun. The comparison stops at the "." that marks the dot of the other item,
      unless the production itself starts with symbols written ".". */
  lemma LookbackOfCompleted(g: Cfg, C: seq<seq<Item>>, K: seq<seq<Item>>, d: Delta, t: Trans, j: nat, p: nat)
    requires g.WellFormed() && Collection(g, C, K, d) && 1 <= p < |g.productions|
    ensures LooksBack(g, C, d, t, j, Item(p, |g.Rhs(p)|)) <==> t.1 == g.productions[p].name && BegunAt(g, C, d, t.0, p, j)
  {
    hide Collection, Walk, Matches;
    var n := |g.Rhs(p)|;
    if LooksBack(g, C, d, t, j, Item(p, n)) {
      var it :| it in C[t.0] && LooksVia(g, C, d, t.0, it, j, Item(p, n)) && g.productions[it.num].name == t.1;
      MatchedItem(g, C, K, d, t.0, it, j, p);
    }
    if t.1 == g.productions[p].name && BegunAt(g, C, d, t.0, p, j) {
      var k: nat :| DotsSkipped(g, C, d, t.0, p, j, k);
      StateItems(g, C, K, d, t.0, Item(p, k));
      WalkRest(g, C, K, d, t.0, Item(p, k), n);
      assert g.Rhs(p)[k..n] == g.Rhs(p)[k..];
      DotsMatch(g, p, k);
      assert LooksVia(g, C, d, t.0, Item(p, k), j, Item(p, n));
    }
  }

  lemma MatchedItem(g: Cfg, C: seq<seq<Item>>, K: seq<seq<Item>>, d: Delta, q: nat, it: Item, j: nat, p: nat)
    requires g.WellFormed() && Collection(g, C, K, d) && 1 <= p < |g.productions| && LooksVia(g, C, d, q, it, j, Item(p, |g.Rhs(p)|))
    ensures it.num == p && DotsSkipped(g, C, d, q, p, j, it.dot)
  {
    hide Collection, Walk;
    var n := |g.Rhs(it.num)|;
    WalkRest(g, C, K, d, q, it, n);
    assert g.Rhs(it.num)[it.dot..n] == g.Rhs(it.num)[it.dot..];
    assert it.num > 0;
    SameCompleted(g, C, K, d, j, p, it.num);
    AllDots(g, it);
  }

  /** The item matches the completed one of its own production: then what is before its dot is written ".". */
  lemma AllDots(g: Cfg, it: Item)
    requires it.num < |g.productions| && Matches(g, it, Item(it.num, |g.Rhs(it.num)|))
    ensures forall i :: 0 <= i < it.dot ==> g.Rhs(it.num)[i] == Sym(".")
  {
    forall i | 0 <= i < it.dot ensures g.Rhs(it.num)[i] == Sym(".") {
      DotFrom(g, it, i);
    }
  }

  lemma {:induction false} DotFrom(g: Cfg, it: Item, i: nat)
    requires it.num < |g.productions| && Matches(g, it, Item(it.num, |g.Rhs(it.num)|)) && i < it.dot
    ensures g.Rhs(it.num)[i] == Sym(".")
    decreases it.dot - i
  {
    assert g.Rhs(it.num)[i] == Marked(g, it)[i + 1];
    if i + 1 < it.dot {
      DotFrom(g, it, i + 1);
    }
  }

  lemma DotsMatch(g: Cfg, p: nat, k: nat)
    requires p < |g.productions| && k <= |g.Rhs(p)| && forall i :: 0 <= i < k ==> g.Rhs(p)[i] == Sym(".")
    ensures Matches(g, Item(p, k), Item(p, |g.Rhs(p)|))
  {
    forall i | 0 <= i < |g.Rhs(p)| ensures g.Rhs(p)[i] == Marked(g, Item(p, k))[i + 1] {
    }
  }

  /** A production that does not start with such a symbol is begun with its dot at the left. */
  lemma BegunPlainly(g: Cfg, C: seq<seq<Item>>, d: Delta, q: nat, p: nat, j: nat)
    requires q < |C| && p < |g.productions| && (g.Rhs(p) == [] || g.Rhs(p)[0] != Sym("."))
    ensures BegunAt(g, C, d, q, p, j) <==> Item(p, 0) in C[q] && Walk(d, q, g.Rhs(p)) == Some(j)
  {
    hide Walk;
    assert g.Rhs(p)[0..] == g.Rhs(p);
    if BegunAt(g, C, d, q, p, j) {
      var k: nat :| DotsSkipped(g, C, d, q, p, j, k);
      assert k == 0;
    }
    if Item(p, 0) in C[q] && Walk(d, q, g.Rhs(p)) == Some(j) {
      assert DotsSkipped(g, C, d, q, p, j, 0);
    }
  }

  /** The lookaheads of a completed item are the follow sets of the transitions of its name in the states in
      which its production was begun, and nothing else. */
  ghost predicate MadeOf(g: Cfg, C: seq<seq<Item>>, d: Delta, fs: map<Trans, set<Symbol>>, la: LookTable) {
    && (forall key :: key in la ==> key.0 < |C| && key.1 < |g.productions| && Item(key.1, |g.Rhs(key.1)|) in C[key.0])
    && forall j: nat, p: nat, a :: 1 <= p < |g.productions| && (j, p) in la ==>
         (a in la[(j, p)] <==> exists q: nat :: Contributes(g, C, d, fs, q, p, j, a))
  }

  ghost predicate Contributes(g: Cfg, C: seq<seq<Item>>, d: Delta, fs: map<Trans, set<Symbol>>, q: nat, p: nat, j: nat, a: Symbol) {
    BegunAt(g, C, d, q, p, j) && (q, g.productions[p].name) in fs && a in fs[(q, g.productions[p].name)]
  }

  lemma LooksMadeOf(g: Cfg, C: seq<seq<Item>>, K: seq<seq<Item>>, d: Delta, lookbacks: map<Trans, seq<(nat, Item)>>,
                    F: map<Trans, nat>, lists: seq<seq<Symbol>>, la: LookDict)
    requires g.WellFormed() && Collection(g, C, K, d) && LookdictFull(g, C, d, lookbacks)
    requires lookbacks.Keys == F.Keys && (forall e :: e in F ==> F[e] < |lists|) && Attached(lookbacks, F, lists, lookbacks.Keys, la)
    ensures MadeOf(g, C, d, SetsOf(F, lists), CompletedLooks(g, la))
  {
    hide Collection, LookdictFull, Attached, CompletedLooks, Contributes, BegunAt;
    var fs, looks := SetsOf(F, lists), CompletedLooks(g, la);
    forall key | key in looks ensures key.0 < |C| && key.1 < |g.productions| && Item(key.1, |g.Rhs(key.1)|) in C[key.0] {
      KeyCompleted(g, C, d, lookbacks, F, lists, la, key);
    }
    forall j: nat, p: nat, a | 1 <= p < |g.productions| && (j, p) in looks
      ensures a in looks[(j, p)] <==> exists q: nat :: Contributes(g, C, d, fs, q, p, j, a)
    {
      if a in looks[(j, p)] {
        var t, x := LookSource(g, lookbacks, F, lists, la, (j, p), a);
        SourceContributes(g, C, K, d, lookbacks, F, lists, la, j, p, a, t, x);
      }
      if q: nat :| Contributes(g, C, d, fs, q, p, j, a) {
        ContributionLooked(g, C, K, d, lookbacks, F, lists, la, q, p, j, a);
      }
    }
  }

  lemma KeyCompleted(g: Cfg, C: seq<seq<Item>>, d: Delta, lookbacks: map<Trans, seq<(nat, Item)>>, F: map<Trans, nat>,
                     lists: seq<seq<Symbol>>, la: LookDict, key: (nat, nat))
    requires LookdictFull(g, C, d, lookbacks) && lookbacks.Keys <= F.Keys && (forall e :: e in F ==> F[e] < |lists|)
    requires Attached(lookbacks, F, lists, lookbacks.Keys, la) && key in CompletedLooks(g, la)
    ensures key.0 < |C| && key.1 < |g.productions| && Item(key.1, |g.Rhs(key.1)|) in C[key.0]
  {
    hide Walk, Has;
    var k :| k in la && Complete(g, k.0) && key == (k.1, k.0.num);
    var t :| t in lookbacks.Keys && (k.1, k.0) in lookbacks[t];
    assert LooksBack(g, C, d, t, k.1, k.0);
  }

  lemma SourceContributes(g: Cfg, C: seq<seq<Item>>, K: seq<seq<Item>>, d: Delta, lookbacks: map<Trans, seq<(nat, Item)>>,
                          F: map<Trans, nat>, lists: seq<seq<Symbol>>, la: LookDict, j: nat, p: nat, a: Symbol, t: Trans, x: (nat, Item))
    requires g.WellFormed() && Collection(g, C, K, d) && LookdictFull(g, C, d, lookbacks) && lookbacks.Keys == F.Keys
    requires (forall e :: e in F ==> F[e] < |lists|) && 1 <= p < |g.productions|
    requires t in lookbacks && x in lookbacks[t] && a in lists[F[t]] && x.1 == Item(p, |g.Rhs(p)|) && x.0 == j
    ensures Contributes(g, C, d, SetsOf(F, lists), t.0, p, j, a)
  {
    hide Collection, BegunAt, LooksBack;
    LookbackOfCompleted(g, C, K, d, t, j, p);
    assert LooksBack(g, C, d, t, x.0, x.1);
  }

  lemma ContributionLooked(g: Cfg, C: seq<seq<Item>>, K: seq<seq<Item>>, d: Delta, lookbacks: map<Trans, seq<(nat, Item)>>,
                           F: map<Trans, nat>, lists: seq<seq<Symbol>>, la: LookDict, q: nat, p: nat, j: nat, a: Symbol)
    requires g.WellFormed() && Collection(g, C, K, d) && LookdictFull(g, C, d, lookbacks) && lookbacks.Keys == F.Keys
    requires (forall e :: e in F ==> F[e] < |lists|) && Attached(lookbacks, F, lists, lookbacks.Keys, la) && 1 <= p < |g.productions|
    requires Contributes(g, C, d, SetsOf(F, lists), q, p, j, a)
    ensures (j, p) in CompletedLooks(g, la) && a in CompletedLooks(g, la)[(j, p)]
  {
    hide Collection, BegunAt, LooksBack, CompletedLooks;
    var t := (q, g.productions[p].name);
    LookbackOfCompleted(g, C, K, d, t, j, p);
    CompletedLook(g, la, j, p);
    var it := Item(p, |g.Rhs(p)|);
    assert (j, it) in lookbacks[t];
    assert Has(la, (it, j), a);
  }
}
