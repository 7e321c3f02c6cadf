/** What generated tables make of the engine: it never crashes, keeps a viable prefix on its stacks,
    and every tree it accepts without an error derives the whole input. */
module EngineFacts {
  import opened Lists
  import opened Grammars
  import opened Items
  import opened ParserTables
  import opened Engine

  /** Tables filled from the collection of a grammar. */
  ghost predicate Built(g: Cfg, C: seq<seq<Item>>, K: seq<seq<Item>>, d: Delta, la: LookTable, T: Tables) {
    g.WellFormed() && Collection(g, C, K, d) && Filled(g, C, d, la, T)
  }

  ghost predicate Linked(d: Delta, c: Config, i: nat) {
    && 1 <= i < |c.statestack| == |c.symstack|
    && (c.statestack[i - 1], c.symstack[i].sym) in d
    && c.statestack[i] == d[(c.statestack[i - 1], c.symstack[i].sym)]
  }

  /** A symbol whose value is a derivation tree with that symbol at the root. */
  ghost predicate Rooted(g: Cfg, y: YaccSymbol) {
    ValidTree(g, y.value) && Root(g, y.value) == y.sym
  }

  ghost predicate TokenLike(y: YaccSymbol) {
    y.value == Leaf(y.sym)
  }

  /** The stacks have equal height, spell a path of the automaton from state 0, and hold derivation
      trees. */
  ghost predicate Viable(g: Cfg, C: seq<seq<Item>>, d: Delta, c: Config) {
    && 1 <= |c.statestack| == |c.symstack|
    && c.statestack[0] == 0 && c.symstack[0] == Token(End)
    && c.state == c.statestack[|c.statestack| - 1]
    && (forall i :: 0 <= i < |c.statestack| ==> c.statestack[i] < |C|)
    && (forall i :: 1 <= i < |c.statestack| ==> Linked(d, c, i))
    && (forall i :: 1 <= i < |c.symstack| ==> Rooted(g, c.symstack[i]))
    && (c.lookahead.Some? ==> TokenLike(c.lookahead.value))
    && (forall i :: 0 <= i < |c.lookaheadstack| ==> TokenLike(c.lookaheadstack[i]))
  }

  /** The symbols before the dot of `it` are the topmost ones below height `h`, and the state under
      them holds the item with its dot at the start. */
  ghost predicate Underpinned(g: Cfg, C: seq<seq<Item>>, c: Config, h: nat, it: Item) {
    && ValidItem(g, it) && it.dot < h <= |c.statestack| == |c.symstack|
    && c.statestack[h - 1 - it.dot] < |C| && Item(it.num, 0) in C[c.statestack[h - 1 - it.dot]]
    && (forall k :: 0 <= k < it.dot ==> c.symstack[h - it.dot + k].sym == g.Rhs(it.num)[k])
  }

  lemma {:induction false} ItemsOnStack(g: Cfg, C: seq<seq<Item>>, K: seq<seq<Item>>, d: Delta, c: Config, h: nat, it: Item)
    requires Collection(g, C, K, d) && Viable(g, C, d, c) && 1 <= h <= |c.statestack| && it in C[c.statestack[h - 1]]
    ensures Underpinned(g, C, c, h, it)
    decreases it.dot
  {
    hide Collection;
    StateItems(g, C, K, d, c.statestack[h - 1], it);
    if it.dot > 0 {
      if h == 1 {
        StateZero(g, C, K, d, it);
      }
      assert Linked(d, c, h - 1);
      UnmoveItem(g, C, K, d, c.statestack[h - 2], c.symstack[h - 1].sym, it);
      ItemsOnStack(g, C, K, d, c, h - 1, Item(it.num, it.dot - 1));
    }
  }

  /** In a reduce state the goto entry for the production's name exists under its right-hand side. */
  lemma GotoExists(g: Cfg, C: seq<seq<Item>>, K: seq<seq<Item>>, d: Delta, la: LookTable, T: Tables, s: nat, p: nat)
    requires Built(g, C, K, d, la, T) && s < |C| && 1 <= p < |g.productions| && Item(p, 0) in C[s]
    ensures (s, g.productions[p].name) in d
    ensures g.productions[p].name in T.goto[s] && T.goto[s][g.productions[p].name] == d[(s, g.productions[p].name)] < |C|
  {
    var caller := InitialItem(g, C, K, d, s, Item(p, 0));
    MoveItem(g, C, K, d, s, caller, g.productions[p].name);
    assert GotoRowOk(g, d, s, T.goto[s]);
  }

  /** The stacks hold all of the right-hand side of `p`, as trees, over a state with the goto entry. */
  ghost predicate CanReduce(g: Cfg, C: seq<seq<Item>>, d: Delta, T: Tables, c: Config, p: nat) {
    && 1 <= p < |g.productions| && T.productions == g.productions
    && |g.Rhs(p)| < |c.statestack| == |c.symstack|
    && var s := c.statestack[|c.statestack| - 1 - |g.Rhs(p)|];
      && (s, g.productions[p].name) in d && s in T.goto
      && g.productions[p].name in T.goto[s] && T.goto[s][g.productions[p].name] == d[(s, g.productions[p].name)] < |C|
      && Forest(g, g.Rhs(p), Values(c.symstack[|c.symstack| - |g.Rhs(p)|..]))
  }

  lemma ReduceFinds(g: Cfg, C: seq<seq<Item>>, K: seq<seq<Item>>, d: Delta, la: LookTable, T: Tables, c: Config, p: nat)
    requires Built(g, C, K, d, la, T) && Viable(g, C, d, c) && 1 <= p < |g.productions|
    requires Item(p, |g.Rhs(p)|) in C[c.state]
    ensures CanReduce(g, C, d, T, c, p)
    ensures Item(p, 0) in C[c.statestack[|c.statestack| - 1 - |g.Rhs(p)|]]
  {
    hide Collection;
    var n, h := |g.Rhs(p)|, |c.statestack|;
    ItemsOnStack(g, C, K, d, c, h, Item(p, n));
    GotoExists(g, C, K, d, la, T, c.statestack[h - 1 - n], p);
    StackForest(g, C, d, c, p);
  }

  lemma StackForest(g: Cfg, C: seq<seq<Item>>, d: Delta, c: Config, p: nat)
    requires Viable(g, C, d, c) && 1 <= p < |g.productions|
    requires Underpinned(g, C, c, |c.statestack|, Item(p, |g.Rhs(p)|))
    ensures Forest(g, g.Rhs(p), Values(c.symstack[|c.symstack| - |g.Rhs(p)|..]))
  {
    var n, h := |g.Rhs(p)|, |c.symstack|;
    var ts := Values(c.symstack[h - n..]);
    forall k | 0 <= k < n ensures ValidTree(g, ts[k]) && Root(g, ts[k]) == g.Rhs(p)[k] {
      assert Rooted(g, c.symstack[h - n + k]);
      assert ts[k] == c.symstack[h - n..][k].value;
    }
    assert Roots(g, ts) == g.Rhs(p);
  }

  lemma FetchViable(g: Cfg, C: seq<seq<Item>>, d: Delta, c: Config)
    requires Viable(g, C, d, c)
    ensures Viable(g, C, d, Fetch(c)) && Fetch(c).lookahead.Some? && Fetch(c).status == c.status
  {
    var c' := Fetch(c);
    forall i | 1 <= i < |c'.statestack| ensures Linked(d, c', i) {
      assert Linked(d, c, i);
    }
  }

  lemma ShiftViable(g: Cfg, C: seq<seq<Item>>, K: seq<seq<Item>>, d: Delta, c: Config)
    requires Collection(g, C, K, d) && Viable(g, C, d, c) && c.lookahead.Some? && (c.state, c.lookahead.value.sym) in d
    ensures Viable(g, C, d, Shift(c, d[(c.state, c.lookahead.value.sym)]))
  {
    var c' := Shift(c, d[(c.state, c.lookahead.value.sym)]);
    forall i | 1 <= i < |c'.statestack| ensures Linked(d, c', i) && Rooted(g, c'.symstack[i]) {
      if i < |c.statestack| {
        assert Linked(d, c, i) && Rooted(g, c.symstack[i]);
      }
    }
  }

  lemma ReduceViable(g: Cfg, C: seq<seq<Item>>, K: seq<seq<Item>>, d: Delta, la: LookTable, T: Tables, c: Config, p: nat)
    requires Built(g, C, K, d, la, T) && Viable(g, C, d, c) && 1 <= p < |g.productions|
    requires Item(p, |g.Rhs(p)|) in C[c.state]
    ensures Reduce(T, c, p).status == c.status && Viable(g, C, d, Reduce(T, c, p))
  {
    ReduceFinds(g, C, K, d, la, T, c, p);
    hide *;
    ReducedViable(g, C, d, T, c, p);
  }

  lemma ReducedViable(g: Cfg, C: seq<seq<Item>>, d: Delta, T: Tables, c: Config, p: nat)
    requires Viable(g, C, d, c) && CanReduce(g, C, d, T, c, p)
    ensures Reduce(T, c, p).status == c.status && Viable(g, C, d, Reduce(T, c, p))
  {
    ReducedStacks(g, C, d, T, c, p);
    var c', m := Reduce(T, c, p), |c.statestack| - |g.Rhs(p)|;
    assert c'.statestack[m - 1] == c'.statestack[..m][m - 1];
    ReducedLinks(g, C, d, c, c', m);
  }

  /** The configuration after a reduction, spelled out. */
  lemma ReducedStacks(g: Cfg, C: seq<seq<Item>>, d: Delta, T: Tables, c: Config, p: nat)
    requires CanReduce(g, C, d, T, c, p)
    ensures var c', n := Reduce(T, c, p), |g.Rhs(p)|;
      var s, m := c.statestack[|c.statestack| - 1 - n], |c.statestack| - n;
      && c'.status == c.status && c'.lookahead == c.lookahead && c'.lookaheadstack == c.lookaheadstack && c'.input == c.input
      && |c'.statestack| == |c'.symstack| == m + 1
      && c'.statestack[..m] == c.statestack[..m] && c'.symstack[..m] == c.symstack[..m]
      && c'.statestack[m] == c'.state == d[(s, g.productions[p].name)]
      && c'.symstack[m] == YaccSymbol(g.productions[p].name, Node(p, Values(c.symstack[m..])))
      && Rooted(g, c'.symstack[m])
  {
    var n, m := |g.Rhs(p)|, |c.statestack| - |g.Rhs(p)|;
    assert c.statestack[..m][m - 1] == c.statestack[m - 1];
  }

  lemma ReducedLinks(g: Cfg, C: seq<seq<Item>>, d: Delta, c: Config, c': Config, m: nat)
    requires Viable(g, C, d, c) && 1 <= m <= |c.statestack|
    requires |c'.statestack| == |c'.symstack| == m + 1
    requires c'.statestack[..m] == c.statestack[..m] && c'.symstack[..m] == c.symstack[..m]
    requires Rooted(g, c'.symstack[m]) && Linked(d, c', m) && c'.statestack[m] < |C| && c'.state == c'.statestack[m]
    requires c'.lookahead == c.lookahead && c'.lookaheadstack == c.lookaheadstack
    ensures Viable(g, C, d, c')
  {
    assert forall i :: 0 <= i < m ==> c'.statestack[i] == c'.statestack[..m][i] == c.statestack[i];
    assert forall i :: 0 <= i < m ==> c'.symstack[i] == c'.symstack[..m][i] == c.symstack[i];
    forall i | 1 <= i < m + 1 ensures Linked(d, c', i) && Rooted(g, c'.symstack[i]) {
      if i < m {
        assert Linked(d, c, i) && Rooted(g, c.symstack[i]);
      }
    }
  }

  lemma RecoverViable(g: Cfg, C: seq<seq<Item>>, d: Delta, h: bool, c: Config)
    requires Viable(g, C, d, c) && c.lookahead.Some?
    ensures Viable(g, C, d, Recover(h, c)) && (c.status != Crashed ==> Recover(h, c).status != Crashed)
    ensures !Recover(h, c).status.Returned? || Recover(h, c).status == Returned(None) || Recover(h, c).status == c.status
  {
    var c' := Recover(h, c);
    forall i | 1 <= i < |c'.statestack| ensures Linked(d, c', i) {
      assert Linked(d, c, i);
    }
  }

  /** The action looked up is one that the collection offers. */
  lemma ActionOffered(g: Cfg, C: seq<seq<Item>>, K: seq<seq<Item>>, d: Delta, la: LookTable, T: Tables, q: nat, a: Symbol, t: int)
    requires Built(g, C, K, d, la, T) && q < |C| && Lookup(T.action[q], a) == Some(t)
    ensures Offers(g, C, d, la, q, a, t)
  {
    assert RowOk(g, C, d, la, q, T.action[q]);
  }

  /** Every round keeps the prefix viable and raises no exception, whatever way conflicts in the
      tables were settled and even through error recovery. */
  lemma StepViable(g: Cfg, C: seq<seq<Item>>, K: seq<seq<Item>>, d: Delta, la: LookTable, T: Tables, h: bool, c: Config)
    requires Built(g, C, K, d, la, T) && Viable(g, C, d, c) && c.status == Running
    ensures Step(T, h, c).status != Crashed && Viable(g, C, d, Step(T, h, c))
  {
    hide Viable, Collection, Reduce, Shift, Recover, RowOk, GotoRowOk;
    FetchViable(g, C, d, c);
    var c := Fetch(c);
    ViableFacts(g, C, d, c);
    var a := c.lookahead.value.sym;
    match Lookup(T.action[c.state], a)
    case None => RecoverViable(g, C, d, h, c);
    case Some(t) =>
      ActionOffered(g, C, K, d, la, T, c.state, a, t);
      if t > 0 {
        ShiftViable(g, C, K, d, c);
        ShiftStatus(c, t);
      } else if t < 0 {
        ReduceViable(g, C, K, d, la, T, c, -t);
      } else {
        StatusViable(g, C, d, c, Returned(Some(c.symstack[|c.symstack| - 1].value)));
      }
  }

  lemma ShiftStatus(c: Config, t: nat)
    requires c.lookahead.Some?
    ensures Shift(c, t).status == c.status
  {
  }

  lemma StatusViable(g: Cfg, C: seq<seq<Item>>, d: Delta, c: Config, s: Status)
    requires Viable(g, C, d, c)
    ensures Viable(g, C, d, c.(status := s))
  {
    forall i | 1 <= i < |c.statestack| ensures Linked(d, c.(status := s), i) {
      assert Linked(d, c, i);
    }
  }

  lemma ViableFacts(g: Cfg, C: seq<seq<Item>>, d: Delta, c: Config)
    requires Viable(g, C, d, c)
    ensures 1 <= |c.statestack| == |c.symstack| && c.state < |C|
  {
  }

  lemma {:induction false} RunViable(g: Cfg, C: seq<seq<Item>>, K: seq<seq<Item>>, d: Delta, la: LookTable, T: Tables,
                                     h: bool, c: Config, n: nat)
    requires Built(g, C, K, d, la, T) && Viable(g, C, d, c) && c.status != Crashed
    ensures Run(T, h, c, n).status != Crashed && Viable(g, C, d, Run(T, h, c, n))
    decreases n
  {
    hide Built, Viable;
    if n > 0 && c.status == Running {
      StepViable(g, C, K, d, la, T, h, c);
      RunViable(g, C, K, d, la, T, h, Step(T, h, c), n - 1);
    }
  }

  lemma InitialViable(g: Cfg, C: seq<seq<Item>>, K: seq<seq<Item>>, d: Delta, w: seq<Symbol>)
    requires Collection(g, C, K, d)
    ensures Viable(g, C, d, Initial(w))
  {
  }

  /** In every configuration that a parse can reach: no exception, stacks of equal height, and each
      item of the top state underpinned by the stacks. */
  lemma ViablePrefix(g: Cfg, C: seq<seq<Item>>, K: seq<seq<Item>>, d: Delta, la: LookTable, T: Tables, h: bool, w: seq<Symbol>, n: nat)
    requires Built(g, C, K, d, la, T)
    ensures var c := Run(T, h, Initial(w), n);
      && c.status != Crashed
      && 1 <= |c.statestack| == |c.symstack| && c.state == c.statestack[|c.statestack| - 1] < |C|
      && forall it :: it in C[c.state] ==> Underpinned(g, C, c, |c.statestack|, it)
  {
    InitialViable(g, C, K, d, w);
    RunViable(g, C, K, d, la, T, h, Initial(w), n);
    var c := Run(T, h, Initial(w), n);
    forall it | it in C[c.state] ensures Underpinned(g, C, c, |c.statestack|, it) {
      ItemsOnStack(g, C, K, d, c, |c.statestack|, it);
    }
  }
}
