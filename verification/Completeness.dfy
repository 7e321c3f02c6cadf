/** Completeness: with adequate lookaheads and no conflicting offers the engine accepts every token
    sequence of the language without a syntax error, and returns the very tree that derives it. */
module Completeness {
  import opened Lists
  import opened Grammars
  import opened GrammarFacts
  import opened Items
  import opened ParserTables
  import opened Engine
  import opened EngineFacts
  import opened Soundness

  /** Tables without conflicts whose lookaheads are large enough. */
  ghost predicate Deterministic(g: Cfg, C: seq<seq<Item>>, K: seq<seq<Item>>, d: Delta, fol: FollowMap, la: LookTable, T: Tables) {
    Built(g, C, K, d, la, T) && Adequate(g, C, d, fol, la) && ConflictFree(g, C, d, la)
  }

  /** A configuration between rounds with no error in sight. */
  ghost predicate Ready(g: Cfg, C: seq<seq<Item>>, d: Delta, c: Config) {
    && Viable(g, C, d, c) && c.status == Running && c.lookaheadstack == []
    && (c.lookahead.Some? && c.lookahead.value.sym == End ==> c.input == [])
    && End !in c.input
  }

  /** The next token, `$end` when there is none. */
  function NextSymbol(w: seq<Symbol>): Symbol {
    if w == [] then End else w[0]
  }

  lemma FetchReady(g: Cfg, C: seq<seq<Item>>, d: Delta, c: Config)
    requires Ready(g, C, d, c)
    ensures Ready(g, C, d, Fetch(c)) && Fetch(c).lookahead.Some? && Fetch(c).lookahead.value == Token(NextSymbol(Pending(c)))
    ensures Fetch(c).lookahead.value.sym == NextSymbol(Pending(c)) && Pending(Fetch(c)) == Pending(c)
    ensures Fetch(c).statestack == c.statestack && Fetch(c).symstack == c.symstack && Fetch(c).state == c.state < |C|
  {
    hide Viable;
    FetchViable(g, C, d, c);
    ViableFacts(g, C, d, c);
    if c.lookahead.Some? {
      ViableToken(g, C, d, c);
    } else if c.input != [] {
      assert c.input[0] in c.input;
      assert [c.input[0]] + c.input[1..] == c.input;
    }
  }

  /** An action offered for the next token is the one taken. */
  lemma OfferTaken(g: Cfg, C: seq<seq<Item>>, K: seq<seq<Item>>, d: Delta, fol: FollowMap, la: LookTable, T: Tables,
                   h: bool, c: Config, act: int)
    requires Deterministic(g, C, K, d, fol, la, T) && Ready(g, C, d, c)
    requires Offers(g, C, d, la, c.state, NextSymbol(Pending(c)), act)
    ensures !Errs(T, c) && c.state in T.action
    ensures Lookup(T.action[c.state], NextSymbol(Pending(c))) == Some(act)
  {
    hide Ready, Adequate, Collection, Viable;
    FetchReady(g, C, d, c);
    assert RowOk(g, C, d, la, c.state, T.action[c.state]);
    assert Unanimous(g, C, d, la, c.state, NextSymbol(Pending(c)));
  }

  lemma ShiftToken(g: Cfg, C: seq<seq<Item>>, K: seq<seq<Item>>, d: Delta, fol: FollowMap, la: LookTable, T: Tables,
                   h: bool, c: Config, a: Symbol, rest: seq<Symbol>, it: Item)
    requires Deterministic(g, C, K, d, fol, la, T) && Ready(g, C, d, c)
    requires a in g.terminals && Pending(c) == [a] + rest
    requires c.state < |C| && it in C[c.state] && DotBefore(g, it, a)
    ensures RunsClean(T, h, c, 1) && Parsed(g, C, d, c, Run(T, h, c, 1), a, Leaf(a), rest)
  {
    hide Viable, Collection, Adequate, Filled, ConflictFree;
    MoveItem(g, C, K, d, c.state, it, a);
    StateBound(g, C, K, d, c.state, a);
    assert OffersShift(g, C, d, c.state, a, it);
    OfferTaken(g, C, K, d, fol, la, T, h, c, d[(c.state, a)]);
    FetchReady(g, C, d, c);
    RunOne(T, h, c);
    var f := Fetch(c);
    ShiftViable(g, C, K, d, f);
    assert Pending(f) == [a] + f.input;
    assert f.input == ([a] + f.input)[1..] == ([a] + rest)[1..] == rest;
  }

  /** From `c` the engine has got to `c'` by parsing the tree `t` with root `x`, leaving `rest`. */
  ghost predicate Parsed(g: Cfg, C: seq<seq<Item>>, d: Delta, c: Config, c': Config, x: Symbol, t: Tree, rest: seq<Symbol>) {
    && Ready(g, C, d, c') && Pending(c') == rest
    && (c.state, x) in d && c'.state == d[(c.state, x)]
    && c'.statestack == c.statestack + [d[(c.state, x)]]
    && c'.symstack == c.symstack + [YaccSymbol(x, t)]
  }

  /** The first `i` children of a production started at `c0` have been parsed. */
  ghost predicate Midway(g: Cfg, C: seq<seq<Item>>, d: Delta, c0: Config, c: Config, p: nat, kids: seq<Tree>, i: nat, pending: seq<Symbol>) {
    && Ready(g, C, d, c) && Pending(c) == pending
    && p < |g.productions| && i <= |kids| == |g.Rhs(p)|
    && Walk(d, c0.state, g.Rhs(p)[..i]) == Some(c.state)
    && |c.statestack| == |c0.statestack| + i && c0.statestack <= c.statestack
    && |c.symstack| == |c0.symstack| + i && c0.symstack <= c.symstack
    && (forall k :: 0 <= k < i ==> c.symstack[|c0.symstack| + k].value == kids[k])
  }

  /** For `n` rounds the stacks of `base` stay at the bottom of the stacks, and the loop goes on. */
  ghost predicate Keeps(T: Tables, h: bool, c: Config, n: nat, base: Config) {
    forall m: nat :: m <= n ==> Kept(Run(T, h, c, m), base)
  }

  ghost predicate Kept(c: Config, base: Config) {
    c.status == Running && base.statestack <= c.statestack && base.symstack <= c.symstack
  }

  lemma KeepsPlus(T: Tables, h: bool, c: Config, m: nat, n: nat, base: Config)
    requires Keeps(T, h, c, m, base) && Keeps(T, h, Run(T, h, c, m), n, base)
    ensures Keeps(T, h, c, m + n, base)
  {
    hide Run;
    forall k: nat | k <= m + n ensures Kept(Run(T, h, c, k), base) {
      if k > m {
        RunPlus(T, h, c, m, k - m);
        assert Kept(Run(T, h, Run(T, h, c, m), k - m), base);
      }
    }
  }

  lemma KeepsNothing(T: Tables, h: bool, c: Config, base: Config)
    requires Kept(c, base)
    ensures Keeps(T, h, c, 0, base)
  {
  }

  lemma KeepsOne(T: Tables, h: bool, c: Config, base: Config)
    requires Kept(c, base) && Kept(Run(T, h, c, 1), base)
    ensures Keeps(T, h, c, 1, base)
  {
    hide Run;
    assert Run(T, h, c, 0) == c by {
      RunStep(T, h, c, 0);
    }
  }

  /** The height of the leftmost branch. */
  function Spine(t: Tree): nat {
    match t
    case Leaf(_) => 0
    case Node(_, kids) => if kids == [] then 1 else 1 + Spine(kids[0])
  }

  /** The engine parses a whole tree from a state that expects its root, in at least as many rounds as
      its leftmost branch is high, and without touching what is on the stacks. */
  lemma {:induction false} ParseTree(g: Cfg, C: seq<seq<Item>>, K: seq<seq<Item>>, d: Delta, fol: FollowMap, la: LookTable,
                                     T: Tables, h: bool, c: Config, t: Tree, rest: seq<Symbol>, it: Item) returns (n: nat)
    requires Deterministic(g, C, K, d, fol, la, T) && Ready(g, C, d, c)
    requires ValidTree(g, t) && Terminals(g, Yield(t)) && Pending(c) == Yield(t) + rest
    requires c.state < |C| && it in C[c.state] && DotBefore(g, it, Root(g, t))
    requires Root(g, t) in g.nonterminals ==>
               (c.state, Root(g, t)) in fol && NextSymbol(rest) in fol[(c.state, Root(g, t))]
    ensures RunsClean(T, h, c, n) && Parsed(g, C, d, c, Run(T, h, c, n), Root(g, t), t, rest)
    ensures Keeps(T, h, c, n, c) && n >= Spine(t)
    decreases t, 1
  {
    hide Deterministic, Ready, Parsed, Midway, Offers, Keeps, Kept, Run;
    WellFormedOf(g, C, K, d, fol, la, T);
    ReadyKept(g, C, d, c);
    match t
    case Leaf(a) =>
      assert Yield(t)[0] == a;
      ShiftToken(g, C, K, d, fol, la, T, h, c, a, rest, it);
      n := 1;
      ParsedKept(g, C, d, c, Run(T, h, c, 1), a, t, rest);
      KeepsOne(T, h, c, c);
    case Node(p, kids) =>
      StartKids(g, C, K, d, fol, la, T, c, p, kids, it, Yields(kids) + rest);
      assert kids[0..] == kids;
      n := ParseKids(g, C, K, d, fol, la, T, h, c, c, t, 0, rest);
      var c' := Run(T, h, c, n);
      ReduceKids(g, C, K, d, fol, la, T, h, c, c', p, kids, rest);
      RunPlus(T, h, c, n, 1);
      MidwayKept(g, C, d, c, c', p, kids, |kids|, rest);
      ParsedKept(g, C, d, c, Run(T, h, c', 1), Root(g, t), t, rest);
      KeepsOne(T, h, c', c);
      KeepsPlus(T, h, c, n, 1, c);
      n := n + 1;
  }

  lemma ReadyKept(g: Cfg, C: seq<seq<Item>>, d: Delta, c: Config)
    requires Ready(g, C, d, c)
    ensures Kept(c, c)
  {
    hide Viable;
  }

  lemma ParsedKept(g: Cfg, C: seq<seq<Item>>, d: Delta, c: Config, c': Config, x: Symbol, t: Tree, rest: seq<Symbol>)
    requires Parsed(g, C, d, c, c', x, t, rest)
    ensures Kept(c', c)
  {
    hide Viable;
  }

  lemma MidwayKept(g: Cfg, C: seq<seq<Item>>, d: Delta, c0: Config, c: Config, p: nat, kids: seq<Tree>, i: nat, pending: seq<Symbol>)
    requires Midway(g, C, d, c0, c, p, kids, i, pending)
    ensures Kept(c, c0)
  {
    hide Viable;
  }

  lemma WellFormedOf(g: Cfg, C: seq<seq<Item>>, K: seq<seq<Item>>, d: Delta, fol: FollowMap, la: LookTable, T: Tables)
    requires Deterministic(g, C, K, d, fol, la, T)
    ensures g.WellFormed() && Collection(g, C, K, d) && Built(g, C, K, d, la, T)
  {
  }

  lemma StartKids(g: Cfg, C: seq<seq<Item>>, K: seq<seq<Item>>, d: Delta, fol: FollowMap, la: LookTable, T: Tables,
                  c: Config, p: nat, kids: seq<Tree>, it: Item, pending: seq<Symbol>)
    requires Deterministic(g, C, K, d, fol, la, T) && Ready(g, C, d, c) && Pending(c) == pending
    requires p < |g.productions| && Roots(g, kids) == g.Rhs(p)
    requires c.state < |C| && it in C[c.state] && DotBefore(g, it, g.productions[p].name)
    ensures p > 0 && Item(p, 0) in C[c.state] && Midway(g, C, d, c, c, p, kids, 0, pending)
  {
    hide Adequate, Filled, ConflictFree, Viable;
    assert p > 0 by {
      assert g.Rhs(it.num)[it.dot] in g.terminals + g.nonterminals;
    }
    CloseItem(g, C, K, d, c.state, it, p);
    assert |Roots(g, kids)| == |kids|;
    assert g.Rhs(p)[..0] == [];
  }

  /** The engine parses the children of a node from index `i` on. */
  lemma {:induction false} ParseKids(g: Cfg, C: seq<seq<Item>>, K: seq<seq<Item>>, d: Delta, fol: FollowMap, la: LookTable,
                                     T: Tables, h: bool, c0: Config, c: Config, t: Tree, i: nat, rest: seq<Symbol>) returns (n: nat)
    requires Deterministic(g, C, K, d, fol, la, T)
    requires t.Node? && ValidTree(g, t) && Terminals(g, Yields(t.kids)) && i <= |t.kids|
    requires Midway(g, C, d, c0, c, t.prod, t.kids, i, Yields(t.kids[i..]) + rest)
    requires t.prod > 0 && c0.state < |C| && Item(t.prod, 0) in C[c0.state]
    requires (c0.state, Root(g, t)) in fol && NextSymbol(rest) in fol[(c0.state, Root(g, t))]
    ensures RunsClean(T, h, c, n) && Midway(g, C, d, c0, Run(T, h, c, n), t.prod, t.kids, |t.kids|, rest)
    ensures Keeps(T, h, c, n, c0) && n >= if i < |t.kids| then Spine(t.kids[i]) else 0
    decreases t, 0, |t.kids| - i
  {
    hide Deterministic, Ready, Parsed, Midway, Offers, Keeps, Kept, Run;
    var p, kids := t.prod, t.kids;
    MidwayKept(g, C, d, c0, c, p, kids, i, Yields(kids[i..]) + rest);
    if i == |kids| {
      n := 0;
      RunStep(T, h, c, 0);
      KeepsNothing(T, h, c, c0);
      assert Yields(kids[i..]) + rest == rest;
    } else {
      var kid, more := kids[i], Yields(kids[i + 1..]) + rest;
      KidExpected(g, C, K, d, fol, la, T, c0, c, t, i, rest);
      KidShape(g, p, kids, i, rest);
      n := ParseTree(g, C, K, d, fol, la, T, h, c, kid, more, Item(p, i));
      var c' := Run(T, h, c, n);
      KidParsed(g, C, d, c0, c, c', p, kids, i, more);
      var m := ParseKids(g, C, K, d, fol, la, T, h, c0, c', t, i + 1, rest);
      RunPlus(T, h, c, n, m);
      KeepsBelow(T, h, c, n, c, c0);
      KeepsPlus(T, h, c, n, m, c0);
      n := n + m;
    }
  }

  lemma KeepsBelow(T: Tables, h: bool, c: Config, n: nat, base: Config, lower: Config)
    requires Keeps(T, h, c, n, base) && Kept(base, lower)
    ensures Keeps(T, h, c, n, lower)
  {
    hide Run;
  }

  /** The child at index `i` meets the conditions for being parsed. */
  lemma KidExpected(g: Cfg, C: seq<seq<Item>>, K: seq<seq<Item>>, d: Delta, fol: FollowMap, la: LookTable, T: Tables,
                    c0: Config, c: Config, t: Tree, i: nat, rest: seq<Symbol>)
    requires Deterministic(g, C, K, d, fol, la, T)
    requires t.Node? && ValidTree(g, t) && Terminals(g, Yields(t.kids)) && i < |t.kids|
    requires Midway(g, C, d, c0, c, t.prod, t.kids, i, Yields(t.kids[i..]) + rest)
    requires t.prod > 0 && c0.state < |C| && Item(t.prod, 0) in C[c0.state]
    requires (c0.state, Root(g, t)) in fol && NextSymbol(rest) in fol[(c0.state, Root(g, t))]
    ensures var kid, more := t.kids[i], Yields(t.kids[i + 1..]) + rest;
      && Ready(g, C, d, c) && ValidTree(g, kid) && Terminals(g, Yield(kid)) && Pending(c) == Yield(kid) + more
      && c.state < |C| && Item(t.prod, i) in C[c.state] && DotBefore(g, Item(t.prod, i), Root(g, kid))
      && (Root(g, kid) in g.nonterminals ==>
            (c.state, Root(g, kid)) in fol && NextSymbol(more) in fol[(c.state, Root(g, kid))])
  {
    var p, kids := t.prod, t.kids;
    KidShape(g, p, kids, i, rest);
    assert Ready(g, C, d, c) && Walk(d, c0.state, g.Rhs(p)[..i]) == Some(c.state);
    hide Ready, Midway;
    KidState(g, C, K, d, fol, la, T, c0.state, c.state, p, i);
    if Root(g, kids[i]) in g.nonterminals {
      KidLookahead(g, C, K, d, fol, la, T, c0.state, c.state, p, kids, i, rest);
    }
  }

  lemma KidShape(g: Cfg, p: nat, kids: seq<Tree>, i: nat, rest: seq<Symbol>)
    requires p < |g.productions| && Forest(g, g.Rhs(p), kids) && i < |kids| && Terminals(g, Yields(kids))
    ensures |kids| == |g.Rhs(p)| && Root(g, kids[i]) == g.Rhs(p)[i] && ValidTree(g, kids[i])
    ensures Terminals(g, Yield(kids[i])) && Terminals(g, Yields(kids[i + 1..]))
    ensures Yields(kids[i..]) + rest == Yield(kids[i]) + (Yields(kids[i + 1..]) + rest)
  {
    ForestSuffix(g, g.Rhs(p), kids, i);
    YieldPart(kids, i);
    var before, mine, after := Yields(kids[..i]), Yield(kids[i]), Yields(kids[i + 1..]);
    forall k | 0 <= k < |mine| ensures mine[k] in g.terminals {
      assert Yields(kids)[|before| + k] == mine[k];
    }
    forall k | 0 <= k < |after| ensures after[k] in g.terminals {
      assert Yields(kids)[|before| + |mine| + k] == after[k];
    }
    assert kids[i..] == [kids[i]] + kids[i + 1..];
  }

  lemma KidState(g: Cfg, C: seq<seq<Item>>, K: seq<seq<Item>>, d: Delta, fol: FollowMap, la: LookTable, T: Tables,
                 q: nat, r: nat, p: nat, i: nat)
    requires Deterministic(g, C, K, d, fol, la, T)
    requires q < |C| && p < |g.productions| && Item(p, 0) in C[q] && i < |g.Rhs(p)| && Walk(d, q, g.Rhs(p)[..i]) == Some(r)
    ensures r < |C| && Item(p, i) in C[r] && DotBefore(g, Item(p, i), g.Rhs(p)[i])
  {
    WalkItem(g, C, K, d, q, p, i);
  }

  lemma KidLookahead(g: Cfg, C: seq<seq<Item>>, K: seq<seq<Item>>, d: Delta, fol: FollowMap, la: LookTable, T: Tables,
                     q: nat, r: nat, p: nat, kids: seq<Tree>, i: nat, rest: seq<Symbol>)
    requires Deterministic(g, C, K, d, fol, la, T)
    requires q < |C| && 1 <= p < |g.productions| && Item(p, 0) in C[q] && i < |g.Rhs(p)| && Walk(d, q, g.Rhs(p)[..i]) == Some(r)
    requires Forest(g, g.Rhs(p), kids) && g.Rhs(p)[i] in g.nonterminals && i < |kids| && Terminals(g, Yields(kids[i + 1..]))
    requires (q, g.productions[p].name) in fol && NextSymbol(rest) in fol[(q, g.productions[p].name)]
    ensures (r, g.Rhs(p)[i]) in fol && NextSymbol(Yields(kids[i + 1..]) + rest) in fol[(r, g.Rhs(p)[i])]
  {
    hide Built, ConflictFree;
    ForestSuffix(g, g.Rhs(p), kids, i);
    var after := Yields(kids[i + 1..]);
    ForestDerives(g, g.Rhs(p)[i + 1..], kids[i + 1..]);
    assert AdequateAt(g, C, d, fol, q, p, i);
    if after == [] {
      assert after + rest == rest;
    } else {
      assert after == [after[0]] + after[1..];
      assert CanStart(g, g.Rhs(p)[i + 1..], after[0]);
    }
  }

  lemma KidParsed(g: Cfg, C: seq<seq<Item>>, d: Delta, c0: Config, c: Config, c': Config, p: nat, kids: seq<Tree>, i: nat, more: seq<Symbol>)
    requires i < |kids| && Midway(g, C, d, c0, c, p, kids, i, Yield(kids[i]) + more)
    requires Root(g, kids[i]) == g.Rhs(p)[i]
    requires Parsed(g, C, d, c, c', g.Rhs(p)[i], kids[i], more)
    ensures Midway(g, C, d, c0, c', p, kids, i + 1, more)
  {
    hide Ready;
    assert g.Rhs(p)[..i + 1] == g.Rhs(p)[..i] + [g.Rhs(p)[i]];
    WalkSnoc(d, c0.state, g.Rhs(p)[..i], g.Rhs(p)[i]);
  }

  /** With all its children parsed, a node is reduced. */
  lemma ReduceKids(g: Cfg, C: seq<seq<Item>>, K: seq<seq<Item>>, d: Delta, fol: FollowMap, la: LookTable, T: Tables,
                   h: bool, c0: Config, c: Config, p: nat, kids: seq<Tree>, rest: seq<Symbol>)
    requires Deterministic(g, C, K, d, fol, la, T) && Ready(g, C, d, c0)
    requires 1 <= p < |g.productions| && Midway(g, C, d, c0, c, p, kids, |kids|, rest)
    requires c0.state < |C| && Item(p, 0) in C[c0.state]
    requires (c0.state, g.productions[p].name) in fol && NextSymbol(rest) in fol[(c0.state, g.productions[p].name)]
    ensures RunsClean(T, h, c, 1) && Parsed(g, C, d, c0, Run(T, h, c, 1), g.productions[p].name, Node(p, kids), rest)
  {
    hide *;
    ReduceOffered(g, C, K, d, fol, la, T, c0, c, p, kids, rest);
    MidwayReady(g, C, d, c0, c, p, kids, |kids|, rest);
    OfferTaken(g, C, K, d, fol, la, T, h, c, 0 - p);
    FetchReady(g, C, d, c);
    RunOne(T, h, c);
    StepReduces(T, h, c, p);
    ReducedTo(g, C, K, d, fol, la, T, c0, c, Fetch(c), p, kids, rest);
  }

  lemma MidwayReady(g: Cfg, C: seq<seq<Item>>, d: Delta, c0: Config, c: Config, p: nat, kids: seq<Tree>, i: nat, pending: seq<Symbol>)
    requires Midway(g, C, d, c0, c, p, kids, i, pending)
    ensures Ready(g, C, d, c) && Pending(c) == pending && c.status == Running && Fetch(c).status == Running
  {
  }

  lemma StepReduces(T: Tables, h: bool, c: Config, p: nat)
    requires c.status == Running && c.state in T.action && p > 0 && Fetch(c).state == c.state
    requires Fetch(c).lookahead.Some? && Lookup(T.action[c.state], Fetch(c).lookahead.value.sym) == Some(0 - p)
    ensures Step(T, h, c) == Reduce(T, Fetch(c), p)
  {
  }

  lemma ReduceOffered(g: Cfg, C: seq<seq<Item>>, K: seq<seq<Item>>, d: Delta, fol: FollowMap, la: LookTable, T: Tables,
                      c0: Config, c: Config, p: nat, kids: seq<Tree>, rest: seq<Symbol>)
    requires Deterministic(g, C, K, d, fol, la, T)
    requires 1 <= p < |g.productions| && Midway(g, C, d, c0, c, p, kids, |kids|, rest)
    requires c0.state < |C| && Item(p, 0) in C[c0.state]
    requires (c0.state, g.productions[p].name) in fol && NextSymbol(rest) in fol[(c0.state, g.productions[p].name)]
    ensures c.state < |C| && Item(p, |g.Rhs(p)|) in C[c.state] && Offers(g, C, d, la, c.state, NextSymbol(Pending(c)), 0 - p)
  {
    hide *;
    WellFormedOf(g, C, K, d, fol, la, T);
    MidwayDone(g, C, d, c0, c, p, kids, rest);
    WalkItem(g, C, K, d, c0.state, p, |kids|);
    LooksOffered(g, C, K, d, fol, la, T, c0.state, c.state, p, NextSymbol(rest));
  }

  lemma MidwayDone(g: Cfg, C: seq<seq<Item>>, d: Delta, c0: Config, c: Config, p: nat, kids: seq<Tree>, rest: seq<Symbol>)
    requires p < |g.productions| && Midway(g, C, d, c0, c, p, kids, |kids|, rest)
    ensures |kids| == |g.Rhs(p)| && g.Rhs(p)[..|kids|] == g.Rhs(p) && Walk(d, c0.state, g.Rhs(p)) == Some(c.state)
    ensures Pending(c) == rest
  {
    hide Ready, Walk;
    assert g.Rhs(p)[..|kids|] == g.Rhs(p);
  }

  lemma LooksOffered(g: Cfg, C: seq<seq<Item>>, K: seq<seq<Item>>, d: Delta, fol: FollowMap, la: LookTable, T: Tables,
                     q: nat, r: nat, p: nat, a: Symbol)
    requires Deterministic(g, C, K, d, fol, la, T) && q < |C| && r < |C| && 1 <= p < |g.productions|
    requires Item(p, 0) in C[q] && Item(p, |g.Rhs(p)|) in C[r] && Walk(d, q, g.Rhs(p)) == Some(r)
    requires (q, g.productions[p].name) in fol && a in fol[(q, g.productions[p].name)]
    ensures Offers(g, C, d, la, r, a, 0 - p)
  {
    hide Built, ConflictFree, AdequateAt, Walk;
    assert LooksAt(g, C, d, fol, la, q, p);
    assert OffersReduce(g, C, la, r, a, p);
  }

  lemma ReducedTo(g: Cfg, C: seq<seq<Item>>, K: seq<seq<Item>>, d: Delta, fol: FollowMap, la: LookTable, T: Tables,
                  c0: Config, c: Config, f: Config, p: nat, kids: seq<Tree>, rest: seq<Symbol>)
    requires Deterministic(g, C, K, d, fol, la, T) && Ready(g, C, d, c0)
    requires 1 <= p < |g.productions| && Midway(g, C, d, c0, c, p, kids, |kids|, rest)
    requires Ready(g, C, d, f) && Pending(f) == rest && f.statestack == c.statestack && f.symstack == c.symstack && f.state == c.state
    requires c.state < |C| && Item(p, |g.Rhs(p)|) in C[c.state]
    ensures Parsed(g, C, d, c0, Reduce(T, f, p), g.productions[p].name, Node(p, kids), rest)
  {
    ReduceFinds(g, C, K, d, la, T, f, p);
    KidsOnTop(g, C, d, c0, c, p, kids, rest);
    hide *;
    ParsedByReduce(g, C, d, T, c0, c, f, p, kids, rest);
  }

  lemma KidsOnTop(g: Cfg, C: seq<seq<Item>>, d: Delta, c0: Config, c: Config, p: nat, kids: seq<Tree>, rest: seq<Symbol>)
    requires Ready(g, C, d, c0) && Midway(g, C, d, c0, c, p, kids, |kids|, rest)
    ensures p < |g.productions| && |g.Rhs(p)| == |kids| && |c.statestack| == |c0.statestack| + |kids|
    ensures |c.symstack| == |c.statestack| && |c0.symstack| == |c0.statestack| >= 1
    ensures c0.statestack <= c.statestack && c0.symstack <= c.symstack
    ensures c0.state == c0.statestack[|c0.statestack| - 1]
    ensures Values(c.symstack[|c0.symstack|..]) == kids
  {
  }

  lemma ParsedByReduce(g: Cfg, C: seq<seq<Item>>, d: Delta, T: Tables, c0: Config, c: Config, f: Config, p: nat, kids: seq<Tree>, rest: seq<Symbol>)
    requires Ready(g, C, d, f) && Pending(f) == rest && f.statestack == c.statestack && f.symstack == c.symstack && f.state == c.state
    requires CanReduce(g, C, d, T, f, p) && |g.Rhs(p)| == |kids|
    requires |c.statestack| == |c0.statestack| + |kids| && |c.symstack| == |c.statestack| && |c0.symstack| == |c0.statestack| >= 1
    requires c0.statestack <= c.statestack && c0.symstack <= c.symstack
    requires c0.state == c0.statestack[|c0.statestack| - 1]
    requires Values(c.symstack[|c0.symstack|..]) == kids
    ensures Parsed(g, C, d, c0, Reduce(T, f, p), g.productions[p].name, Node(p, kids), rest)
  {
    ReducedViable(g, C, d, T, f, p);
    ReducedStacks(g, C, d, T, f, p);
    var r, m := Reduce(T, f, p), |c0.statestack|;
    hide Viable, Reduce;
    assert f.symstack[..m] == c0.symstack && f.statestack[..m] == c0.statestack;
    assert r.statestack == r.statestack[..m] + [r.statestack[m]] && r.symstack == r.symstack[..m] + [r.symstack[m]];
  }

  /** Every derivation tree of a terminal string is found: the run has no syntax error and returns
      exactly that tree. */
  lemma DerivationIsAccepted(g: Cfg, C: seq<seq<Item>>, K: seq<seq<Item>>, d: Delta, fol: FollowMap, la: LookTable,
                             T: Tables, h: bool, t: Tree) returns (n: nat)
    requires Deterministic(g, C, K, d, fol, la, T)
    requires ValidTree(g, t) && Root(g, t) == g.Start() && Terminals(g, Yield(t))
    ensures RunsClean(T, h, Initial(Yield(t)), n) && Run(T, h, Initial(Yield(t)), n).status == Returned(Some(t))
  {
    hide *;
    var w := Yield(t);
    var c := Initial(w);
    InitialReady(g, C, K, d, fol, la, T, w);
    n := ParseTree(g, C, K, d, fol, la, T, h, c, t, [], Item(0, 0));
    AcceptTaken(g, C, K, d, fol, la, T, h, c, Run(T, h, c, n), t);
    RunPlus(T, h, c, n, 1);
    n := n + 1;
  }

  lemma InitialReady(g: Cfg, C: seq<seq<Item>>, K: seq<seq<Item>>, d: Delta, fol: FollowMap, la: LookTable, T: Tables, w: seq<Symbol>)
    requires Deterministic(g, C, K, d, fol, la, T) && Terminals(g, w)
    ensures Ready(g, C, d, Initial(w)) && Pending(Initial(w)) == w + []
    ensures 0 < |C| && Item(0, 0) in C[0] && DotBefore(g, Item(0, 0), g.Start())
    ensures (0, g.Start()) in fol && NextSymbol([]) in fol[(0, g.Start())] && Initial(w).state == 0
  {
    InitialViable(g, C, K, d, w);
    assert End !in w by {
      assert End !in g.terminals;
    }
    StartItem(g, C, K, d, 0);
  }

  lemma AcceptTaken(g: Cfg, C: seq<seq<Item>>, K: seq<seq<Item>>, d: Delta, fol: FollowMap, la: LookTable, T: Tables,
                    h: bool, c0: Config, c: Config, t: Tree)
    requires Deterministic(g, C, K, d, fol, la, T)
    requires c0.state == 0 && Parsed(g, C, d, c0, c, g.Start(), t, [])
    ensures RunsClean(T, h, c, 1) && Run(T, h, c, 1).status == Returned(Some(t))
  {
    hide *;
    WellFormedOf(g, C, K, d, fol, la, T);
    StartItem(g, C, K, d, 0);
    ParsedStart(g, C, d, c0, c, t);
    StartMoved(g, C, K, d, la, c.state);
    OfferTaken(g, C, K, d, fol, la, T, h, c, 0);
    FetchReady(g, C, d, c);
    RunOne(T, h, c);
    AcceptStep(T, h, c, t);
  }

  lemma ParsedStart(g: Cfg, C: seq<seq<Item>>, d: Delta, c0: Config, c: Config, t: Tree)
    requires g.WellFormed() && c0.state == 0 && Parsed(g, C, d, c0, c, g.Start(), t, [])
    ensures Ready(g, C, d, c) && c.status == Running && Pending(c) == [] && NextSymbol([]) == End
    ensures (0, g.Start()) in d && c.state == d[(0, g.Start())]
    ensures |c.symstack| > 0 && c.symstack[|c.symstack| - 1].value == t
  {
    hide Viable;
  }

  lemma StartMoved(g: Cfg, C: seq<seq<Item>>, K: seq<seq<Item>>, d: Delta, la: LookTable, q: nat)
    requires g.WellFormed() && Collection(g, C, K, d) && 0 < |C| && Item(0, 0) in C[0] && (0, g.Start()) in d && q == d[(0, g.Start())]
    ensures q < |C| && Offers(g, C, d, la, q, End, 0)
  {
    hide Collection;
    MoveItem(g, C, K, d, 0, Item(0, 0), g.Start());
    StateBound(g, C, K, d, 0, g.Start());
    assert OffersAccept(g, C, q, End);
  }

  lemma AcceptStep(T: Tables, h: bool, c: Config, t: Tree)
    requires c.status == Running && |c.symstack| > 0 && c.symstack[|c.symstack| - 1].value == t
    requires c.state in T.action && Lookup(T.action[c.state], Fetch(c).lookahead.value.sym) == Some(0)
    requires Fetch(c).lookahead.Some? && Fetch(c).symstack == c.symstack && Fetch(c).state == c.state
    ensures Step(T, h, c).status == Returned(Some(t))
  {
  }

  /** Completeness on languages: every terminal string derivable from the start symbol is accepted. */
  lemma LanguageIsAccepted(g: Cfg, C: seq<seq<Item>>, K: seq<seq<Item>>, d: Delta, fol: FollowMap, la: LookTable,
                           T: Tables, h: bool, w: seq<Symbol>)
    requires Deterministic(g, C, K, d, fol, la, T) && Terminals(g, w)
    ensures Derives(g, [g.Start()], w) <==>
            exists n :: RunsClean(T, h, Initial(w), n) && Run(T, h, Initial(w), n).status != Running
  {
    if Derives(g, [g.Start()], w) {
      var t := TreeOf(g, g.Start(), w);
      var n := DerivationIsAccepted(g, C, K, d, fol, la, T, h, t);
    }
    if n :| RunsClean(T, h, Initial(w), n) && Run(T, h, Initial(w), n).status != Running {
      assert End !in w by {
        assert End !in g.terminals;
      }
      AcceptedIsDerivation(g, C, K, d, la, T, h, w, n);
    }
  }

  /** A grammar with conflict-free tables is unambiguous. */
  lemma ConflictFreeIsUnambiguous(g: Cfg, C: seq<seq<Item>>, K: seq<seq<Item>>, d: Delta, fol: FollowMap, la: LookTable,
                                  T: Tables, t: Tree, u: Tree)
    requires Deterministic(g, C, K, d, fol, la, T)
    requires ValidTree(g, t) && Root(g, t) == g.Start() && Terminals(g, Yield(t))
    requires ValidTree(g, u) && Root(g, u) == g.Start() && Yield(u) == Yield(t)
    ensures t == u
  {
    hide *;
    var n := DerivationIsAccepted(g, C, K, d, fol, la, T, true, t);
    var m := DerivationIsAccepted(g, C, K, d, fol, la, T, true, u);
    var c := Initial(Yield(t));
    if n <= m {
      RunPlus(T, true, c, n, m - n);
      RunStep(T, true, Run(T, true, c, n), m - n);
    } else {
      RunPlus(T, true, c, m, n - m);
      RunStep(T, true, Run(T, true, c, m), n - m);
    }
  }
}
