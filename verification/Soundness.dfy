/** Soundness of acceptance: a run without syntax errors that returns a value has parsed its whole
    input, and the value is a derivation tree of the start symbol for it. */
module Soundness {
  import opened Grammars
  import opened Items
  import opened ParserTables
  import opened Engine
  import opened EngineFacts

  /** The tokens that have not been shifted. */
  function Pending(c: Config): seq<Symbol> {
    (if c.lookahead.Some? && c.lookahead.value.sym != End then [c.lookahead.value.sym] else []) + c.input
  }

  /** The tokens under the trees of the stack. */
  function Consumed(c: Config): seq<Symbol>
    requires |c.symstack| >= 1
  {
    Yields(Values(c.symstack[1..]))
  }

  /** Nothing lost, nothing made up: what is on the stack and what is still to come spell the input. */
  ghost predicate Balanced(c: Config, w: seq<Symbol>) {
    && |c.symstack| >= 1 && c.lookaheadstack == []
    && (c.lookahead.Some? && c.lookahead.value.sym == End ==> c.input == [])
    && End !in c.input
    && Consumed(c) + Pending(c) == w
  }

  lemma ValuesConcat(ys: seq<YaccSymbol>, zs: seq<YaccSymbol>)
    ensures Values(ys + zs) == Values(ys) + Values(zs)
  {
  }

  lemma FetchBalanced(c: Config, w: seq<Symbol>)
    requires Balanced(c, w)
    ensures Balanced(Fetch(c), w) && Fetch(c).lookahead.Some? && Fetch(c).status == c.status
  {
    if c.lookahead.None? && c.input != [] {
      assert [c.input[0]] + c.input[1..] == c.input;
      assert c.input[0] in c.input;
      assert Pending(Fetch(c)) == Pending(c);
    }
  }

  lemma ShiftBalanced(c: Config, t: nat, w: seq<Symbol>)
    requires Balanced(c, w) && c.lookahead.Some? && c.lookahead.value.sym != End && TokenLike(c.lookahead.value)
    ensures Balanced(Shift(c, t), w)
  {
    var y, c' := c.lookahead.value, Shift(c, t);
    assert c'.symstack[1..] == c.symstack[1..] + [y];
    ValuesConcat(c.symstack[1..], [y]);
    assert Values([y]) == [Leaf(y.sym)];
    YieldsConcat(Values(c.symstack[1..]), [Leaf(y.sym)]);
    YieldsOne(Leaf(y.sym));
  }

  lemma ReduceBalanced(g: Cfg, C: seq<seq<Item>>, d: Delta, T: Tables, c: Config, p: nat, w: seq<Symbol>)
    requires CanReduce(g, C, d, T, c, p) && Balanced(c, w)
    ensures Balanced(Reduce(T, c, p), w)
  {
    ReducedStacks(g, C, d, T, c, p);
    var n, c' := |g.Rhs(p)|, Reduce(T, c, p);
    var m := |c.symstack| - n;
    var below, above := c.symstack[1..m], c.symstack[m..];
    var node := c'.symstack[m];
    assert c.symstack[1..] == below + above;
    assert c'.symstack == c'.symstack[..m] + [node];
    assert c'.symstack[1..] == c'.symstack[..m][1..] + [node];
    assert c.symstack[..m][1..] == below;
    ValuesConcat(below, above);
    ValuesConcat(below, [node]);
    YieldsConcat(Values(below), Values(above));
    assert Values([node]) == [node.value];
    YieldsConcat(Values(below), [node.value]);
    YieldsOne(node.value);
  }

  /** Accepting happens only with the start symbol alone on the stack and the input used up. */
  lemma AcceptBalanced(g: Cfg, C: seq<seq<Item>>, K: seq<seq<Item>>, d: Delta, c: Config, w: seq<Symbol>)
    requires g.WellFormed() && Collection(g, C, K, d) && Viable(g, C, d, c) && Balanced(c, w)
    requires c.lookahead.Some? && OffersAccept(g, C, c.state, c.lookahead.value.sym)
    ensures var t := c.symstack[|c.symstack| - 1].value; ValidTree(g, t) && Root(g, t) == g.Start() && Yield(t) == w
  {
    var h := |c.statestack|;
    ItemsOnStack(g, C, K, d, c, h, Item(0, 1));
    StartItem(g, C, K, d, c.statestack[h - 2]);
    assert h > 2 ==> Linked(d, c, h - 2);
    var y := c.symstack[1];
    assert Rooted(g, y) && c.symstack[h - 1 + 0].sym == g.Rhs(0)[0];
    assert c.symstack[1..] == [y];
    assert Values([y]) == [y.value];
    YieldsOne(y.value);
    assert Pending(c) == [];
  }

  /** What a step without an error does to a balanced configuration. */
  lemma StepBalanced(g: Cfg, C: seq<seq<Item>>, K: seq<seq<Item>>, d: Delta, la: LookTable, T: Tables, h: bool, c: Config, w: seq<Symbol>)
    requires Built(g, C, K, d, la, T) && Viable(g, C, d, c) && Balanced(c, w) && c.status == Running && !Errs(T, c)
    ensures var c' := Step(T, h, c);
      || (c'.status == Running && Balanced(c', w))
      || (c'.status.Returned? && c'.status.result.Some? &&
            var t := c'.status.result.value; ValidTree(g, t) && Root(g, t) == g.Start() && Yield(t) == w)
  {
    hide Viable, Collection, Reduce, Shift, Balanced, RowOk, GotoRowOk, CanReduce;
    FetchViable(g, C, d, c);
    FetchBalanced(c, w);
    var f := Fetch(c);
    ViableFacts(g, C, d, f);
    var a := f.lookahead.value.sym;
    var t := Lookup(T.action[f.state], a).value;
    ActionOffered(g, C, K, d, la, T, f.state, a, t);
    if t > 0 {
      ViableToken(g, C, d, f);
      ShiftBalanced(f, t, w);
      ShiftStatus(f, t);
    } else if t < 0 {
      ReduceFinds(g, C, K, d, la, T, f, -t);
      ReducedViable(g, C, d, T, f, -t);
      ReduceBalanced(g, C, d, T, f, -t, w);
    } else {
      AcceptBalanced(g, C, K, d, f, w);
    }
  }

  lemma ViableToken(g: Cfg, C: seq<seq<Item>>, d: Delta, c: Config)
    requires Viable(g, C, d, c) && c.lookahead.Some?
    ensures TokenLike(c.lookahead.value)
  {
  }

  lemma {:induction false} RunBalanced(g: Cfg, C: seq<seq<Item>>, K: seq<seq<Item>>, d: Delta, la: LookTable, T: Tables,
                                       h: bool, c: Config, w: seq<Symbol>, n: nat)
    requires Built(g, C, K, d, la, T) && Viable(g, C, d, c) && Balanced(c, w) && c.status == Running && RunsClean(T, h, c, n)
    ensures var c' := Run(T, h, c, n);
      || (c'.status == Running && Balanced(c', w))
      || (c'.status.Returned? && c'.status.result.Some? &&
            var t := c'.status.result.value; ValidTree(g, t) && Root(g, t) == g.Start() && Yield(t) == w)
    decreases n
  {
    hide Built, Viable, Balanced, Step, Errs;
    if n > 0 {
      StepBalanced(g, C, K, d, la, T, h, c, w);
      StepViable(g, C, K, d, la, T, h, c);
      RunStep(T, h, c, n);
      if Step(T, h, c).status == Running {
        RunBalanced(g, C, K, d, la, T, h, Step(T, h, c), w, n - 1);
      } else {
        RunStep(T, h, Step(T, h, c), n - 1);
      }
    }
  }

  lemma InitialBalanced(w: seq<Symbol>)
    requires End !in w
    ensures Balanced(Initial(w), w)
  {
    assert Initial(w).symstack[1..] == [];
    assert Values([]) == [];
  }

  /** Soundness, whatever way conflicts were resolved: as long as no syntax error occurs the stack and
      the rest of the input spell the input, and an accepted value is a tree that derives all of it
      from the start symbol. */
  lemma AcceptedIsDerivation(g: Cfg, C: seq<seq<Item>>, K: seq<seq<Item>>, d: Delta, la: LookTable, T: Tables,
                             h: bool, w: seq<Symbol>, n: nat)
    requires Built(g, C, K, d, la, T) && End !in w
    requires RunsClean(T, h, Initial(w), n)
    ensures var c := Run(T, h, Initial(w), n);
      if c.status == Running then |c.symstack| >= 1 && Consumed(c) + Pending(c) == w
      else
        && c.status.Returned? && c.status.result.Some?
        && var t := c.status.result.value; ValidTree(g, t) && Root(g, t) == g.Start() && Yield(t) == w
    ensures Run(T, h, Initial(w), n).status != Running ==> Derives(g, [g.Start()], w)
  {
    InitialViable(g, C, K, d, w);
    InitialBalanced(w);
    RunBalanced(g, C, K, d, la, T, h, Initial(w), w, n);
    var c := Run(T, h, Initial(w), n);
    if c.status != Running {
      TreeDerives(g, c.status.result.value);
    }
  }
}
