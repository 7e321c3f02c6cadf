/** Panic-mode recovery for grammars without `error` rules: a syntax error before the end of the
    input throws away the whole stack and the offending token, and parsing starts afresh. */
module Recovery {
  import opened Lists
  import opened Grammars
  import opened Items
  import opened ParserTables
  import opened Engine
  import opened EngineFacts
  import opened Soundness

  /** The reserved symbol `error` is in no rule and in no lookahead set. */
  ghost predicate NoErrorRules(g: Cfg, la: LookTable) {
    && (forall p :: 0 <= p < |g.productions| ==> Error !in g.Rhs(p))
    && (forall e :: e in la ==> Error !in la[e])
  }

  /** A parse about to start on `w`, with `count` left over in the error counter. */
  function Fresh(w: seq<Symbol>, count: nat): Config {
    Initial(w).(errorcount := count)
  }

  lemma NoErrorEdge(g: Cfg, C: seq<seq<Item>>, K: seq<seq<Item>>, d: Delta, la: LookTable, q: nat)
    requires Collection(g, C, K, d) && NoErrorRules(g, la)
    ensures (q, Error) !in d
  {
    if (q, Error) in d {
      var it := EdgeItem(g, C, K, d, q, Error);
    }
  }

  /** No state has an action for the `error` token. */
  lemma NoErrorAction(g: Cfg, C: seq<seq<Item>>, K: seq<seq<Item>>, d: Delta, la: LookTable, T: Tables, q: nat)
    requires Built(g, C, K, d, la, T) && NoErrorRules(g, la) && q < |C|
    ensures q in T.action && Lookup(T.action[q], Error) == None
  {
    if Lookup(T.action[q], Error).Some? {
      ActionOffered(g, C, K, d, la, T, q, Error, Lookup(T.action[q], Error).value);
      NoErrorEdge(g, C, K, d, la, q);
    }
  }

  lemma NoErrorOnStack(g: Cfg, C: seq<seq<Item>>, K: seq<seq<Item>>, d: Delta, la: LookTable, c: Config)
    requires Collection(g, C, K, d) && Viable(g, C, d, c) && NoErrorRules(g, la)
    ensures c.symstack[|c.symstack| - 1].sym != Error
  {
    var h := |c.symstack|;
    if h > 1 {
      assert Linked(d, c, h - 1);
      NoErrorEdge(g, C, K, d, la, c.statestack[h - 2]);
    }
  }

  /** With the `error` token as lookahead the stacks are popped down to their initial entries; then
      the token and everything pushed back are dropped. */
  lemma {:induction false} PopAll(g: Cfg, C: seq<seq<Item>>, K: seq<seq<Item>>, d: Delta, la: LookTable, T: Tables, h: bool, c: Config)
    returns (n: nat)
    requires Built(g, C, K, d, la, T) && NoErrorRules(g, la) && Viable(g, C, d, c)
    requires c.status == Running && c.errorcount == ERROR_COUNT && c.lookahead == Some(Token(Error))
    ensures n == |c.statestack| && Run(T, h, c, n) == Fresh(c.input, ERROR_COUNT)
    decreases |c.statestack|
  {
    hide Built, Viable, NoErrorRules, Run;
    ViableFacts(g, C, d, c);
    NoErrorAction(g, C, K, d, la, T, c.state);
    StepViable(g, C, K, d, la, T, h, c);
    var c' := Step(T, h, c);
    RunStep(T, h, c, |c.statestack|);
    if |c.statestack| > 1 {
      n := PopAll(g, C, K, d, la, T, h, c');
      n := n + 1;
    } else {
      LastEntries(g, C, d, c);
      RunStep(T, h, c', 0);
      n := 1;
    }
  }

  lemma LastEntries(g: Cfg, C: seq<seq<Item>>, d: Delta, c: Config)
    requires Viable(g, C, d, c) && |c.statestack| == 1
    ensures c.statestack == [0] && c.symstack == [Token(End)]
  {
  }

  /** A syntax error on a token: after finitely many rounds both stacks are at their initial height,
      exactly the offending token is gone, and nothing else has happened. */
  lemma ErrorRestarts(g: Cfg, C: seq<seq<Item>>, K: seq<seq<Item>>, d: Delta, la: LookTable, T: Tables, h: bool, c: Config)
    returns (n: nat)
    requires Built(g, C, K, d, la, T) && NoErrorRules(g, la) && Viable(g, C, d, c) && c.status == Running
    requires Errs(T, c) && Fetch(c).lookahead.value.sym !in {End, Error}
    ensures n > 0 && Run(T, h, c, n) == Fresh(Fetch(c).input, ERROR_COUNT)
  {
    hide Built, Viable, NoErrorRules, Run;
    FetchViable(g, C, d, c);
    var f := Fetch(c);
    ViableFacts(g, C, d, f);
    var c' := Step(T, h, c);
    RunStep(T, h, c, 1);
    RunStep(T, h, c', 0);
    if |f.statestack| == 1 {
      LastEntries(g, C, d, f);
      n := 1;
    } else {
      BuiltCollection(g, C, K, d, la, T);
      NoErrorOnStack(g, C, K, d, la, f);
      StepViable(g, C, K, d, la, T, h, c);
      var m := PopAll(g, C, K, d, la, T, h, c');
      n := m + 1;
      RunStep(T, h, c, n);
    }
  }

  lemma BuiltCollection(g: Cfg, C: seq<seq<Item>>, K: seq<seq<Item>>, d: Delta, la: LookTable, T: Tables)
    requires Built(g, C, K, d, la, T)
    ensures Collection(g, C, K, d)
  {
  }

  /** At the end of the input a syntax error returns no value. */
  lemma ErrorAtEnd(g: Cfg, C: seq<seq<Item>>, K: seq<seq<Item>>, d: Delta, la: LookTable, T: Tables, h: bool, c: Config)
    requires Built(g, C, K, d, la, T) && Viable(g, C, d, c) && c.status == Running
    requires Errs(T, c) && Fetch(c).lookahead.value.sym == End
    ensures Step(T, h, c).status == Returned(None)
  {
  }

  // ----- The rest of the run is a fresh parse -----

  /** The same configuration, but for the error counter. */
  ghost predicate SameButCount(c: Config, c': Config) {
    c' == c.(errorcount := c'.errorcount)
  }

  lemma StepIgnoresCount(T: Tables, h: bool, c: Config, c': Config)
    requires SameButCount(c, c') && c.status == Running
    ensures SameButCount(Step(T, h, c), Step(T, h, c'))
  {
    hide Reduce;
    var f, f' := Fetch(c), Fetch(c');
    assert SameButCount(f, f');
    if f.state in T.action {
      var t := Lookup(T.action[f.state], f.lookahead.value.sym);
      if t.Some? && t.value < 0 {
        ReduceIgnoresCount(T, f, f', -t.value);
      }
    }
  }

  lemma ReduceIgnoresCount(T: Tables, c: Config, c': Config, p: nat)
    requires SameButCount(c, c')
    ensures SameButCount(Reduce(T, c, p), Reduce(T, c', p))
  {
  }

  lemma {:induction false} CountDoesNotMatter(T: Tables, h: bool, c: Config, c': Config, n: nat)
    requires SameButCount(c, c')
    ensures SameButCount(Run(T, h, c, n), Run(T, h, c', n))
    decreases n
  {
    hide Step;
    if n > 0 && c.status == Running {
      StepIgnoresCount(T, h, c, c');
      CountDoesNotMatter(T, h, Step(T, h, c), Step(T, h, c'), n - 1);
    }
  }

  /** Restart equivalence: from a syntax error on a token, the run continues as a fresh parse of the
      tokens after it would: same stacks, same outcome, round for round. */
  lemma RestartIsFreshParse(g: Cfg, C: seq<seq<Item>>, K: seq<seq<Item>>, d: Delta, la: LookTable, T: Tables, h: bool, c: Config)
    returns (m: nat)
    requires Built(g, C, K, d, la, T) && NoErrorRules(g, la) && Viable(g, C, d, c) && c.status == Running
    requires Errs(T, c) && Fetch(c).lookahead.value.sym !in {End, Error}
    ensures m > 0 && forall n: nat :: SameButCount(Run(T, h, Initial(Fetch(c).input), n), Run(T, h, c, m + n))
  {
    hide *;
    m := ErrorRestarts(g, C, K, d, la, T, h, c);
    var rest := Fetch(c).input;
    forall n: nat ensures SameButCount(Run(T, h, Initial(rest), n), Run(T, h, c, m + n)) {
      RunPlus(T, h, c, m, n);
      FreshIsInitial(rest);
      CountDoesNotMatter(T, h, Initial(rest), Fresh(rest, ERROR_COUNT), n);
    }
  }

  lemma FreshIsInitial(w: seq<Symbol>)
    ensures SameButCount(Initial(w), Fresh(w, ERROR_COUNT)) && SameButCount(Fresh(w, 0), Initial(w))
  {
  }

  lemma {:induction false} FirstError(T: Tables, h: bool, c: Config, n: nat) returns (m: nat)
    requires !RunsClean(T, h, c, n)
    ensures m < n && RunsClean(T, h, c, m) && Run(T, h, c, m).status == Running && Errs(T, Run(T, h, c, m))
    decreases n
  {
    hide Step, Errs;
    if Errs(T, c) {
      m := 0;
    } else {
      m := FirstError(T, h, Step(T, h, c), n - 1);
      m := m + 1;
    }
  }

  lemma {:induction false} StoppedStays(T: Tables, h: bool, c: Config, m: nat, n: nat)
    requires m <= n && Run(T, h, c, m).status != Running
    ensures Run(T, h, c, n) == Run(T, h, c, m)
  {
    hide Step;
    RunPlus(T, h, c, m, n - m);
  }

  lemma FreshReady(g: Cfg, C: seq<seq<Item>>, K: seq<seq<Item>>, d: Delta, w: seq<Symbol>, count: nat)
    requires Collection(g, C, K, d) && End !in w
    ensures Viable(g, C, d, Fresh(w, count)) && Balanced(Fresh(w, count), w) && Fresh(w, count).status == Running
  {
    assert Fresh(w, count).symstack[1..] == [];
    assert Values([]) == [];
  }

  /** Whatever errors occurred on the way, a value that is returned is a parse of a suffix of the
      input. */
  lemma {:induction false} ResultParsesSuffix(g: Cfg, C: seq<seq<Item>>, K: seq<seq<Item>>, d: Delta, la: LookTable, T: Tables,
                                              h: bool, w: seq<Symbol>, count: nat, n: nat, t: Tree) returns (k: nat)
    requires Built(g, C, K, d, la, T) && NoErrorRules(g, la) && End !in w && Error !in w
    requires Run(T, h, Fresh(w, count), n).status == Returned(Some(t))
    ensures k <= |w| && ValidTree(g, t) && Root(g, t) == g.Start() && Yield(t) == w[k..]
    decreases |w|
  {
    hide Built, Viable, Balanced, NoErrorRules, Run, RunsClean, Step, Errs, Pending, Consumed;
    BuiltCollection(g, C, K, d, la, T);
    var c := Fresh(w, count);
    FreshReady(g, C, K, d, w, count);
    if RunsClean(T, h, c, n) {
      RunBalanced(g, C, K, d, la, T, h, c, w, n);
      k := 0;
      assert w[0..] == w;
    } else {
      var m := FirstError(T, h, c, n);
      var e := Run(T, h, c, m);
      RunBalanced(g, C, K, d, la, T, h, c, w, m);
      RunViable(g, C, K, d, la, T, h, c, m);
      var dropped := DroppedPrefix(e, w);
      if Fetch(e).lookahead.value.sym == End {
        ErrorAtEnd(g, C, K, d, la, T, h, e);
        RunStep(T, h, e, 1);
        RunStep(T, h, Step(T, h, e), 0);
        RunPlus(T, h, c, m, 1);
        StoppedStays(T, h, c, m + 1, n);
      } else {
        var r := ErrorRestarts(g, C, K, d, la, T, h, e);
        RunPlus(T, h, c, m, r);
        if n <= m + r {
          StoppedStays(T, h, c, n, m + r);
        } else {
          RunPlus(T, h, c, m + r, n - m - r);
          assert Fetch(e).input == w[dropped..];
          k := ResultParsesSuffix(g, C, K, d, la, T, h, w[dropped..], ERROR_COUNT, n - m - r, t);
          assert w[dropped..][k..] == w[dropped + k..];
          k := dropped + k;
        }
      }
    }
  }

  /** In a balanced configuration, what is left behind the lookahead token is a suffix of the input. */
  lemma DroppedPrefix(e: Config, w: seq<Symbol>) returns (k: nat)
    requires Balanced(e, w) && End !in w && Error !in w
    ensures Fetch(e).lookahead.Some? && k <= |w| && Fetch(e).input == w[k..]
    ensures Fetch(e).lookahead.value.sym != End ==> k > 0 && Fetch(e).lookahead.value.sym != Error
  {
    FetchBalanced(e, w);
    var f := Fetch(e);
    assert w == Consumed(f) + Pending(f);
    k := |w| - |f.input|;
    assert w[k..] == f.input;
    if f.lookahead.value.sym != End {
      assert w[k - 1] == f.lookahead.value.sym;
    }
  }
}
