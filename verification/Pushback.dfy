/** Error recovery for all tables, those of grammars with `error` rules included: no token is lost but the
    ones recovery has to drop, and the offending token is read again behind the `error` that was shifted. */
module Pushback {
  import opened Lists
  import opened Grammars
  import opened ParserTables
  import opened Engine

  function Back(ys: seq<YaccSymbol>): seq<Symbol> {
    if ys == [] then [] else [ys[|ys| - 1].sym] + Back(ys[..|ys| - 1])
  }

  /** The tokens of the input still to be read, in their order: the lookahead unless it is made up, what has
      been pushed back, and the rest. */
  function Unread(c: Config): seq<Symbol> {
    (if c.lookahead.Some? && c.lookahead.value.sym !in {Error, End} then [c.lookahead.value.sym] else [])
    + Back(c.lookaheadstack) + c.input
  }

  /** The symbol the round will act on. */
  function NextToken(c: Config): Symbol {
    if c.lookahead.Some? then c.lookahead.value.sym else if Unread(c) != [] then Unread(c)[0] else End
  }

  /** One token at most has been pushed back: while `error` is the lookahead, and until the next round after
      it was shifted. */
  ghost predicate Tidy(c: Config) {
    && |c.lookaheadstack| <= 1 && (forall i :: 0 <= i < |c.lookaheadstack| ==> c.lookaheadstack[i].sym !in {Error, End})
    && (c.lookahead.Some? && c.lookahead.value.sym == Error ==> c.lookaheadstack != [])
    && (c.lookahead.Some? && c.lookahead.value.sym != Error ==> c.lookaheadstack == [])
    && (c.lookahead.Some? && c.lookahead.value.sym == End ==> c.input == [])
    && Error !in c.input && End !in c.input
  }

  /** In an error round the token is dropped: nothing but the start state is left, or `error` is already on
      top of the stack. */
  predicate Drops(c: Config) {
    NextToken(c) != End &&
    (|c.statestack| <= 1 || (NextToken(c) != Error && c.symstack != [] && c.symstack[|c.symstack| - 1].sym == Error))
  }

  lemma InitialTidy(w: seq<Symbol>)
    requires Error !in w && End !in w
    ensures Tidy(Initial(w)) && Unread(Initial(w)) == w
  {
  }

  lemma FetchTidy(c: Config)
    requires Tidy(c)
    ensures var f := Fetch(c);
      && Tidy(f) && Unread(f) == Unread(c) && f.lookahead.Some? && f.lookahead.value.sym == NextToken(c)
      && f == c.(lookahead := f.lookahead, lookaheadstack := f.lookaheadstack, input := f.input)
      && (NextToken(c) !in {Error, End} ==> Unread(c) != [] && Unread(c)[0] == NextToken(c) && f.lookaheadstack == [] && f.input == Unread(c)[1..])
  {
    var f := Fetch(c);
    if c.lookahead.None? && c.lookaheadstack != [] {
      assert c.lookaheadstack[..|c.lookaheadstack| - 1] == [];
      assert Back(c.lookaheadstack) == [c.lookaheadstack[0].sym] + Back([]);
    } else if c.lookahead.None? && c.input != [] {
      assert c.input[0] in c.input;
    }
  }

  /** The conservation law, for a round that finds an action: a shift takes the first unread token, unless it
      shifts `error`; nothing else takes any. */
  lemma ActionConserves(T: Tables, h: bool, c: Config)
    requires Tidy(c) && c.status == Running && c.state in T.action
    requires NextToken(c) in T.action[c.state] && T.action[c.state][NextToken(c)].Some?
    ensures var c', a, t := Step(T, h, c), NextToken(c), T.action[c.state][NextToken(c)].value;
      && Tidy(c')
      && Unread(c') == (if t > 0 && a !in {Error, End} then Unread(c)[1..] else Unread(c))
      && (t > 0 ==> c'.symstack != [] && c'.symstack[|c'.symstack| - 1].sym == a && c'.lookahead == None)
  {
    hide Reduce;
    FetchTidy(c);
    var f := Fetch(c);
    var t := T.action[c.state][NextToken(c)].value;
    if t < 0 {
      ReduceKeepsInput(T, f, -t);
    }
  }

  lemma ReduceKeepsInput(T: Tables, c: Config, p: nat)
    ensures var c' := Reduce(T, c, p); c'.lookahead == c.lookahead && c'.lookaheadstack == c.lookaheadstack && c'.input == c.input
  {
  }

  /** And for a round of the error branch: the first unread token is dropped, or none. */
  lemma ErrorConserves(T: Tables, h: bool, c: Config)
    requires Tidy(c) && c.status == Running && c.state in T.action
    requires NextToken(c) !in T.action[c.state] || T.action[c.state][NextToken(c)].None?
    ensures Drops(c) ==> Unread(c) != []
    ensures var c' := Step(T, h, c);
      && Tidy(c')
      && Unread(c') == (if Drops(c) then Unread(c)[1..] else Unread(c))
  {
    hide Recover;
    FetchTidy(c);
    var f := Fetch(c);
    assert NextToken(f) == NextToken(c) && Step(T, h, c) == Recover(h, f);
    if NextToken(c) == Error {
      BehindError(h, f);
    } else if NextToken(c) == End {
      AtEnd(h, f);
    } else {
      AtToken(h, f);
    }
  }

  /** The error branch with the made-up lookahead: what was pushed back stays, or is dropped with it. */
  lemma BehindError(h: bool, c: Config)
    requires Tidy(c) && c.status == Running && c.lookahead.Some? && c.lookahead.value.sym == Error
    ensures Drops(c) ==> Unread(c) != []
    ensures Tidy(Recover(h, c)) && Unread(Recover(h, c)) == (if Drops(c) then Unread(c)[1..] else Unread(c))
  {
    OneBack(c.lookaheadstack[0]);
    assert c.lookaheadstack == [c.lookaheadstack[0]];
  }

  lemma AtEnd(h: bool, c: Config)
    requires Tidy(c) && c.status == Running && c.lookahead.Some? && c.lookahead.value.sym == End
    ensures !Drops(c) && Tidy(Recover(h, c)) && Unread(Recover(h, c)) == Unread(c)
  {
  }

  /** The error branch with a token of the input: it is dropped or pushed back. */
  lemma AtToken(h: bool, c: Config)
    requires Tidy(c) && c.status == Running && c.lookahead.Some? && c.lookahead.value.sym !in {Error, End}
    ensures Unread(c) != [] && Tidy(Recover(h, c)) && Unread(Recover(h, c)) == (if Drops(c) then Unread(c)[1..] else Unread(c))
  {
    hide Back;
    var la, r := c.lookahead.value, Recover(h, c);
    NothingBack();
    OneBack(la);
    assert c.lookaheadstack == [];
    assert Unread(c) == [la.sym] + c.input;
    if Drops(c) {
      assert Unread(r) == c.input;
    } else if c.symstack != [] {
      assert r.lookaheadstack == [la];
      assert Unread(r) == [la.sym] + c.input;
    }
  }

  lemma NothingBack()
    ensures Back([]) == []
  {
  }

  lemma OneBack(y: YaccSymbol)
    ensures Back([y]) == [y.sym]
  {
    assert [y][..0] == [];
    assert Back([y]) == [y.sym] + Back([]);
  }

  /** What becomes of the stacks in the error branch. */
  lemma ErrorRound(T: Tables, h: bool, c: Config)
    requires Tidy(c) && c.status == Running && c.state in T.action && |c.statestack| == |c.symstack| > 1
    requires NextToken(c) !in T.action[c.state] || T.action[c.state][NextToken(c)].None?
    ensures var c', a, n := Step(T, h, c), NextToken(c), |c.statestack| - 1;
      && (a == End ==> c'.status == Returned(None))
      && (a == Error ==> c'.status == Running && c'.statestack == c.statestack[..n] && c'.symstack == c.symstack[..n]
                         && c'.state == c.statestack[n - 1] && NextToken(c') == Error && c'.lookahead == c.lookahead)
      && (a !in {Error, End} ==> c'.status == Running && c'.statestack == c.statestack && c'.symstack == c.symstack && c'.state == c.state)
      && (a !in {Error, End} && c.symstack[n].sym != Error ==> c'.lookahead == Some(Token(Error)))
  {
    FetchTidy(c);
  }

  /** The round after `error` was shifted acts on the token that caused the error. */
  lemma ReadAgain(T: Tables, h: bool, c: Config, t: nat)
    requires Tidy(c) && c.status == Running && c.lookahead.Some? && c.lookahead.value.sym == Error
    requires c.state in T.action && Error in T.action[c.state] && T.action[c.state][Error] == Some(t) && t > 0
    ensures Unread(c) != []
    ensures var c', b := Step(T, h, c), Unread(c)[0];
      && c'.statestack == c.statestack + [t] && c'.state == t && c'.symstack == c.symstack + [c.lookahead.value] && c'.status == Running
      && Tidy(c') && Unread(c') == Unread(c) && NextToken(c') == b
      && forall s: nat :: s > 0 && t in T.action && b in T.action[t] && T.action[t][b] == Some(s) ==>
           var c'' := Step(T, h, c');
           && c''.statestack == c.statestack + [t, s] && |c''.symstack| == |c.symstack| + 2
           && c''.symstack[|c.symstack| + 1].sym == b && Unread(c'') == Unread(c)[1..]
  {
    ActionConserves(T, h, c);
    var c' := Step(T, h, c);
    assert c.lookaheadstack[..0] == [];
    assert Back(c.lookaheadstack) == [c.lookaheadstack[0].sym] + Back([]);
    forall s: nat | s > 0 && t in T.action && NextToken(c') in T.action[t] && T.action[t][NextToken(c')] == Some(s)
      ensures var c'' := Step(T, h, c');
        && c''.statestack == c.statestack + [t, s] && |c''.symstack| == |c.symstack| + 2
        && c''.symstack[|c.symstack| + 1].sym == NextToken(c') && Unread(c'') == Unread(c)[1..]
    {
      ActionConserves(T, h, c');
      FetchTidy(c');
    }
  }

  // ----- Over a whole run -----

  /** The round takes a token: it shifts one, or drops one in the error branch. */
  predicate Takes(T: Tables, c: Config) {
    c.state in T.action &&
    if NextToken(c) in T.action[c.state] && T.action[c.state][NextToken(c)].Some?
    then T.action[c.state][NextToken(c)].value > 0 && NextToken(c) !in {Error, End}
    else Drops(c)
  }

  function TakenIn(T: Tables, h: bool, c: Config, n: nat): nat
    decreases n
  {
    if n == 0 || c.status != Running then 0 else (if Takes(T, c) then 1 else 0) + TakenIn(T, h, Step(T, h, c), n - 1)
  }

  lemma RoundConserves(T: Tables, h: bool, c: Config)
    requires Tidy(c) && c.status == Running
    ensures Takes(T, c) ==> Unread(c) != []
    ensures Tidy(Step(T, h, c)) && Unread(Step(T, h, c)) == if Takes(T, c) then Unread(c)[1..] else Unread(c)
  {
    hide Tidy, Unread, NextToken, Step, Fetch;
    FetchTidy(c);
    if c.state !in T.action {
      StuckRound(T, h, c);
    } else if NextToken(c) in T.action[c.state] && T.action[c.state][NextToken(c)].Some? {
      ActionConserves(T, h, c);
    } else {
      ErrorConserves(T, h, c);
    }
  }

  lemma StuckRound(T: Tables, h: bool, c: Config)
    requires c.status == Running && c.state !in T.action
    ensures Step(T, h, c) == Fetch(c).(status := Crashed)
    ensures Tidy(Fetch(c)) ==> Tidy(Step(T, h, c)) && Unread(Step(T, h, c)) == Unread(Fetch(c))
  {
  }

  /** Whatever errors a run meets, what it has not read is the input but for the tokens it has taken, one in
      each round that shifts or drops one. */
  lemma {:induction false} RunConserves(T: Tables, h: bool, c: Config, n: nat)
    requires Tidy(c)
    ensures var k := TakenIn(T, h, c, n); k <= |Unread(c)| && Unread(Run(T, h, c, n)) == Unread(c)[k..] && Tidy(Run(T, h, c, n))
    decreases n
  {
    hide Tidy, Unread, Step, Takes;
    if n > 0 && c.status == Running {
      RoundConserves(T, h, c);
      RunConserves(T, h, Step(T, h, c), n - 1);
      if Takes(T, c) {
        var k := TakenIn(T, h, Step(T, h, c), n - 1);
        assert Unread(c)[1..][k..] == Unread(c)[k + 1..];
      }
    }
  }

  lemma InputConserved(T: Tables, h: bool, w: seq<Symbol>, n: nat)
    requires Error !in w && End !in w
    ensures var k := TakenIn(T, h, Initial(w), n); k <= |w| && Unread(Run(T, h, Initial(w), n)) == w[k..]
  {
    hide *;
    InitialTidy(w);
    RunConserves(T, h, Initial(w), n);
  }

  // ----- Where recovery ends -----

  /** The state at index `i` of the stack has no action for `error`. */
  predicate Unconcerned(T: Tables, c: Config, i: nat) {
    i < |c.statestack| && c.statestack[i] in T.action && (Error !in T.action[c.statestack[i]] || T.action[c.statestack[i]][Error].None?)
  }

  /** With `error` as lookahead the stacks are popped down to the topmost state that shifts it; nothing of the
      input is lost on the way, and the offending token comes next. */
  lemma {:induction false} ErrorCaught(T: Tables, h: bool, c: Config, j: nat, t: nat)
    requires Tidy(c) && c.status == Running && c.lookahead.Some? && c.lookahead.value.sym == Error
    requires j < |c.statestack| == |c.symstack| && c.state == c.statestack[|c.statestack| - 1]
    requires forall i :: j < i < |c.statestack| ==> Unconcerned(T, c, i)
    requires c.statestack[j] in T.action && Error in T.action[c.statestack[j]] && T.action[c.statestack[j]][Error] == Some(t) && t > 0
    ensures var e := Run(T, h, c, |c.statestack| - j);
      && e.statestack == c.statestack[..j + 1] + [t] && e.symstack == c.symstack[..j + 1] + [c.lookahead.value]
      && e.state == t && e.status == Running && Tidy(e)
      && Unread(c) != [] && Unread(e) == Unread(c) && NextToken(e) == Unread(c)[0]
    decreases |c.statestack|
  {
    hide Tidy, Unread, Step, Run;
    var n := |c.statestack| - 1;
    RunStep(T, h, c, n - j + 1);
    if j == n {
      ReadAgain(T, h, c, t);
      RunStep(T, h, Step(T, h, c), 0);
      assert c.statestack[..j + 1] == c.statestack && c.symstack[..j + 1] == c.symstack;
    } else {
      assert Unconcerned(T, c, n);
      ErrorRound(T, h, c);
      ErrorConserves(T, h, c);
      var c' := Step(T, h, c);
      forall i | j < i < |c'.statestack| ensures Unconcerned(T, c', i) {
        assert Unconcerned(T, c, i);
      }
      ErrorCaught(T, h, c', j, t);
    }
  }

  /** If no state of the stack has an action for `error`, all but the start state goes, and with it exactly the
      offending token. */
  lemma {:induction false} NothingCatches(T: Tables, h: bool, c: Config)
    requires Tidy(c) && c.status == Running && c.lookahead.Some? && c.lookahead.value.sym == Error
    requires 0 < |c.statestack| == |c.symstack| && c.state == c.statestack[|c.statestack| - 1]
    requires forall i :: 0 <= i < |c.statestack| ==> Unconcerned(T, c, i)
    ensures var e := Run(T, h, c, |c.statestack|);
      && e.statestack == c.statestack[..1] && e.symstack == c.symstack[..1] && e.state == 0 && e.status == Running && e.lookahead == None
      && Tidy(e) && Unread(c) != [] && Unread(e) == Unread(c)[1..]
    decreases |c.statestack|
  {
    hide Tidy, Unread, Step, Run;
    var n := |c.statestack| - 1;
    assert Unconcerned(T, c, n);
    RunStep(T, h, c, n + 1);
    ErrorConserves(T, h, c);
    var c' := Step(T, h, c);
    if n == 0 {
      LastDropped(T, h, c);
      RunStep(T, h, c', 0);
    } else {
      ErrorRound(T, h, c);
      forall i | 0 <= i < |c'.statestack| ensures Unconcerned(T, c', i) {
        assert Unconcerned(T, c, i);
      }
      NothingCatches(T, h, c');
    }
  }

  lemma LastDropped(T: Tables, h: bool, c: Config)
    requires Tidy(c) && c.status == Running && c.lookahead.Some? && c.lookahead.value.sym == Error && |c.statestack| == 1 == |c.symstack|
    requires c.state in T.action && (Error !in T.action[c.state] || T.action[c.state][Error].None?)
    ensures Drops(c) && NextToken(c) == Error
    ensures var e := Step(T, h, c);
      e.statestack == c.statestack[..1] && e.symstack == c.symstack[..1] && e.state == 0 && e.status == Running && e.lookahead == None
  {
  }

  // ----- How long recovery lasts -----

  /** The rounds among the first `n` that shift. */
  function ShiftsIn(T: Tables, h: bool, c: Config, n: nat): nat
    decreases n
  {
    if n == 0 || c.status != Running then 0 else (if ShiftsNow(T, c) then 1 else 0) + ShiftsIn(T, h, Step(T, h, c), n - 1)
  }

  predicate ShiftsNow(T: Tables, c: Config) {
    c.state in T.action && NextToken(c) in T.action[c.state] && T.action[c.state][NextToken(c)].Some?
    && T.action[c.state][NextToken(c)].value > 0
  }

  lemma CounterRound(T: Tables, h: bool, c: Config)
    requires Tidy(c) && c.status == Running
    ensures Step(T, h, c).errorcount + (if ShiftsNow(T, c) then 1 else 0) >= c.errorcount || Step(T, h, c).errorcount >= 3
    ensures Errs(T, c) ==> Step(T, h, c).errorcount == 3
  {
    hide Reduce;
    FetchTidy(c);
    var f := Fetch(c);
    if f.state in T.action {
      var t := Lookup(T.action[f.state], f.lookahead.value.sym);
      if t.Some? && t.value < 0 {
        ReduceKeepsCount(T, f, -t.value);
      }
    }
  }

  lemma ReduceKeepsCount(T: Tables, c: Config, p: nat)
    ensures Reduce(T, c, p).errorcount == c.errorcount
  {
  }

  lemma {:induction false} CounterLasts(T: Tables, h: bool, c: Config, n: nat)
    requires Tidy(c) && c.errorcount <= 3
    ensures Run(T, h, c, n).errorcount + ShiftsIn(T, h, c, n) >= c.errorcount
    decreases n
  {
    hide Tidy, Step, ShiftsNow, Errs;
    if n > 0 && c.status == Running {
      CounterRound(T, h, c);
      RoundConserves(T, h, c);
      var c' := Step(T, h, c);
      CounterBound(T, h, c);
      CounterLasts(T, h, c', n - 1);
    }
  }

  lemma CounterBound(T: Tables, h: bool, c: Config)
    requires c.status == Running && c.errorcount <= 3
    ensures Step(T, h, c).errorcount <= 3
  {
    hide Reduce;
    var f := Fetch(c);
    if f.state in T.action {
      var t := Lookup(T.action[f.state], f.lookahead.value.sym);
      if t.Some? && t.value < 0 {
        ReduceKeepsCount(T, f, -t.value);
      }
    }
  }

  /** After a syntax error no other one is reported, that is met with the counter at 0, before three tokens have
      been shifted. */
  lemma ThreeShiftsFirst(T: Tables, h: bool, c: Config, n: nat)
    requires Tidy(c) && c.status == Running && c.errorcount <= 3 && Errs(T, c)
    requires Run(T, h, Step(T, h, c), n).errorcount == 0
    ensures ShiftsIn(T, h, Step(T, h, c), n) >= 3
  {
    hide Tidy, Step, Errs, Run, ShiftsIn;
    CounterRound(T, h, c);
    RoundConserves(T, h, c);
    CounterLasts(T, h, Step(T, h, c), n);
  }
}
