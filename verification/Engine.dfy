/** The LR parsing engine: a two-stack shift/reduce machine with panic-mode error recovery, first as
    a step function on configurations, then as the loop of the parser object. */
module Engine {
  import opened Lists
  import opened Grammars
  import opened ParserTables

  /** A symbol on the stack or a token. The value of a nonterminal is what the user's action returned;
      here every action builds the node of its production, so a value records its own derivation. */
  datatype YaccSymbol = YaccSymbol(sym: Symbol, value: Tree)

  function Token(a: Symbol): YaccSymbol {
    YaccSymbol(a, Leaf(a))
  }

  /** How the loop goes on: another round, a return with or without a value, or an exception from a
      failed table lookup or an empty stack. */
  datatype Status = Running | Returned(result: Option<Tree>) | Crashed

  const ERROR_COUNT: nat := 3

  datatype Config = Config(statestack: seq<nat>, symstack: seq<YaccSymbol>, state: nat, lookahead: Option<YaccSymbol>,
                           lookaheadstack: seq<YaccSymbol>, input: seq<Symbol>, errorcount: nat, status: Status)

  function Initial(input: seq<Symbol>): Config {
    Config([0], [Token(End)], 0, None, [], input, 0, Running)
  }

  /** Make sure there is a lookahead: one pushed back, the next token, or `$end`. */
  function Fetch(c: Config): Config {
    if c.lookahead.Some? then c
    else if c.lookaheadstack != [] then
      c.(lookahead := Some(c.lookaheadstack[|c.lookaheadstack| - 1]),
         lookaheadstack := c.lookaheadstack[..|c.lookaheadstack| - 1])
    else if c.input != [] then c.(lookahead := Some(Token(c.input[0])), input := c.input[1..])
    else c.(lookahead := Some(Token(End)))
  }

  /** The entry for a symbol, or none. */
  function Lookup(row: ActionRow, a: Symbol): Option<int> {
    if a in row then row[a] else None
  }

  function Shift(c: Config, t: nat): Config
    requires c.lookahead.Some?
  {
    c.(statestack := c.statestack + [t], state := t, symstack := c.symstack + [c.lookahead.value], lookahead := None,
       errorcount := if c.errorcount > 0 then c.errorcount - 1 else 0)
  }

  function Values(ys: seq<YaccSymbol>): (ts: seq<Tree>)
    ensures |ts| == |ys|
  {
    seq(|ys|, i requires 0 <= i < |ys| => ys[i].value)
  }

  function Reduce(T: Tables, c: Config, p: nat): Config {
    if p >= |T.productions| then c.(status := Crashed)
    else
      var name, n := T.productions[p].name, |T.productions[p].rhs|;
      if |c.symstack| <= n || |c.statestack| <= n then c.(status := Crashed)
      else
        var syms, states := c.symstack[..|c.symstack| - n], c.statestack[..|c.statestack| - n];
        var s := states[|states| - 1];
        if s !in T.goto || name !in T.goto[s] then c.(status := Crashed)
        else
          var node := Node(p, Values(c.symstack[|c.symstack| - n..]));
          c.(symstack := syms + [YaccSymbol(name, node)], state := T.goto[s][name], statestack := states + [T.goto[s][name]])
  }

  /** The error branch, for a p_error function that does nothing, or none at all. */
  function Recover(hasErrorFunc: bool, c: Config): Config
    requires c.lookahead.Some?
  {
    var a := c.lookahead.value.sym;
    if c.errorcount == 0 && !hasErrorFunc && a == End then c.(errorcount := ERROR_COUNT, status := Returned(None))
    else
      var c := c.(errorcount := ERROR_COUNT);
      if |c.statestack| <= 1 && a != End then c.(lookahead := None, state := 0, lookaheadstack := [])
      else if a == End then c.(status := Returned(None))
      else if a != Error then
        if c.symstack == [] then c.(status := Crashed)
        else if c.symstack[|c.symstack| - 1].sym == Error then c.(lookahead := None)
        else c.(lookaheadstack := c.lookaheadstack + [c.lookahead.value], lookahead := Some(Token(Error)))
      else if c.symstack == [] || |c.statestack| <= 1 then c.(status := Crashed)
      else
        var states := c.statestack[..|c.statestack| - 1];
        c.(symstack := c.symstack[..|c.symstack| - 1], statestack := states, state := states[|states| - 1])
  }

  /** One round of the parser loop. */
  function Step(T: Tables, hasErrorFunc: bool, c: Config): Config
    requires c.status == Running
  {
    var c := Fetch(c);
    if c.state !in T.action then c.(status := Crashed)
    else
      match Lookup(T.action[c.state], c.lookahead.value.sym)
      case None => Recover(hasErrorFunc, c)
      case Some(t) =>
        if t > 0 then Shift(c, t)
        else if t < 0 then Reduce(T, c, -t)
        else if c.symstack == [] then c.(status := Crashed)
        else c.(status := Returned(Some(c.symstack[|c.symstack| - 1].value)))
  }

  /** `n` rounds, fewer if the loop is left before. */
  function Run(T: Tables, hasErrorFunc: bool, c: Config, n: nat): Config
    decreases n
  {
    if n == 0 || c.status != Running then c else Run(T, hasErrorFunc, Step(T, hasErrorFunc, c), n - 1)
  }

  /** The next round enters the error branch. */
  predicate Errs(T: Tables, c: Config) {
    var c := Fetch(c);
    c.status == Running && c.state in T.action && Lookup(T.action[c.state], c.lookahead.value.sym) == None
  }

  /** None of the first `n` rounds enters the error branch. */
  predicate RunsClean(T: Tables, hasErrorFunc: bool, c: Config, n: nat)
    decreases n
  {
    n == 0 || c.status != Running || (!Errs(T, c) && RunsClean(T, hasErrorFunc, Step(T, hasErrorFunc, c), n - 1))
  }

  lemma {:induction false} RunPlus(T: Tables, h: bool, c: Config, m: nat, n: nat)
    ensures Run(T, h, c, m + n) == Run(T, h, Run(T, h, c, m), n)
    ensures RunsClean(T, h, c, m) && RunsClean(T, h, Run(T, h, c, m), n) ==> RunsClean(T, h, c, m + n)
    decreases m
  {
    hide Step, Errs;
    if m > 0 && c.status == Running {
      RunPlus(T, h, Step(T, h, c), m - 1, n);
    }
  }

  lemma RunOne(T: Tables, h: bool, c: Config)
    requires c.status == Running
    ensures Run(T, h, c, 1) == Step(T, h, c)
    ensures !Errs(T, c) ==> RunsClean(T, h, c, 1)
  {
    assert Run(T, h, Step(T, h, c), 0) == Step(T, h, c);
    assert RunsClean(T, h, Step(T, h, c), 0);
  }

  /** The parser object: its tables, and the stacks that user code can reach. */
  class LRParser {
    const T: Tables
    const hasErrorFunc: bool
    var statestack: seq<nat>
    var symstack: seq<YaccSymbol>

    constructor (T: Tables, hasErrorFunc: bool)
      ensures this.T == T && this.hasErrorFunc == hasErrorFunc
    {
      this.T, this.hasErrorFunc := T, hasErrorFunc;
      statestack, symstack := [], [];
    }

    /** Reduce by production `p`: pop its right-hand side, push its name. */
    method ReduceBy(p: nat, ghost c: Config) returns (state: nat, crashed: bool)
      requires c.statestack == statestack && c.symstack == symstack && c.status == Running
      modifies this
      ensures crashed ==> Reduce(T, c, p) == c.(status := Crashed) && statestack == c.statestack && symstack == c.symstack
      ensures !crashed ==> Reduce(T, c, p) == c.(statestack := statestack, symstack := symstack, state := state)
    {
      state, crashed := 0, true;
      if p < |T.productions| {
        var pname, plen := T.productions[p].name, |T.productions[p].rhs|;
        if plen < |symstack| && plen < |statestack| {
          var targ := symstack[|symstack| - plen..];
          var top := statestack[..|statestack| - plen][|statestack| - plen - 1];
          if top in T.goto && pname in T.goto[top] {
            symstack := symstack[..|symstack| - plen];
            statestack := statestack[..|statestack| - plen];
            symstack := symstack + [YaccSymbol(pname, Node(p, Values(targ)))];
            state := T.goto[top][pname];
            statestack := statestack + [state];
            crashed := false;
          }
        }
      }
    }

    /** Error recovery with more than the start state left, or at the end of the input. */
    method Panic(la: YaccSymbol, las: seq<YaccSymbol>, st: nat, ghost c: Config)
      returns (lookahead: Option<YaccSymbol>, lookaheadstack: seq<YaccSymbol>, state: nat, status: Status)
      requires c.statestack == statestack && c.symstack == symstack && c.state == st && c.status == Running
      requires c.lookahead == Some(la) && c.lookaheadstack == las && (|statestack| > 1 || la.sym == End) && c.errorcount > 0
      modifies this
      ensures Recover(hasErrorFunc, c).(errorcount := c.errorcount) ==
              c.(statestack := statestack, symstack := symstack, state := state, lookahead := lookahead,
                 lookaheadstack := lookaheadstack, status := status)
    {
      lookahead, lookaheadstack, state, status := Some(la), las, st, Running;
      if la.sym == End {
        status := Returned(None);
      } else if la.sym != Error {
        if symstack == [] {
          status := Crashed;
        } else if symstack[|symstack| - 1].sym == Error {
          lookahead := None;
        } else {
          lookaheadstack := lookaheadstack + [la];
          lookahead := Some(Token(Error));
        }
      } else if symstack == [] {
        status := Crashed;
      } else {
        symstack := symstack[..|symstack| - 1];
        statestack := statestack[..|statestack| - 1];
        state := statestack[|statestack| - 1];
      }
    }

    /** The branches of one round, once there is a lookahead token `la`. */
    method Act(la: YaccSymbol, las: seq<YaccSymbol>, st: nat, count: nat, ghost c: Config)
      returns (lookahead: Option<YaccSymbol>, lookaheadstack: seq<YaccSymbol>, state: nat, errorcount: nat, status: Status)
      requires c == Config(statestack, symstack, st, Some(la), las, c.input, count, Running)
      modifies this
      ensures Config(statestack, symstack, state, lookahead, lookaheadstack, c.input, errorcount, status) ==
              Step(T, hasErrorFunc, c)
    {
      hide Reduce;
      lookahead, lookaheadstack, state, errorcount, status := Some(la), las, st, count, Running;
      if state !in T.action {
        status := Crashed;
        return;
      }
      var t := Lookup(T.action[state], la.sym);
      if t.Some? && t.value > 0 {
        statestack := statestack + [t.value];
        state := t.value;
        symstack := symstack + [la];
        lookahead := None;
        if errorcount > 0 {
          errorcount := errorcount - 1;
        }
      } else if t.Some? && t.value < 0 {
        var next, crashed := ReduceBy(-t.value, c);
        if crashed {
          status := Crashed;
        } else {
          state := next;
        }
      } else if t.Some? {
        status := if symstack == [] then Crashed else Returned(Some(symstack[|symstack| - 1].value));
      } else {
        errorcount := ERROR_COUNT;
        if count == 0 && !hasErrorFunc && la.sym == End {
          status := Returned(None);
        } else if |statestack| <= 1 && la.sym != End {
          lookahead := None;
          state := 0;
          lookaheadstack := [];
        } else {
          lookahead, lookaheadstack, state, status := Panic(la, las, st, c.(errorcount := ERROR_COUNT));
        }
      }
    }

    /** One round of the loop: make sure there is a lookahead, then act on it. */
    method Round(lookahead0: Option<YaccSymbol>, lookaheadstack0: seq<YaccSymbol>, tokens0: seq<Symbol>, st: nat, count: nat, ghost c: Config)
      returns (lookahead: Option<YaccSymbol>, lookaheadstack: seq<YaccSymbol>, tokens: seq<Symbol>, state: nat, errorcount: nat, status: Status)
      requires c == Config(statestack, symstack, st, lookahead0, lookaheadstack0, tokens0, count, Running)
      modifies this
      ensures Config(statestack, symstack, state, lookahead, lookaheadstack, tokens, errorcount, status) == Step(T, hasErrorFunc, c)
    {
      hide Step;
      lookahead, lookaheadstack, tokens := lookahead0, lookaheadstack0, tokens0;
      StepFetched(T, hasErrorFunc, c);
      if lookahead.None? {
        if lookaheadstack != [] {
          lookahead := Some(lookaheadstack[|lookaheadstack| - 1]);
          lookaheadstack := lookaheadstack[..|lookaheadstack| - 1];
        } else if tokens != [] {
          lookahead := Some(Token(tokens[0]));
          tokens := tokens[1..];
        } else {
          lookahead := Some(Token(End));
        }
      }
      lookahead, lookaheadstack, state, errorcount, status := Act(lookahead.value, lookaheadstack, st, count, Fetch(c));
    }

    /** `parseopt_notrack`, where it is known to return: within `bound` rounds. */
    method ParseOptNoTrack(input: seq<Symbol>, ghost bound: nat) returns (status: Status)
      requires Run(T, hasErrorFunc, Initial(input), bound).status != Running
      modifies this
      ensures var c := Run(T, hasErrorFunc, Initial(input), bound);
        status == c.status && statestack == c.statestack && symstack == c.symstack
    {
      hide Run, Step;
      var lookahead: Option<YaccSymbol> := None;
      var lookaheadstack: seq<YaccSymbol> := [];
      var tokens := input;
      var errorcount: nat := 0;
      statestack := [0];
      symstack := [Token(End)];
      var state: nat := 0;
      status := Running;
      ghost var c, left := Initial(input), bound;
      while status == Running
        invariant c == Config(statestack, symstack, state, lookahead, lookaheadstack, tokens, errorcount, status)
        invariant Run(T, hasErrorFunc, Initial(input), bound) == Run(T, hasErrorFunc, c, left)
        decreases left
      {
        RunStep(T, hasErrorFunc, c, left);
        lookahead, lookaheadstack, tokens, state, errorcount, status := Round(lookahead, lookaheadstack, tokens, state, errorcount, c);
        c, left := Step(T, hasErrorFunc, c), left - 1;
      }
      RunStep(T, hasErrorFunc, c, left);
    }

    /** The same loop, watched for at most `fuel` rounds, whether it returns or not. */
    method ParseRounds(input: seq<Symbol>, fuel: nat) returns (status: Status)
      modifies this
      ensures var c := Run(T, hasErrorFunc, Initial(input), fuel);
        status == c.status && statestack == c.statestack && symstack == c.symstack
    {
      hide Run, Step;
      var lookahead: Option<YaccSymbol> := None;
      var lookaheadstack: seq<YaccSymbol> := [];
      var tokens := input;
      var errorcount: nat := 0;
      statestack := [0];
      symstack := [Token(End)];
      var state: nat := 0;
      status := Running;
      var rounds := 0;
      ghost var c := Initial(input);
      while rounds < fuel && status == Running
        invariant rounds <= fuel
        invariant c == Config(statestack, symstack, state, lookahead, lookaheadstack, tokens, errorcount, status)
        invariant Run(T, hasErrorFunc, Initial(input), fuel) == Run(T, hasErrorFunc, c, fuel - rounds)
        decreases fuel - rounds
      {
        RunStep(T, hasErrorFunc, c, fuel - rounds);
        lookahead, lookaheadstack, tokens, state, errorcount, status := Round(lookahead, lookaheadstack, tokens, state, errorcount, c);
        c := Step(T, hasErrorFunc, c);
        rounds := rounds + 1;
      }
      RunStep(T, hasErrorFunc, c, fuel - rounds);
    }
  }

  lemma StepFetched(T: Tables, h: bool, c: Config)
    requires c.status == Running
    ensures Step(T, h, Fetch(c)) == Step(T, h, c)
  {
    assert Fetch(Fetch(c)) == Fetch(c);
  }

  lemma RunStep(T: Tables, h: bool, c: Config, n: nat)
    ensures n == 0 || c.status != Running ==> Run(T, h, c, n) == c
    ensures n > 0 && c.status == Running ==> Run(T, h, c, n) == Run(T, h, Step(T, h, c), n - 1)
  {
  }
}
