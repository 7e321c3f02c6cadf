/** A grammar for which moved items add lookaheads: its tables have a conflict that LALR(1) does not have. */
module MovedItems {
  import opened Lists
  import opened Grammars
  import opened Items
  import opened ParserTables
  import opened LalrFacts
  import opened Lookback
  import opened Coverage
  import opened Futures
  import opened Lalr1

  /** S: X | x D z | x X z, X: x B | w, B: y, D: y. */
  function TwoReadings(): Cfg {
    var s, x, b, d := Sym("S"), Sym("X"), Sym("B"), Sym("D");
    Cfg([Production(Augmented, [s], NO_PRECEDENCE, 0), Production(s, [x], NO_PRECEDENCE, 1),
         Production(s, [Sym("x"), d, Sym("z")], NO_PRECEDENCE, 2), Production(s, [Sym("x"), x, Sym("z")], NO_PRECEDENCE, 3),
         Production(x, [Sym("x"), b], NO_PRECEDENCE, 4), Production(x, [Sym("w")], NO_PRECEDENCE, 5),
         Production(b, [Sym("y")], NO_PRECEDENCE, 6), Production(d, [Sym("y")], NO_PRECEDENCE, 7)],
        {Error, Sym("x"), Sym("y"), Sym("z"), Sym("w")}, {s, x, b, d}, map[])
  }

  lemma TwoReadingsWellFormed()
    ensures TwoReadings().WellFormed()
  {
    Names();
    RulesDiffer();
    RulesSpelled();
    NamesDefined();
  }

  lemma Names()
    ensures var g := TwoReadings();
      && |g.productions| == 8 && g.productions[1].name == Sym("S") == g.productions[2].name == g.productions[3].name
      && g.productions[4].name == Sym("X") == g.productions[5].name && g.productions[6].name == Sym("B") && g.productions[7].name == Sym("D")
      && g.Rhs(2) == [Sym("x"), Sym("D"), Sym("z")] && g.Rhs(4) == [Sym("x"), Sym("B")] && g.Rhs(6) == [Sym("y")] == g.Rhs(7)
  {
  }

  lemma RulesDiffer()
    ensures var g := TwoReadings(); forall p, q :: 1 <= p < q < |g.productions| ==>
      g.productions[p].name != g.productions[q].name || g.productions[p].rhs != g.productions[q].rhs
  {
    var g := TwoReadings();
    assert |g.productions[1].rhs| == 1 && g.productions[2].rhs[1] == Sym("D") && g.productions[3].rhs[1] == Sym("X");
    assert |g.productions[4].rhs| == 2 && |g.productions[5].rhs| == 1;
  }

  lemma RulesSpelled()
    ensures var g := TwoReadings(); forall p, i :: 0 <= p < |g.productions| && 0 <= i < |g.productions[p].rhs| ==>
      g.productions[p].rhs[i] in g.terminals + g.nonterminals
  {
  }

  lemma NamesDefined()
    ensures var g := TwoReadings(); forall n :: n in g.nonterminals ==> exists p :: 1 <= p < |g.productions| && g.productions[p].name == n
  {
    var g := TwoReadings();
    forall n | n in g.nonterminals ensures exists p :: 1 <= p < |g.productions| && g.productions[p].name == n {
      var p := if n == Sym("S") then 1 else if n == Sym("X") then 4 else if n == Sym("B") then 6 else 7;
      assert n == g.productions[p].name;
    }
  }

  lemma Rules(it: Item, a: Symbol)
    ensures DotBefore(TwoReadings(), it, a) <==>
      || (it == Item(0, 0) && a == Sym("S")) || (it == Item(1, 0) && a == Sym("X"))
      || (it == Item(2, 0) && a == Sym("x")) || (it == Item(2, 1) && a == Sym("D")) || (it == Item(2, 2) && a == Sym("z"))
      || (it == Item(3, 0) && a == Sym("x")) || (it == Item(3, 1) && a == Sym("X")) || (it == Item(3, 2) && a == Sym("z"))
      || (it == Item(4, 0) && a == Sym("x")) || (it == Item(4, 1) && a == Sym("B")) || (it == Item(5, 0) && a == Sym("w"))
      || (it == Item(6, 0) && a == Sym("y")) || (it == Item(7, 0) && a == Sym("y"))
  {
  }

  // ----- The conflict -----

  /** The state `q` behind x, and the state `s` behind x y. */
  ghost predicate OnTheWay(C: seq<seq<Item>>, d: Delta, q: nat, s: nat) {
    && (0, Sym("x")) in d && d[(0, Sym("x"))] == q && q < |C| && (q, Sym("y")) in d && d[(q, Sym("y"))] == s && s < |C|
    && Item(3, 1) in C[q] && Item(4, 1) in C[q] && Item(6, 0) in C[q] && Item(7, 0) in C[q]
    && Item(6, 1) in C[s] && Item(7, 1) in C[s]
  }

  lemma StatesOnTheWay(C: seq<seq<Item>>, K: seq<seq<Item>>, d: Delta) returns (q: nat, s: nat)
    requires Collection(TwoReadings(), C, K, d)
    ensures OnTheWay(C, d, q, s)
  {
    hide Collection, DotBefore;
    var g := TwoReadings();
    FirstState(C, K, d);
    Names();
    Rules(Item(0, 0), Sym("S"));
    CloseItem(g, C, K, d, 0, Item(0, 0), 1);
    CloseItem(g, C, K, d, 0, Item(0, 0), 2);
    CloseItem(g, C, K, d, 0, Item(0, 0), 3);
    Rules(Item(1, 0), Sym("X"));
    CloseItem(g, C, K, d, 0, Item(1, 0), 4);
    q := Moved(C, K, d, 0, Item(2, 0), Sym("x"));
    var q3 := Moved(C, K, d, 0, Item(3, 0), Sym("x"));
    var q4 := Moved(C, K, d, 0, Item(4, 0), Sym("x"));
    Rules(Item(4, 1), Sym("B"));
    CloseItem(g, C, K, d, q, Item(4, 1), 6);
    Rules(Item(2, 1), Sym("D"));
    CloseItem(g, C, K, d, q, Item(2, 1), 7);
    s := Moved(C, K, d, q, Item(6, 0), Sym("y"));
    var s7 := Moved(C, K, d, q, Item(7, 0), Sym("y"));
  }

  lemma FirstState(C: seq<seq<Item>>, K: seq<seq<Item>>, d: Delta)
    requires Collection(TwoReadings(), C, K, d)
    ensures 0 < |C| && Item(0, 0) in C[0]
  {
    StartItem(TwoReadings(), C, K, d, 0);
  }

  lemma Moved(C: seq<seq<Item>>, K: seq<seq<Item>>, d: Delta, q: nat, it: Item, a: Symbol) returns (r: nat)
    requires Collection(TwoReadings(), C, K, d) && q < |C| && it in C[q] && it.dot == 0
    requires (it.num in {2, 3, 4} && a == Sym("x")) || (it.num in {6, 7} && a == Sym("y"))
    ensures (q, a) in d && d[(q, a)] == r && r < |C| && Item(it.num, 1) in C[r]
  {
    hide Collection, DotBefore;
    Rules(it, a);
    MoveItem(TwoReadings(), C, K, d, q, it, a);
    StateBound(TwoReadings(), C, K, d, q, a);
    r := d[(q, a)];
  }

  /** In any LALR tables of the grammar both rules are reduced on z behind x y. */
  lemma BothReduce(C: seq<seq<Item>>, K: seq<seq<Item>>, d: Delta, la: LookTable, q: nat, s: nat)
    requires TwoReadings().WellFormed() && Collection(TwoReadings(), C, K, d) && LooksComputed(TwoReadings(), C, d, la) && OnTheWay(C, d, q, s)
    requires (s, 6) in la && (s, 7) in la
    ensures Sym("z") in la[(s, 6)] && Sym("z") in la[(s, 7)]
  {
    hide Collection, Walk, FollowsSomehow, BegunAt, DotBefore;
    var g, z := TwoReadings(), Sym("z");
    Names();
    Follows(C, K, d, q);
    Begun(C, d, q, s);
    var fs :| FollowsComputed(g, C, d, fs) && MadeOf(g, C, d, fs, la);
    assert (q, Sym("B")) in fs && (q, Sym("D")) in fs by {
      assert IsTrans(g, d, (q, Sym("B"))) && IsTrans(g, d, (q, Sym("D")));
    }
    assert Contributes(g, C, d, fs, q, 6, s, z);
    assert Contributes(g, C, d, fs, q, 7, s, z);
  }

  lemma Begun(C: seq<seq<Item>>, d: Delta, q: nat, s: nat)
    requires OnTheWay(C, d, q, s)
    ensures BegunAt(TwoReadings(), C, d, q, 6, s) && BegunAt(TwoReadings(), C, d, q, 7, s)
  {
    hide Walk;
    var g := TwoReadings();
    Names();
    EmptyWalk(d, q);
    WalkSnoc(d, q, [], Sym("y"));
    assert [] + [Sym("y")] == [Sym("y")] && g.Rhs(6)[0..] == [Sym("y")] == g.Rhs(7)[0..];
    assert DotsSkipped(g, C, d, q, 6, s, 0) && DotsSkipped(g, C, d, q, 7, s, 0);
  }

  /** z is read behind D and behind X; X: x . B passes it on to B. */
  lemma Follows(C: seq<seq<Item>>, K: seq<seq<Item>>, d: Delta, q: nat)
    requires TwoReadings().WellFormed() && Collection(TwoReadings(), C, K, d) && q < |C|
    requires Item(3, 1) in C[q] && Item(4, 1) in C[q] && Item(6, 0) in C[q] && Item(7, 0) in C[q]
    requires (0, Sym("x")) in d && d[(0, Sym("x"))] == q
    ensures (q, Sym("B")) in d && (q, Sym("D")) in d
    ensures FollowsSomehow(TwoReadings(), C, d, (q, Sym("B")), Sym("z")) && FollowsSomehow(TwoReadings(), C, d, (q, Sym("D")), Sym("z"))
  {
    hide Collection, Walk, DotBefore;
    var g, z := TwoReadings(), Sym("z");
    Names();
    BehindX(C, K, d, q, Item(3, 1), Sym("X"));
    var it := InitialItem(g, C, K, d, q, Item(7, 0));
    Rules(it, Sym("D"));
    BehindX(C, K, d, q, Item(2, 1), Sym("D"));
    Rules(Item(4, 1), Sym("B"));
    MoveItem(g, C, K, d, q, Item(4, 1), Sym("B"));
    PassedOn(C, d, q);
    assert FollowsIn(g, C, d, (q, Sym("D")), z, 0) && FollowsIn(g, C, d, (q, Sym("X")), z, 0);
    assert FollowsIn(g, C, d, (q, Sym("B")), z, 1);
  }

  lemma BehindX(C: seq<seq<Item>>, K: seq<seq<Item>>, d: Delta, q: nat, it: Item, n: Symbol)
    requires TwoReadings().WellFormed() && Collection(TwoReadings(), C, K, d) && q < |C| && it in C[q]
    requires (it == Item(3, 1) && n == Sym("X")) || (it == Item(2, 1) && n == Sym("D"))
    ensures (q, n) in d && ReadsBehind(TwoReadings(), d, (q, n), Sym("z"))
  {
    hide Collection, Walk, DotBefore;
    var g, z := TwoReadings(), Sym("z");
    Rules(it, n);
    MoveItem(g, C, K, d, q, it, n);
    StateBound(g, C, K, d, q, n);
    Rules(it.Next(), z);
    MoveItem(g, C, K, d, d[(q, n)], it.Next(), z);
    EmptyWalk(d, d[(q, n)]);
    assert ShiftsBehind(g, d, (q, n), z, [], d[(q, n)]);
  }

  lemma PassedOn(C: seq<seq<Item>>, d: Delta, q: nat)
    requires q < |C| && Item(4, 1) in C[q] && (q, Sym("X")) in d && (q, Sym("B")) in d
    ensures Passed(TwoReadings(), C, d, (q, Sym("X")), (q, Sym("B")), 4, 1, 1)
  {
    hide Walk;
    var g := TwoReadings();
    Names();
    EmptyWalk(d, q);
    assert g.Rhs(4)[1..1] == [] && g.Rhs(4)[2..] == [];
  }

  // ----- LALR(1) has no such conflict -----

  /** The sentential forms of the grammar. */
  ghost predicate Form(w: seq<Symbol>) {
    var x, y, z, u := Sym("x"), Sym("y"), Sym("z"), Sym("w");
    var X, B, D := Sym("X"), Sym("B"), Sym("D");
    w in {[Sym("S")], [X], [x, D, z], [x, X, z], [x, B], [u], [x, y, z], [x, x, B, z], [x, u, z], [x, y], [x, x, y, z]}
  }

  lemma {:induction false} FormsOnly(w: seq<Symbol>, n: nat)
    requires RightmostIn(TwoReadings(), [Sym("S")], w, n)
    ensures Form(w)
    decreases n
  {
    hide Form;
    if n == 0 {
      StartForm();
    } else {
      var c, i: nat, p: nat :| RightmostIn(TwoReadings(), [Sym("S")], c, n - 1) && RightmostStep(TwoReadings(), c, w, i, p);
      FormsOnly(c, n - 1);
      FormStep(c, w, i, p);
    }
  }

  lemma StartForm()
    ensures Form([Sym("S")])
  {
  }

  lemma FormStep(c: seq<Symbol>, w: seq<Symbol>, i: nat, p: nat)
    requires Form(c) && RewritesAt(TwoReadings(), c, w, i, p)
    ensures Form(w)
  {
    var x, z, rhs := Sym("x"), Sym("z"), TwoReadings().productions[p].rhs;
    if c == [Sym("S")] || c == [Sym("X")] {
      assert w == rhs;
    } else if c == [x, Sym("B")] {
      assert w == [x] + rhs && [x] + [Sym("y")] == [x, Sym("y")];
    } else if c == [x, x, Sym("B"), z] {
      assert w == [x, x] + rhs + [z] && [x, x] + [Sym("y")] + [z] == [x, x, Sym("y"), z];
    } else {
      assert c == [x, Sym("D"), z] || c == [x, Sym("X"), z];
      assert w == [x] + rhs + [z];
      assert [x] + [x, Sym("B")] + [z] == [x, x, Sym("B"), z];
      assert [x] + [Sym("y")] + [z] == [x, Sym("y"), z] && [x] + [Sym("w")] + [z] == [x, Sym("w"), z];
    }
  }

  /** Behind x y the sentence x y is over when B is reduced. */
  lemma NoSuchForm(C: seq<seq<Item>>, K: seq<seq<Item>>, d: Delta, q: nat, s: nat)
    requires TwoReadings().WellFormed() && Collection(TwoReadings(), C, K, d) && OnTheWay(C, d, q, s)
    ensures !LalrLook(TwoReadings(), d, s, 6, Sym("z"))
  {
    hide Collection, Walk, RightmostDerives, Form;
    var g := TwoReadings();
    Names();
    if alpha, z :| LalrForm(g, d, s, 6, Sym("z"), alpha, z) {
      PathToBoth(C, K, d, q, s, alpha);
      SpelledForm(alpha, z);
    }
  }

  /** The path to the state where both rules are complete is x y. */
  lemma PathToBoth(C: seq<seq<Item>>, K: seq<seq<Item>>, d: Delta, q: nat, s: nat, alpha: seq<Symbol>)
    requires TwoReadings().WellFormed() && Collection(TwoReadings(), C, K, d) && OnTheWay(C, d, q, s)
    requires Walk(d, 0, alpha + [Sym("y")]) == Some(s)
    ensures alpha == [Sym("x")]
  {
    hide Collection, Walk, DotBefore;
    var g := TwoReadings();
    Names();
    WalkSnoc(d, 0, alpha, Sym("y"));
    StateBelow(g, C, K, d, alpha);
    var r := Walk(d, 0, alpha).value;
    UnmoveItem(g, C, K, d, r, Sym("y"), Item(7, 1));
    var c := InitialItem(g, C, K, d, r, Item(7, 0));
    Rules(c, Sym("D"));
    if alpha == [] {
      EmptyWalk(d, 0);
      StateZero(g, C, K, d, Item(2, 1));
    } else {
      PathStep(d, alpha);
      var p := alpha[..|alpha| - 1];
      UnmoveItem(g, C, K, d, Walk(d, 0, p).value, alpha[|alpha| - 1], Item(2, 1));
      Rules(Item(2, 0), alpha[|alpha| - 1]);
      StateBelow(g, C, K, d, p);
      OnlyAtStart(C, K, d, Walk(d, 0, p).value);
      assert alpha == p + [alpha[|alpha| - 1]] && p == [];
    }
  }

  /** A rule of S is begun in state 0 only. */
  lemma OnlyAtStart(C: seq<seq<Item>>, K: seq<seq<Item>>, d: Delta, r: nat)
    requires TwoReadings().WellFormed() && Collection(TwoReadings(), C, K, d) && r < |C| && Item(2, 0) in C[r]
    ensures r == 0
  {
    hide Collection, DotBefore;
    var g := TwoReadings();
    Names();
    var c := InitialItem(g, C, K, d, r, Item(2, 0));
    Rules(c, Sym("S"));
    StartItem(g, C, K, d, r);
  }

  lemma SpelledForm(alpha: seq<Symbol>, z: seq<Symbol>)
    requires TwoReadings().WellFormed() && alpha == [Sym("x")] && RightmostDerives(TwoReadings(), [TwoReadings().Start()], alpha + [Sym("B")] + z)
    ensures z == []
  {
    hide Form, RightmostIn;
    var w := alpha + [Sym("B")] + z;
    StartSymbol();
    var n: nat :| RightmostIn(TwoReadings(), [Sym("S")], w, n);
    FormsOnly(w, n);
    assert w[0] == Sym("x") && w[1] == Sym("B");
    BareForm(w);
    assert |w| == 2 + |z|;
  }

  lemma StartSymbol()
    requires TwoReadings().WellFormed()
    ensures TwoReadings().Start() == Sym("S")
  {
  }

  lemma BareForm(w: seq<Symbol>)
    requires Form(w) && |w| >= 2 && w[0] == Sym("x") && w[1] == Sym("B")
    ensures |w| == 2
  {
  }

  /** So in all collections of this grammar the tables have a conflict on z between two reduces, one of them on
      a lookahead that no right sentential form gives it. */
  lemma LooksNotExact(C: seq<seq<Item>>, K: seq<seq<Item>>, d: Delta, la: LookTable) returns (s: nat)
    requires TwoReadings().WellFormed() && Collection(TwoReadings(), C, K, d) && LooksComputed(TwoReadings(), C, d, la)
    requires LooksDefined(TwoReadings(), C, la)
    ensures s < |C| && Item(6, 1) in C[s] && Item(7, 1) in C[s] && (s, 6) in la && (s, 7) in la
    ensures Sym("z") in la[(s, 6)] && Sym("z") in la[(s, 7)] && !LalrLook(TwoReadings(), d, s, 6, Sym("z"))
  {
    hide Collection, LooksComputed, LalrLook;
    var q;
    Names();
    q, s := StatesOnTheWay(C, K, d);
    BothReduce(C, K, d, la, q, s);
    NoSuchForm(C, K, d, q, s);
  }
}
