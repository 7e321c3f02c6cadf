/** What can still come behind an item on the way through the automaton: for every item of every state
    reached over a path there is a rest of the input that the engine accepts the item with. */
module Futures {
  import opened Lists
  import opened Grammars
  import opened GrammarFacts
  import opened Items
  import opened ParserTables
  import opened Engine
  import opened EngineFacts
  import opened Soundness
  import opened Completeness
  import opened Coverage
  import opened ActiveStates

  /** What is expected behind the dot. */
  function Rest(g: Cfg, it: Item): seq<Symbol>
    requires ValidItem(g, it)
  {
    g.Rhs(it.num)[it.dot..]
  }

  /** The path leads to a state whose item at index `m` is valid. */
  ghost predicate ItemAt(g: Cfg, C: seq<seq<Item>>, d: Delta, gamma: seq<Symbol>, m: nat) {
    var q := Walk(d, 0, gamma);
    q.Some? && q.value < |C| && m < |C[q.value]| && ValidItem(g, C[q.value][m])
  }

  ghost function At(g: Cfg, C: seq<seq<Item>>, d: Delta, gamma: seq<Symbol>, m: nat): (it: Item)
    requires ItemAt(g, C, d, gamma, m)
    ensures ValidItem(g, it)
  {
    C[Walk(d, 0, gamma).value][m]
  }

  /** The input `y` can come after the production of the item: that of a moved item is what could come
      before the move, that of an initial item is what its caller expects behind it, and what can come
      after the caller. */
  ghost predicate Tail(g: Cfg, C: seq<seq<Item>>, d: Delta, gamma: seq<Symbol>, m: nat, y: seq<Symbol>)
    decreases |gamma|, m
  {
    ItemAt(g, C, d, gamma, m) &&
    var it := At(g, C, d, gamma, m);
    if it == Item(0, 0) then gamma == [] && y == []
    else if it.dot > 0 then
      gamma != [] && exists k: nat :: MovedFrom(g, C, d, gamma, k, it) && Tail(g, C, d, gamma[..|gamma| - 1], k, y)
    else
      exists k: nat, v, z :: k < m && CalledFrom(g, C, d, gamma, k, it, v) && Tail(g, C, d, gamma, k, z) && y == v + z
  }

  ghost predicate MovedFrom(g: Cfg, C: seq<seq<Item>>, d: Delta, gamma: seq<Symbol>, k: nat, it: Item) {
    && gamma != [] && it.dot > 0 && ItemAt(g, C, d, gamma[..|gamma| - 1], k)
    && At(g, C, d, gamma[..|gamma| - 1], k) == Item(it.num, it.dot - 1)
    && DotBefore(g, Item(it.num, it.dot - 1), gamma[|gamma| - 1])
  }

  ghost predicate CalledFrom(g: Cfg, C: seq<seq<Item>>, d: Delta, gamma: seq<Symbol>, k: nat, it: Item, v: seq<Symbol>) {
    && ItemAt(g, C, d, gamma, k) && it.dot == 0 && 1 <= it.num < |g.productions|
    && var c := At(g, C, d, gamma, k);
    && DotBefore(g, c, g.productions[it.num].name)
    && Terminals(g, v) && Derives(g, g.Rhs(c.num)[c.dot + 1..], v)
  }

  lemma PathStep(d: Delta, gamma: seq<Symbol>)
    requires gamma != [] && Walk(d, 0, gamma).Some?
    ensures var p := gamma[..|gamma| - 1];
      Walk(d, 0, p).Some? && (Walk(d, 0, p).value, gamma[|gamma| - 1]) in d
      && Walk(d, 0, gamma).value == d[(Walk(d, 0, p).value, gamma[|gamma| - 1])]
  {
  }

  lemma {:induction false} PathTo(g: Cfg, C: seq<seq<Item>>, K: seq<seq<Item>>, d: Delta, q: nat) returns (delta: seq<Symbol>)
    requires Collection(g, C, K, d) && q < |C|
    ensures Walk(d, 0, delta) == Some(q)
    decreases q
  {
    if q == 0 {
      delta := [];
    } else {
      var e := Entrance(g, C, K, d, q);
      var p := PathTo(g, C, K, d, e.0);
      WalkSnoc(d, 0, p, e.1);
      delta := p + [e.1];
    }
  }

  lemma Entrance(g: Cfg, C: seq<seq<Item>>, K: seq<seq<Item>>, d: Delta, q: nat) returns (e: (nat, Symbol))
    requires Collection(g, C, K, d) && 0 < q < |C|
    ensures e in d && e.0 < q && d[e] == q && d[(e.0, e.1)] == q
  {
    assert Reached(d, q);
    e :| e in d && e.0 < q && d[e] == q;
  }

  lemma StateBelow(g: Cfg, C: seq<seq<Item>>, K: seq<seq<Item>>, d: Delta, gamma: seq<Symbol>)
    requires Collection(g, C, K, d) && Walk(d, 0, gamma).Some?
    ensures Walk(d, 0, gamma).value < |C| && (Walk(d, 0, gamma).value == 0 <==> gamma == [])
  {
    if gamma != [] {
      PathStep(d, gamma);
    }
  }

  /** Every item has a tail. */
  lemma {:induction false} TailExists(g: Cfg, C: seq<seq<Item>>, K: seq<seq<Item>>, d: Delta, gamma: seq<Symbol>, m: nat) returns (y: seq<Symbol>)
    requires g.WellFormed() && Collection(g, C, K, d) && AllProductive(g) && Walk(d, 0, gamma).Some?
    requires m < |C[StateOf(g, C, K, d, gamma)]|
    ensures Tail(g, C, d, gamma, m, y) && Terminals(g, y)
    decreases |gamma|, m
  {
    hide Collection, AllProductive, DotBefore;
    var q := StateOf(g, C, K, d, gamma);
    var it := C[q][m];
    StateItems(g, C, K, d, q, it);
    if it == Item(0, 0) {
      StartItem(g, C, K, d, q);
      StateBelow(g, C, K, d, gamma);
      y := [];
    } else if it.dot > 0 {
      var k := Unmoved(g, C, K, d, gamma, m);
      y := TailExists(g, C, K, d, gamma[..|gamma| - 1], k);
    } else {
      var k, v := CallerOf(g, C, K, d, gamma, m);
      var z := TailExists(g, C, K, d, gamma, k);
      y := v + z;
      assert CalledFrom(g, C, d, gamma, k, it, v);
    }
  }

  ghost function StateOf(g: Cfg, C: seq<seq<Item>>, K: seq<seq<Item>>, d: Delta, gamma: seq<Symbol>): (q: nat)
    requires Collection(g, C, K, d) && Walk(d, 0, gamma).Some?
    ensures q < |C| && Walk(d, 0, gamma) == Some(q)
  {
    StateBelow(g, C, K, d, gamma);
    Walk(d, 0, gamma).value
  }

  lemma Unmoved(g: Cfg, C: seq<seq<Item>>, K: seq<seq<Item>>, d: Delta, gamma: seq<Symbol>, m: nat) returns (k: nat)
    requires g.WellFormed() && Collection(g, C, K, d) && ItemAt(g, C, d, gamma, m) && At(g, C, d, gamma, m).dot > 0
    ensures gamma != [] && MovedFrom(g, C, d, gamma, k, At(g, C, d, gamma, m))
    ensures Walk(d, 0, gamma[..|gamma| - 1]).Some? && k < |C[StateOf(g, C, K, d, gamma[..|gamma| - 1])]|
  {
    hide Collection, DotBefore;
    var it := At(g, C, d, gamma, m);
    if gamma == [] {
      StateZero(g, C, K, d, it);
    }
    PathStep(d, gamma);
    var p, x := gamma[..|gamma| - 1], gamma[|gamma| - 1];
    var q := StateOf(g, C, K, d, p);
    UnmoveItem(g, C, K, d, q, x, it);
    StateItems(g, C, K, d, q, Item(it.num, it.dot - 1));
    k :| 0 <= k < |C[q]| && C[q][k] == Item(it.num, it.dot - 1);
  }

  lemma CallerOf(g: Cfg, C: seq<seq<Item>>, K: seq<seq<Item>>, d: Delta, gamma: seq<Symbol>, m: nat) returns (k: nat, v: seq<Symbol>)
    requires g.WellFormed() && Collection(g, C, K, d) && AllProductive(g) && ItemAt(g, C, d, gamma, m)
    requires At(g, C, d, gamma, m).dot == 0 && At(g, C, d, gamma, m) != Item(0, 0)
    ensures k < m && CalledFrom(g, C, d, gamma, k, At(g, C, d, gamma, m), v)
  {
    hide Collection, AllProductive;
    var q, it := StateOf(g, C, K, d, gamma), At(g, C, d, gamma, m);
    var n := KernelSize(g, C, K, d, q);
    if m < n {
      KernelItem(g, C, K, d, q, m);
      KernelFirst(g, C, K, d, q, m);
    }
    k := Caller(g, C, K, d, q, m);
    StateItems(g, C, K, d, q, C[q][k]);
    v := RestDerives(g, C[q][k], C[q][k].dot + 1);
    forall i | 0 <= i < |v| ensures v[i] in g.terminals {
      assert v[i] in v;
    }
  }

  // ----- Where the item was started, and what can follow it there -----

  /** The item was started in the state under its symbols, which lie on top of the path. */
  ghost predicate Started(g: Cfg, C: seq<seq<Item>>, d: Delta, gamma: seq<Symbol>, it: Item) {
    && ValidItem(g, it) && it.dot <= |gamma| && gamma[|gamma| - it.dot..] == g.Rhs(it.num)[..it.dot]
    && var s := Walk(d, 0, gamma[..|gamma| - it.dot]);
    && Walk(d, 0, gamma).Some? && s.Some? && s.value < |C| && Item(it.num, 0) in C[s.value]
    && Walk(d, s.value, g.Rhs(it.num)[..it.dot]) == Walk(d, 0, gamma)
  }

  ghost function StartState(d: Delta, gamma: seq<Symbol>, n: nat): nat {
    if n <= |gamma| && Walk(d, 0, gamma[..|gamma| - n]).Some? then Walk(d, 0, gamma[..|gamma| - n]).value else 0
  }

  /** The next symbol of `y` is among the follow symbols of the item's start. */
  ghost predicate Followable(g: Cfg, d: Delta, fol: FollowMap, gamma: seq<Symbol>, it: Item, y: seq<Symbol>) {
    it.num < |g.productions| &&
    var e := (StartState(d, gamma, it.dot), g.productions[it.num].name);
    if it.num == 0 then y == [] else e in fol && NextSymbol(y) in fol[e]
  }

  lemma StartedMoved(g: Cfg, C: seq<seq<Item>>, d: Delta, gamma: seq<Symbol>, it: Item)
    requires it.dot > 0 && gamma != [] && Walk(d, 0, gamma).Some?
    requires DotBefore(g, Item(it.num, it.dot - 1), gamma[|gamma| - 1])
    requires Started(g, C, d, gamma[..|gamma| - 1], Item(it.num, it.dot - 1))
    ensures Started(g, C, d, gamma, it) && StartState(d, gamma, it.dot) == StartState(d, gamma[..|gamma| - 1], it.dot - 1)
  {
    hide Walk, DotBefore;
    var p, x := gamma[..|gamma| - 1], gamma[|gamma| - 1];
    NextValid(g, Item(it.num, it.dot - 1), x);
    var n := it.dot;
    assert p[..|p| - (n - 1)] == gamma[..|gamma| - n];
    var s := Walk(d, 0, gamma[..|gamma| - n]).value;
    assert g.Rhs(it.num)[..n] == g.Rhs(it.num)[..n - 1] + [x];
    assert gamma[|gamma| - n..] == p[|p| - (n - 1)..] + [x];
    assert gamma == p + [x];
    WalkSnoc(d, 0, p, x);
    WalkSnoc(d, s, g.Rhs(it.num)[..n - 1], x);
  }

  lemma NextValid(g: Cfg, it: Item, x: Symbol)
    requires DotBefore(g, it, x)
    ensures ValidItem(g, it.Next()) && it.dot < |g.Rhs(it.num)| && g.Rhs(it.num)[it.dot] == x
    ensures Rest(g, it) == [x] + Rest(g, it.Next())
  {
  }

  lemma StartedHere(g: Cfg, C: seq<seq<Item>>, d: Delta, gamma: seq<Symbol>, it: Item)
    requires ValidItem(g, it) && it.dot == 0 && Walk(d, 0, gamma).Some? && Walk(d, 0, gamma).value < |C| && it in C[Walk(d, 0, gamma).value]
    ensures Started(g, C, d, gamma, it) && StartState(d, gamma, 0) == Walk(d, 0, gamma).value
  {
    assert gamma[..|gamma| - 0] == gamma && gamma[|gamma|..] == [] && g.Rhs(it.num)[..0] == [];
  }

  /** What can come after an occurrence behind the dot: the follow set of its transition has it. */
  lemma OccurrenceFollow(g: Cfg, C: seq<seq<Item>>, K: seq<seq<Item>>, d: Delta, fol: FollowMap, la: LookTable, gamma: seq<Symbol>, c: Item,
                         v: seq<Symbol>, z: seq<Symbol>)
    requires Collection(g, C, K, d) && Adequate(g, C, d, fol, la) && Started(g, C, d, gamma, c) && Followable(g, d, fol, gamma, c, z)
    requires c.dot < |g.Rhs(c.num)| && g.Rhs(c.num)[c.dot] in g.nonterminals
    requires Terminals(g, v) && Derives(g, g.Rhs(c.num)[c.dot + 1..], v)
    ensures var e := (StartState(d, gamma, 0), g.Rhs(c.num)[c.dot]); e in fol && NextSymbol(v + z) in fol[e]
  {
    hide Collection, Walk, Derives, AdequateAt, LooksAt;
    assert gamma[..|gamma| - 0] == gamma;
    if c.num == 0 {
      StartItem(g, C, K, d, StartState(d, gamma, c.dot));
      NoRest(g, v);
      assert g.Rhs(0)[..0] == [] && v + z == [];
      EmptyWalk(d, StartState(d, gamma, c.dot));
    } else {
      FollowAt(g, C, d, fol, la, StartState(d, gamma, c.dot), Walk(d, 0, gamma).value, c.num, c.dot, v, z);
    }
  }

  lemma FollowAt(g: Cfg, C: seq<seq<Item>>, d: Delta, fol: FollowMap, la: LookTable, s: nat, q: nat, p: nat, i: nat, v: seq<Symbol>, z: seq<Symbol>)
    requires Adequate(g, C, d, fol, la) && s < |C| && 1 <= p < |g.productions| && Item(p, 0) in C[s]
    requires i < |g.Rhs(p)| && g.Rhs(p)[i] in g.nonterminals && Walk(d, s, g.Rhs(p)[..i]) == Some(q)
    requires (s, g.productions[p].name) in fol && NextSymbol(z) in fol[(s, g.productions[p].name)]
    requires Terminals(g, v) && Derives(g, g.Rhs(p)[i + 1..], v)
    ensures (q, g.Rhs(p)[i]) in fol && NextSymbol(v + z) in fol[(q, g.Rhs(p)[i])]
  {
    hide Walk, Derives;
    assert AdequateAt(g, C, d, fol, s, p, i);
    if v == [] {
      assert v + z == z;
    } else {
      assert v == [v[0]] + v[1..] && (v + z)[0] == v[0];
      assert CanStart(g, g.Rhs(p)[i + 1..], v[0]);
    }
  }

  lemma NoRest(g: Cfg, v: seq<Symbol>)
    requires g.WellFormed() && Derives(g, g.Rhs(0)[1..], v)
    ensures v == []
  {
    assert g.Rhs(0)[1..] == [];
    NothingDerived(g, v);
  }

  lemma {:induction false} TailFollow(g: Cfg, C: seq<seq<Item>>, K: seq<seq<Item>>, d: Delta, fol: FollowMap, la: LookTable,
                                      gamma: seq<Symbol>, m: nat, y: seq<Symbol>)
    requires Collection(g, C, K, d) && Adequate(g, C, d, fol, la) && Tail(g, C, d, gamma, m, y)
    ensures Started(g, C, d, gamma, At(g, C, d, gamma, m)) && Followable(g, d, fol, gamma, At(g, C, d, gamma, m), y)
    decreases |gamma|, m
  {
    hide *;
    var it := TailItem(g, C, d, gamma, m, y);
    if it == Item(0, 0) {
      StartFollow(g, C, d, fol, la, gamma, m, y);
    } else if it.dot > 0 {
      var k := TailMoved(g, C, d, gamma, m, y);
      TailFollow(g, C, K, d, fol, la, gamma[..|gamma| - 1], k, y);
      MovedFollow(g, C, d, fol, gamma, k, it, y);
    } else {
      var k, v, z := TailCalled(g, C, d, gamma, m, y);
      TailFollow(g, C, K, d, fol, la, gamma, k, z);
      CalledFollow(g, C, K, d, fol, la, gamma, k, it, m, v, z);
    }
  }

  lemma TailItem(g: Cfg, C: seq<seq<Item>>, d: Delta, gamma: seq<Symbol>, m: nat, y: seq<Symbol>) returns (it: Item)
    requires Tail(g, C, d, gamma, m, y)
    ensures ItemAt(g, C, d, gamma, m) && it == At(g, C, d, gamma, m) && Walk(d, 0, gamma).Some?
    ensures ValidItem(g, it)
  {
    it := At(g, C, d, gamma, m);
  }

  lemma TailMoved(g: Cfg, C: seq<seq<Item>>, d: Delta, gamma: seq<Symbol>, m: nat, y: seq<Symbol>) returns (k: nat)
    requires Tail(g, C, d, gamma, m, y) && At(g, C, d, gamma, m).dot > 0
    ensures gamma != [] && MovedFrom(g, C, d, gamma, k, At(g, C, d, gamma, m)) && Tail(g, C, d, gamma[..|gamma| - 1], k, y)
  {
    hide MovedFrom;
    k :| MovedFrom(g, C, d, gamma, k, At(g, C, d, gamma, m)) && Tail(g, C, d, gamma[..|gamma| - 1], k, y);
  }

  lemma TailCalled(g: Cfg, C: seq<seq<Item>>, d: Delta, gamma: seq<Symbol>, m: nat, y: seq<Symbol>) returns (k: nat, v: seq<Symbol>, z: seq<Symbol>)
    requires Tail(g, C, d, gamma, m, y) && At(g, C, d, gamma, m).dot == 0 && At(g, C, d, gamma, m) != Item(0, 0)
    ensures k < m && CalledFrom(g, C, d, gamma, k, At(g, C, d, gamma, m), v) && Tail(g, C, d, gamma, k, z) && y == v + z
  {
    hide CalledFrom;
    k, v, z :| k < m && CalledFrom(g, C, d, gamma, k, At(g, C, d, gamma, m), v) && Tail(g, C, d, gamma, k, z) && y == v + z;
  }

  lemma StartFollow(g: Cfg, C: seq<seq<Item>>, d: Delta, fol: FollowMap, la: LookTable, gamma: seq<Symbol>, m: nat, y: seq<Symbol>)
    requires Adequate(g, C, d, fol, la) && Tail(g, C, d, gamma, m, y) && At(g, C, d, gamma, m) == Item(0, 0)
    ensures Started(g, C, d, gamma, Item(0, 0)) && Followable(g, d, fol, gamma, Item(0, 0), y)
  {
    hide AdequateAt, LooksAt, Walk;
    StartedHere(g, C, d, gamma, Item(0, 0));
  }

  lemma MovedFollow(g: Cfg, C: seq<seq<Item>>, d: Delta, fol: FollowMap, gamma: seq<Symbol>, k: nat, it: Item, y: seq<Symbol>)
    requires gamma != [] && MovedFrom(g, C, d, gamma, k, it) && Walk(d, 0, gamma).Some?
    requires var p := gamma[..|gamma| - 1]; Started(g, C, d, p, At(g, C, d, p, k)) && Followable(g, d, fol, p, At(g, C, d, p, k), y)
    ensures Started(g, C, d, gamma, it) && Followable(g, d, fol, gamma, it, y)
  {
    hide Started, DotBefore, Walk, StartState;
    StartedMoved(g, C, d, gamma, it);
  }

  lemma CalledFollow(g: Cfg, C: seq<seq<Item>>, K: seq<seq<Item>>, d: Delta, fol: FollowMap, la: LookTable, gamma: seq<Symbol>,
                     k: nat, it: Item, m: nat, v: seq<Symbol>, z: seq<Symbol>)
    requires Collection(g, C, K, d) && Adequate(g, C, d, fol, la) && ItemAt(g, C, d, gamma, m) && it == At(g, C, d, gamma, m)
    requires CalledFrom(g, C, d, gamma, k, it, v)
    requires Started(g, C, d, gamma, At(g, C, d, gamma, k)) && Followable(g, d, fol, gamma, At(g, C, d, gamma, k), z)
    ensures Started(g, C, d, gamma, it) && Followable(g, d, fol, gamma, it, v + z)
  {
    hide Collection, Adequate, Started, DotBefore, Derives, Walk, StartState;
    StartedHere(g, C, d, gamma, it);
    CalledSymbol(g, C, d, fol, la, gamma, k, it, v);
    OccurrenceFollow(g, C, K, d, fol, la, gamma, At(g, C, d, gamma, k), v, z);
  }

  lemma CalledSymbol(g: Cfg, C: seq<seq<Item>>, d: Delta, fol: FollowMap, la: LookTable, gamma: seq<Symbol>, k: nat, it: Item, v: seq<Symbol>)
    requires Adequate(g, C, d, fol, la) && CalledFrom(g, C, d, gamma, k, it, v)
    ensures var c := At(g, C, d, gamma, k);
      c.dot < |g.Rhs(c.num)| && g.Rhs(c.num)[c.dot] == g.productions[it.num].name && g.Rhs(c.num)[c.dot] in g.nonterminals
  {
  }

  // ----- Nullable symbols on top of the path -----

  /** A stretch of nullable symbols on top of the path has among the follow symbols of each of its
      transitions whatever can come next behind it. */
  lemma {:induction false} TailSuffix(g: Cfg, C: seq<seq<Item>>, K: seq<seq<Item>>, d: Delta, fol: FollowMap, la: LookTable,
                                      gamma: seq<Symbol>, m: nat, y: seq<Symbol>, v: seq<Symbol>, j: nat)
    requires Collection(g, C, K, d) && Adequate(g, C, d, fol, la) && Tail(g, C, d, gamma, m, y)
    requires Terminals(g, v) && Derives(g, Rest(g, At(g, C, d, gamma, m)), v)
    requires j < |gamma| && NullableSymbols(g, gamma[j..])
    ensures var e := (StartState(d, gamma, |gamma| - j), gamma[j]); e in fol && NextSymbol(v + y) in fol[e]
    decreases |gamma|, m
  {
    hide *;
    var it := TailItem(g, C, d, gamma, m, y);
    if it == Item(0, 0) {
      NoPath(g, C, d, gamma, m, y);
    } else if it.dot > 0 {
      var k := TailMoved(g, C, d, gamma, m, y);
      var p := gamma[..|gamma| - 1];
      var c := MovedItem(g, C, d, gamma, k, it);
      PrefixStart(d, gamma, j);
      TopNullable(g, gamma, j);
      if j == |p| {
        TailFollow(g, C, K, d, fol, la, p, k, y);
        OccurrenceFollow(g, C, K, d, fol, la, p, c, v, y);
      } else {
        NullableRest(g, c, it, gamma[|gamma| - 1], v);
        assert gamma[j..][..|p| - j] == p[j..];
        PrefixNullable(g, gamma[j..], |p| - j);
        TailSuffix(g, C, K, d, fol, la, p, k, y, v, j);
      }
    } else {
      var k, w, z := TailCalled(g, C, d, gamma, m, y);
      var c := CalledRest(g, C, d, fol, la, gamma, m, k, it, v, w);
      TailSuffix(g, C, K, d, fol, la, gamma, k, z, v + w, j);
      assert v + w + z == v + (w + z);
    }
  }

  lemma NoPath(g: Cfg, C: seq<seq<Item>>, d: Delta, gamma: seq<Symbol>, m: nat, y: seq<Symbol>)
    requires Tail(g, C, d, gamma, m, y) && At(g, C, d, gamma, m) == Item(0, 0)
    ensures gamma == [] && y == []
  {
  }

  lemma MovedItem(g: Cfg, C: seq<seq<Item>>, d: Delta, gamma: seq<Symbol>, k: nat, it: Item) returns (c: Item)
    requires gamma != [] && MovedFrom(g, C, d, gamma, k, it)
    ensures ItemAt(g, C, d, gamma[..|gamma| - 1], k) && c == At(g, C, d, gamma[..|gamma| - 1], k)
    ensures ValidItem(g, c) && ValidItem(g, it) && c.num == it.num && c.dot == it.dot - 1
    ensures c.dot < |g.Rhs(c.num)| && g.Rhs(c.num)[c.dot] == gamma[|gamma| - 1]
    ensures Rest(g, c) == [gamma[|gamma| - 1]] + Rest(g, it) && Rest(g, it) == g.Rhs(c.num)[c.dot + 1..]
  {
    c := At(g, C, d, gamma[..|gamma| - 1], k);
  }

  lemma PrefixStart(d: Delta, gamma: seq<Symbol>, j: nat)
    requires j < |gamma|
    ensures var p := gamma[..|gamma| - 1];
      StartState(d, gamma, |gamma| - j) == StartState(d, p, |p| - j) && (j < |p| ==> p[j] == gamma[j])
  {
    hide Walk;
    var p := gamma[..|gamma| - 1];
    assert gamma[..j] == p[..j];
  }

  lemma TopNullable(g: Cfg, gamma: seq<Symbol>, j: nat)
    requires j < |gamma| && NullableSymbols(g, gamma[j..])
    ensures gamma[|gamma| - 1] in g.nonterminals && Nullable(g, [gamma[|gamma| - 1]])
  {
    assert gamma[j..][|gamma| - 1 - j] == gamma[|gamma| - 1];
  }

  lemma PrefixNullable(g: Cfg, alpha: seq<Symbol>, n: nat)
    requires n <= |alpha| && NullableSymbols(g, alpha)
    ensures NullableSymbols(g, alpha[..n])
  {
  }

  lemma NullableRest(g: Cfg, c: Item, it: Item, x: Symbol, v: seq<Symbol>)
    requires ValidItem(g, c) && ValidItem(g, it) && Rest(g, c) == [x] + Rest(g, it) && Nullable(g, [x]) && Derives(g, Rest(g, it), v)
    ensures Derives(g, Rest(g, c), v)
  {
    hide Derives;
    DerivesJoin(g, [x], [], Rest(g, it), v);
    assert [] + v == v;
  }

  lemma CalledRest(g: Cfg, C: seq<seq<Item>>, d: Delta, fol: FollowMap, la: LookTable, gamma: seq<Symbol>, m: nat, k: nat, it: Item,
                   v: seq<Symbol>, w: seq<Symbol>) returns (c: Item)
    requires Adequate(g, C, d, fol, la) && ItemAt(g, C, d, gamma, m) && it == At(g, C, d, gamma, m) && CalledFrom(g, C, d, gamma, k, it, w)
    requires Terminals(g, v) && Derives(g, Rest(g, it), v)
    ensures ItemAt(g, C, d, gamma, k) && c == At(g, C, d, gamma, k) && ValidItem(g, c)
    ensures Terminals(g, v + w) && Derives(g, Rest(g, c), v + w)
  {
    hide Derives;
    c := At(g, C, d, gamma, k);
    DerivesProduction(g, it.num);
    assert Rest(g, it) == g.Rhs(it.num);
    DerivesTrans(g, [g.productions[it.num].name], g.Rhs(it.num), v);
    NextValid(g, c, g.productions[it.num].name);
    DerivesJoin(g, [g.productions[it.num].name], v, g.Rhs(c.num)[c.dot + 1..], w);
  }

  // ----- Configurations over a path -----

  /** The stacks spell the path, and hold derivation trees of terminal strings. */
  ghost predicate Along(g: Cfg, C: seq<seq<Item>>, d: Delta, gamma: seq<Symbol>, c: Config) {
    && Ready(g, C, d, c) && |c.symstack| == |c.statestack| == |gamma| + 1 && Walk(d, 0, gamma) == Some(c.state)
    && (forall i :: 0 <= i < |gamma| ==> TopTree(g, c.symstack[i + 1], gamma[i]))
  }

  ghost predicate TopTree(g: Cfg, y: YaccSymbol, x: Symbol) {
    y.sym == x && ValidTree(g, y.value) && Root(g, y.value) == x && Terminals(g, Yield(y.value))
  }

  /** There is such a configuration for every path and every rest of the input. */
  lemma {:induction false} ConfigAlong(g: Cfg, C: seq<seq<Item>>, K: seq<seq<Item>>, d: Delta, gamma: seq<Symbol>, w: seq<Symbol>) returns (c: Config)
    requires g.WellFormed() && Collection(g, C, K, d) && AllProductive(g) && Walk(d, 0, gamma).Some? && Terminals(g, w)
    ensures Along(g, C, d, gamma, c) && Pending(c) == w && c.lookahead == None
    decreases |gamma|
  {
    hide Collection, AllProductive, Along;
    if gamma == [] {
      c := Initial(w);
      InitialViable(g, C, K, d, w);
      InitialAlong(g, C, d, w);
    } else {
      PathStep(d, gamma);
      var p, x := gamma[..|gamma| - 1], gamma[|gamma| - 1];
      var c0 := ConfigAlong(g, C, K, d, p, w);
      var t := SymbolTree(g, C, K, d, StateOf(g, C, K, d, p), x);
      StateBelow(g, C, K, d, gamma);
      AlongReady(g, C, d, p, c0);
      c := Extended(c0, d, x, t);
      AlongMore(g, C, d, p, c0, x, t);
      assert p + [x] == gamma;
    }
  }

  lemma InitialAlong(g: Cfg, C: seq<seq<Item>>, d: Delta, w: seq<Symbol>)
    requires g.WellFormed() && Terminals(g, w) && Viable(g, C, d, Initial(w))
    ensures Along(g, C, d, [], Initial(w)) && Pending(Initial(w)) == w
  {
    assert forall i :: 0 <= i < |w| ==> w[i] != End;
  }

  /** A symbol with a transition derives some terminal string. */
  lemma SymbolTree(g: Cfg, C: seq<seq<Item>>, K: seq<seq<Item>>, d: Delta, q: nat, x: Symbol) returns (t: Tree)
    requires g.WellFormed() && Collection(g, C, K, d) && AllProductive(g) && (q, x) in d
    ensures ValidTree(g, t) && Root(g, t) == x && Terminals(g, Yield(t))
  {
    hide Collection;
    var it := EdgeItem(g, C, K, d, q, x);
    assert g.productions[it.num].rhs[it.dot] in g.terminals + g.nonterminals;
    if x in g.terminals {
      t := Leaf(x);
    } else {
      assert Productive(g, x);
      var w :| Derives(g, [x], w) && forall a :: a in w ==> a in g.terminals;
      t := TreeOf(g, x, w);
      forall i | 0 <= i < |w| ensures w[i] in g.terminals {
        assert w[i] in w;
      }
    }
  }

  ghost function Extended(c: Config, d: Delta, x: Symbol, t: Tree): Config {
    var r := if (c.state, x) in d then d[(c.state, x)] else 0;
    c.(statestack := c.statestack + [r], symstack := c.symstack + [YaccSymbol(x, t)], state := r)
  }

  lemma AlongMore(g: Cfg, C: seq<seq<Item>>, d: Delta, p: seq<Symbol>, c: Config, x: Symbol, t: Tree)
    requires Along(g, C, d, p, c) && (c.state, x) in d && d[(c.state, x)] < |C|
    requires ValidTree(g, t) && Root(g, t) == x && Terminals(g, Yield(t))
    ensures Along(g, C, d, p + [x], Extended(c, d, x, t)) && Pending(Extended(c, d, x, t)) == Pending(c)
  {
    hide Walk, TopTree;
    WalkSnoc(d, 0, p, x);
    var c' := Extended(c, d, x, t);
    ExtendedViable(g, C, d, c, x, t);
    forall i | 0 <= i < |p + [x]| ensures TopTree(g, c'.symstack[i + 1], (p + [x])[i]) {
      if i < |p| {
        assert c'.symstack[i + 1] == c.symstack[i + 1];
      } else {
        NewTop(g, x, t);
      }
    }
  }

  lemma NewTop(g: Cfg, x: Symbol, t: Tree)
    requires ValidTree(g, t) && Root(g, t) == x && Terminals(g, Yield(t))
    ensures TopTree(g, YaccSymbol(x, t), x)
  {
  }

  lemma ExtendedViable(g: Cfg, C: seq<seq<Item>>, d: Delta, c: Config, x: Symbol, t: Tree)
    requires Viable(g, C, d, c) && (c.state, x) in d && d[(c.state, x)] < |C| && ValidTree(g, t) && Root(g, t) == x
    ensures Viable(g, C, d, Extended(c, d, x, t))
  {
    hide ValidTree;
    var c' := Extended(c, d, x, t);
    var n := |c.statestack|;
    forall i | 1 <= i < |c'.statestack| ensures Linked(d, c', i) && Rooted(g, c'.symstack[i]) {
      if i < n {
        assert Linked(d, c, i) && Rooted(g, c.symstack[i]);
      }
    }
  }

  // ----- Completing an item breaks into the stacks -----

  /** After `n` rounds without an error the stacks of `c` are no longer at the bottom, or the loop has
      been left. */
  ghost predicate Breaks(T: Tables, h: bool, c: Config, n: nat) {
    RunsClean(T, h, c, n) && !Kept(Run(T, h, c, n), c)
  }

  /** The engine gets through what is expected behind an item, and reduces: either a production that
      began inside the stacks, or the start symbol, which is accepted. */
  lemma {:induction false} TailBreaks(g: Cfg, C: seq<seq<Item>>, K: seq<seq<Item>>, d: Delta, fol: FollowMap, la: LookTable, T: Tables, h: bool,
                                      gamma: seq<Symbol>, m: nat, y: seq<Symbol>, c: Config, ts: seq<Tree>) returns (n: nat)
    requires Deterministic(g, C, K, d, fol, la, T) && Tail(g, C, d, gamma, m, y) && Along(g, C, d, gamma, c)
    requires Forest(g, Rest(g, At(g, C, d, gamma, m)), ts) && Terminals(g, Yields(ts)) && Pending(c) == Yields(ts) + y
    ensures Breaks(T, h, c, n)
    decreases m
  {
    hide *;
    var it := TailItem(g, C, d, gamma, m, y);
    if it == Item(0, 0) {
      n := StartBreaks(g, C, K, d, fol, la, T, h, gamma, m, y, c, ts);
    } else if it.dot > 0 {
      n := MovedBreaks(g, C, K, d, fol, la, T, h, gamma, m, y, c, ts);
    } else {
      var k, v, z := TailCalled(g, C, d, gamma, m, y);
      var us := CallerForest(g, C, K, d, fol, la, T, gamma, m, k, it, v, ts);
      assert Yields(ts) + (v + z) == Yields(ts) + v + z;
      n := TailBreaks(g, C, K, d, fol, la, T, h, gamma, k, z, c, us);
    }
  }

  lemma CallerForest(g: Cfg, C: seq<seq<Item>>, K: seq<seq<Item>>, d: Delta, fol: FollowMap, la: LookTable, T: Tables,
                     gamma: seq<Symbol>, m: nat, k: nat, it: Item, v: seq<Symbol>, ts: seq<Tree>) returns (us: seq<Tree>)
    requires Deterministic(g, C, K, d, fol, la, T)
    requires ItemAt(g, C, d, gamma, m) && it == At(g, C, d, gamma, m) && CalledFrom(g, C, d, gamma, k, it, v)
    requires Forest(g, Rest(g, it), ts) && Terminals(g, Yields(ts))
    ensures ItemAt(g, C, d, gamma, k) && Forest(g, Rest(g, At(g, C, d, gamma, k)), us)
    ensures Yields(us) == Yields(ts) + v && Terminals(g, Yields(us))
  {
    hide Deterministic, Derives, DotBefore;
    var c, x := At(g, C, d, gamma, k), g.productions[it.num].name;
    NextValid(g, c, x);
    assert Rest(g, it) == g.Rhs(it.num);
    DerivesIffForest(g, g.Rhs(c.num)[c.dot + 1..], v);
    var vs :| Forest(g, g.Rhs(c.num)[c.dot + 1..], vs) && Yields(vs) == v;
    var t := Node(it.num, ts);
    YieldsOne(t);
    ForestConcat(g, [x], [t], g.Rhs(c.num)[c.dot + 1..], vs);
    us := [t] + vs;
  }

  lemma StartBreaks(g: Cfg, C: seq<seq<Item>>, K: seq<seq<Item>>, d: Delta, fol: FollowMap, la: LookTable, T: Tables, h: bool,
                    gamma: seq<Symbol>, m: nat, y: seq<Symbol>, c: Config, ts: seq<Tree>) returns (n: nat)
    requires Deterministic(g, C, K, d, fol, la, T) && Tail(g, C, d, gamma, m, y) && Along(g, C, d, gamma, c)
    requires At(g, C, d, gamma, m) == Item(0, 0)
    requires Forest(g, Rest(g, Item(0, 0)), ts) && Terminals(g, Yields(ts)) && Pending(c) == Yields(ts) + y
    ensures Breaks(T, h, c, n)
  {
    hide *;
    WellFormedOf(g, C, K, d, fol, la, T);
    NoPath(g, C, d, gamma, m, y);
    var it := TailItem(g, C, d, gamma, m, y);
    var t := StartTree(g, C, d, gamma, m, c, ts);
    StartExpected(g, C, K, d, fol, la, T, c);
    AlongReady(g, C, d, gamma, c);
    n := ParseTree(g, C, K, d, fol, la, T, h, c, t, [], Item(0, 0));
    AcceptTaken(g, C, K, d, fol, la, T, h, c, Run(T, h, c, n), t);
    RunPlus(T, h, c, n, 1);
    n := n + 1;
    StoppedBreaks(T, h, c, n);
  }

  lemma AlongReady(g: Cfg, C: seq<seq<Item>>, d: Delta, gamma: seq<Symbol>, c: Config)
    requires Along(g, C, d, gamma, c)
    ensures Ready(g, C, d, c) && Walk(d, 0, gamma) == Some(c.state) && |c.symstack| == |c.statestack| == |gamma| + 1
    ensures c.status == Running
  {
  }

  lemma StoppedBreaks(T: Tables, h: bool, c: Config, n: nat)
    requires RunsClean(T, h, c, n) && Run(T, h, c, n).status != Running
    ensures Breaks(T, h, c, n)
  {
    hide Run, RunsClean;
  }

  lemma StartTree(g: Cfg, C: seq<seq<Item>>, d: Delta, gamma: seq<Symbol>, m: nat, c: Config, ts: seq<Tree>) returns (t: Tree)
    requires g.WellFormed() && gamma == [] && Along(g, C, d, gamma, c) && ItemAt(g, C, d, gamma, m) && At(g, C, d, gamma, m) == Item(0, 0)
    requires Forest(g, Rest(g, Item(0, 0)), ts) && Terminals(g, Yields(ts)) && Pending(c) == Yields(ts) + []
    ensures ValidTree(g, t) && Root(g, t) == g.Start() && Terminals(g, Yield(t)) && Pending(c) == Yield(t) + []
    ensures c.state == 0 && c.state < |C| && Item(0, 0) in C[0] && DotBefore(g, Item(0, 0), g.Start())
  {
    hide Ready, Yields;
    assert |Roots(g, ts)| == |ts| == 1;
    t := ts[0];
    assert ts == [t] && Roots(g, ts)[0] == Rest(g, Item(0, 0))[0];
    YieldsOne(t);
  }

  lemma StartExpected(g: Cfg, C: seq<seq<Item>>, K: seq<seq<Item>>, d: Delta, fol: FollowMap, la: LookTable, T: Tables, c: Config)
    requires Deterministic(g, C, K, d, fol, la, T) && c.state == 0
    ensures (c.state, g.Start()) in fol && NextSymbol([]) in fol[(c.state, g.Start())]
  {
  }

  /** The part of a configuration that belongs to the first `k` symbols of its path. */
  ghost function Truncated(c: Config, k: nat): Config
    requires k < |c.statestack| == |c.symstack|
  {
    c.(statestack := c.statestack[..k + 1], symstack := c.symstack[..k + 1], state := c.statestack[k])
  }

  lemma TruncatedReady(g: Cfg, C: seq<seq<Item>>, d: Delta, c: Config, k: nat)
    requires Ready(g, C, d, c) && k < |c.statestack| == |c.symstack|
    ensures Ready(g, C, d, Truncated(c, k)) && Pending(Truncated(c, k)) == Pending(c)
    ensures Truncated(c, k).statestack <= c.statestack && Truncated(c, k).symstack <= c.symstack
    ensures forall i :: 0 < i <= k ==> Linked(d, c, i)
  {
    hide ValidTree;
    var c0 := Truncated(c, k);
    forall i | 1 <= i < |c0.statestack| ensures Linked(d, c0, i) && Rooted(g, c0.symstack[i]) {
      assert Linked(d, c, i) && Rooted(g, c.symstack[i]);
    }
  }

  lemma {:induction false} AlongState(g: Cfg, C: seq<seq<Item>>, d: Delta, gamma: seq<Symbol>, c: Config, k: nat)
    requires Along(g, C, d, gamma, c) && k <= |gamma|
    ensures k < |c.statestack| == |c.symstack| && Walk(d, 0, gamma[..k]) == Some(c.statestack[k])
    decreases k
  {
    if k > 0 {
      AlongState(g, C, d, gamma, c, k - 1);
      assert Linked(d, c, k) && TopTree(g, c.symstack[k - 1 + 1], gamma[k - 1]);
      assert gamma[..k] == gamma[..k - 1] + [gamma[k - 1]];
      WalkSnoc(d, 0, gamma[..k - 1], gamma[k - 1]);
    }
  }

  lemma MovedBreaks(g: Cfg, C: seq<seq<Item>>, K: seq<seq<Item>>, d: Delta, fol: FollowMap, la: LookTable, T: Tables, h: bool,
                    gamma: seq<Symbol>, m: nat, y: seq<Symbol>, c: Config, ts: seq<Tree>) returns (n: nat)
    requires Deterministic(g, C, K, d, fol, la, T) && Tail(g, C, d, gamma, m, y) && Along(g, C, d, gamma, c)
    requires At(g, C, d, gamma, m).dot > 0
    requires Forest(g, Rest(g, At(g, C, d, gamma, m)), ts) && Terminals(g, Yields(ts)) && Pending(c) == Yields(ts) + y
    ensures Breaks(T, h, c, n)
  {
    hide *;
    var it := TailItem(g, C, d, gamma, m, y);
    WellFormedOf(g, C, K, d, fol, la, T);
    AdequateOf(g, C, K, d, fol, la, T);
    TailFollow(g, C, K, d, fol, la, gamma, m, y);
    if it.num == 0 {
      n := AcceptBreaks(g, C, K, d, fol, la, T, h, gamma, it, y, c, ts);
    } else {
      n := ReduceBreaks(g, C, K, d, fol, la, T, h, gamma, it, y, c, ts);
    }
  }

  lemma AdequateOf(g: Cfg, C: seq<seq<Item>>, K: seq<seq<Item>>, d: Delta, fol: FollowMap, la: LookTable, T: Tables)
    requires Deterministic(g, C, K, d, fol, la, T)
    ensures Adequate(g, C, d, fol, la)
  {
  }

  lemma AcceptBreaks(g: Cfg, C: seq<seq<Item>>, K: seq<seq<Item>>, d: Delta, fol: FollowMap, la: LookTable, T: Tables, h: bool,
                     gamma: seq<Symbol>, it: Item, y: seq<Symbol>, c: Config, ts: seq<Tree>) returns (n: nat)
    requires Deterministic(g, C, K, d, fol, la, T) && Along(g, C, d, gamma, c)
    requires it.num == 0 && it.dot > 0 && Started(g, C, d, gamma, it) && Followable(g, d, fol, gamma, it, y)
    requires Forest(g, Rest(g, it), ts) && Pending(c) == Yields(ts) + y
    ensures Breaks(T, h, c, n)
  {
    hide *;
    WellFormedOf(g, C, K, d, fol, la, T);
    var k := StartBelow(g, C, K, d, fol, gamma, it, y);
    AlongReady(g, C, d, gamma, c);
    AlongState(g, C, d, gamma, c, k);
    TruncatedReady(g, C, d, c, k);
    var t := StartOnTop(g, C, d, fol, gamma, it, y, c, ts);
    AcceptTaken(g, C, K, d, fol, la, T, h, Truncated(c, k), c, t);
    n := 1;
    AcceptedStops(T, h, c, t);
  }

  lemma AcceptedStops(T: Tables, h: bool, c: Config, t: Tree)
    requires RunsClean(T, h, c, 1) && Run(T, h, c, 1).status == Returned(Some(t))
    ensures Breaks(T, h, c, 1)
  {
    hide Run, RunsClean;
  }

  lemma StartBelow(g: Cfg, C: seq<seq<Item>>, K: seq<seq<Item>>, d: Delta, fol: FollowMap, gamma: seq<Symbol>, it: Item, y: seq<Symbol>)
    returns (k: nat)
    requires g.WellFormed() && Collection(g, C, K, d) && it.num == 0 && it.dot > 0
    requires Started(g, C, d, gamma, it) && Followable(g, d, fol, gamma, it, y)
    ensures k == 0 && it.dot == 1 && |gamma| == 1 && y == []
  {
    hide Collection;
    k := |gamma| - it.dot;
    StartItem(g, C, K, d, Walk(d, 0, gamma[..k]).value);
    StateBelow(g, C, K, d, gamma[..k]);
  }

  lemma StartOnTop(g: Cfg, C: seq<seq<Item>>, d: Delta, fol: FollowMap, gamma: seq<Symbol>, it: Item, y: seq<Symbol>,
                   c: Config, ts: seq<Tree>) returns (t: Tree)
    requires g.WellFormed() && Along(g, C, d, gamma, c) && it == Item(0, 1) && |gamma| == 1 && y == []
    requires Started(g, C, d, gamma, it) && Forest(g, Rest(g, it), ts) && Pending(c) == Yields(ts) + y
    ensures |c.statestack| == 2 == |c.symstack| && Truncated(c, 0).state == 0
    ensures Parsed(g, C, d, Truncated(c, 0), c, g.Start(), t, [])
  {
    hide Viable, ValidTree;
    t := c.symstack[1].value;
    AlongReadyLink(g, C, d, gamma, c);
    assert TopTree(g, c.symstack[0 + 1], gamma[0]);
    assert gamma[..0] == [] && g.Rhs(0)[..1] == [g.Start()] && gamma[0..] == gamma;
    assert Rest(g, it) == [] && |Roots(g, ts)| == |ts| == 0;
    assert c.statestack == [c.statestack[0]] + [c.statestack[1]];
    assert c.symstack == [c.symstack[0]] + [c.symstack[1]];
  }

  lemma AlongReadyLink(g: Cfg, C: seq<seq<Item>>, d: Delta, gamma: seq<Symbol>, c: Config)
    requires Along(g, C, d, gamma, c) && |gamma| == 1
    ensures c.statestack[0] == 0 && (0, c.symstack[1].sym) in d && c.statestack[1] == d[(0, c.symstack[1].sym)] && c.state == c.statestack[1]
  {
    hide ValidTree;
    assert Linked(d, c, 1);
  }

  lemma ReduceBreaks(g: Cfg, C: seq<seq<Item>>, K: seq<seq<Item>>, d: Delta, fol: FollowMap, la: LookTable, T: Tables, h: bool,
                     gamma: seq<Symbol>, it: Item, y: seq<Symbol>, c: Config, ts: seq<Tree>) returns (n: nat)
    requires Deterministic(g, C, K, d, fol, la, T) && Along(g, C, d, gamma, c)
    requires it.num > 0 && it.dot > 0 && Started(g, C, d, gamma, it) && Followable(g, d, fol, gamma, it, y)
    requires Forest(g, Rest(g, it), ts) && Terminals(g, Yields(ts)) && Pending(c) == Yields(ts) + y
    ensures Breaks(T, h, c, n)
  {
    hide *;
    WellFormedOf(g, C, K, d, fol, la, T);
    var c0, kids := KidsBelow(g, C, d, fol, gamma, it, y, c, ts);
    assert kids != [];
    var t := Node(it.num, kids);
    n := ParseKids(g, C, K, d, fol, la, T, h, c0, c, t, it.dot, y);
    var c' := Run(T, h, c, n);
    ReduceKids(g, C, K, d, fol, la, T, h, c0, c', it.num, kids, y);
    RunPlus(T, h, c, n, 1);
    ReducedBreaks(g, C, d, c0, c, Run(T, h, c', 1), it.num, kids, y);
    n := n + 1;
    UnkeptBreaks(T, h, c, n);
  }

  lemma UnkeptBreaks(T: Tables, h: bool, c: Config, n: nat)
    requires RunsClean(T, h, c, n) && !Kept(Run(T, h, c, n), c)
    ensures Breaks(T, h, c, n)
  {
  }

  /** The production begins in the state under its symbols, and its first children are on the stack. */
  lemma KidsBelow(g: Cfg, C: seq<seq<Item>>, d: Delta, fol: FollowMap, gamma: seq<Symbol>, it: Item, y: seq<Symbol>, c: Config, ts: seq<Tree>)
    returns (c0: Config, kids: seq<Tree>)
    requires g.WellFormed() && Along(g, C, d, gamma, c) && it.num > 0 && it.dot > 0
    requires Started(g, C, d, gamma, it) && Followable(g, d, fol, gamma, it, y)
    requires Forest(g, Rest(g, it), ts) && Terminals(g, Yields(ts)) && Pending(c) == Yields(ts) + y
    ensures it.num < |g.productions| && it.dot <= |kids| && Ready(g, C, d, c0) && c0.state < |C| && Item(it.num, 0) in C[c0.state]
    ensures (c0.state, g.productions[it.num].name) in fol && NextSymbol(y) in fol[(c0.state, g.productions[it.num].name)]
    ensures ValidTree(g, Node(it.num, kids)) && Terminals(g, Yields(kids)) && Root(g, Node(it.num, kids)) == g.productions[it.num].name
    ensures Midway(g, C, d, c0, c, it.num, kids, it.dot, Yields(kids[it.dot..]) + y)
    ensures |c.symstack| == |c0.symstack| + it.dot && kids[0] == c.symstack[|c0.symstack|].value
  {
    hide *;
    var k := StartedAt(g, C, d, gamma, it);
    AlongReady(g, C, d, gamma, c);
    AlongState(g, C, d, gamma, c, k);
    TruncatedReady(g, C, d, c, k);
    c0 := Truncated(c, k);
    TruncatedFacts(c, k);
    var top := StackTrees(g, C, d, gamma, c, k);
    TopForest(g, it, top, ts);
    kids := top + ts;
    FollowedStart(g, d, fol, gamma, it, y, k);
    KidsMidway(g, C, d, c0, c, it, top, ts, y, k);
  }

  lemma StartedAt(g: Cfg, C: seq<seq<Item>>, d: Delta, gamma: seq<Symbol>, it: Item) returns (k: nat)
    requires Started(g, C, d, gamma, it)
    ensures ValidItem(g, it) && k + it.dot == |gamma| && gamma[k..] == g.Rhs(it.num)[..it.dot]
    ensures var s := Walk(d, 0, gamma[..k]);
      s.Some? && s.value < |C| && Item(it.num, 0) in C[s.value] && Walk(d, s.value, g.Rhs(it.num)[..it.dot]) == Walk(d, 0, gamma)
  {
    hide Walk;
    k := |gamma| - it.dot;
  }

  lemma FollowedStart(g: Cfg, d: Delta, fol: FollowMap, gamma: seq<Symbol>, it: Item, y: seq<Symbol>, k: nat)
    requires it.num > 0 && Followable(g, d, fol, gamma, it, y) && k + it.dot == |gamma| && Walk(d, 0, gamma[..k]).Some?
    ensures it.num < |g.productions|
    ensures var e := (Walk(d, 0, gamma[..k]).value, g.productions[it.num].name); e in fol && NextSymbol(y) in fol[e]
  {
    hide Walk;
  }

  lemma TruncatedFacts(c: Config, k: nat)
    requires k < |c.statestack| == |c.symstack|
    ensures var c0 := Truncated(c, k);
      && c0.statestack == c.statestack[..k + 1] && c0.symstack == c.symstack[..k + 1] && c0.state == c.statestack[k]
  {
  }

  lemma StackTrees(g: Cfg, C: seq<seq<Item>>, d: Delta, gamma: seq<Symbol>, c: Config, k: nat) returns (ts: seq<Tree>)
    requires Along(g, C, d, gamma, c) && k <= |gamma|
    ensures |ts| == |gamma| - k && Forest(g, gamma[k..], ts) && Terminals(g, Yields(ts)) && |c.symstack| == |gamma| + 1
    ensures forall i :: 0 <= i < |ts| ==> ts[i] == c.symstack[k + 1 + i].value
    decreases |gamma| - k
  {
    hide Ready, Walk;
    ts := seq(|gamma| - k, i requires 0 <= i < |gamma| - k => c.symstack[k + 1 + i].value);
    forall i | 0 <= i < |ts| ensures ValidTree(g, ts[i]) && Root(g, ts[i]) == gamma[k..][i] && Terminals(g, Yield(ts[i])) {
      assert TopTree(g, c.symstack[k + i + 1], gamma[k + i]);
    }
    TokenYields(g, ts);
  }

  lemma {:induction false} TokenYields(g: Cfg, ts: seq<Tree>)
    requires forall i :: 0 <= i < |ts| ==> Terminals(g, Yield(ts[i]))
    ensures Terminals(g, Yields(ts))
  {
    if ts != [] {
      TokenYields(g, ts[1..]);
    }
  }

  lemma TopForest(g: Cfg, it: Item, top: seq<Tree>, ts: seq<Tree>)
    requires ValidItem(g, it) && Forest(g, g.Rhs(it.num)[..it.dot], top) && Terminals(g, Yields(top))
    requires Forest(g, Rest(g, it), ts) && Terminals(g, Yields(ts))
    ensures |top| == it.dot && |top + ts| == |g.Rhs(it.num)| && Forest(g, g.Rhs(it.num), top + ts)
    ensures ValidTree(g, Node(it.num, top + ts)) && Terminals(g, Yields(top + ts))
    ensures Root(g, Node(it.num, top + ts)) == g.productions[it.num].name && (top + ts)[it.dot..] == ts
    ensures it.dot > 0 ==> (top + ts)[0] == top[0]
  {
    assert |Roots(g, top)| == |top|;
    ForestConcat(g, g.Rhs(it.num)[..it.dot], top, Rest(g, it), ts);
    assert g.Rhs(it.num)[..it.dot] + Rest(g, it) == g.Rhs(it.num);
    assert |Roots(g, top + ts)| == |top + ts|;
  }

  lemma KidsMidway(g: Cfg, C: seq<seq<Item>>, d: Delta, c0: Config, c: Config, it: Item, top: seq<Tree>, ts: seq<Tree>, y: seq<Symbol>, k: nat)
    requires Ready(g, C, d, c) && Pending(c) == Yields(ts) + y && ValidItem(g, it) && it.dot > 0
    requires |c.statestack| == |c.symstack| == k + 1 + it.dot && |top| == it.dot && |top + ts| == |g.Rhs(it.num)|
    requires c0.statestack == c.statestack[..k + 1] && c0.symstack == c.symstack[..k + 1]
    requires Walk(d, c0.state, g.Rhs(it.num)[..it.dot]) == Some(c.state) && (top + ts)[it.dot..] == ts
    requires forall i :: 0 <= i < |top| ==> top[i] == c.symstack[k + 1 + i].value
    ensures Midway(g, C, d, c0, c, it.num, top + ts, it.dot, Yields((top + ts)[it.dot..]) + y)
    ensures (top + ts)[0] == c.symstack[|c0.symstack|].value && |c.symstack| == |c0.symstack| + it.dot
  {
    hide Ready, Walk, Yields;
  }

  /** The new node is not what was at its place on the stack: that is one of its children. */
  lemma ReducedBreaks(g: Cfg, C: seq<seq<Item>>, d: Delta, c0: Config, c: Config, e: Config, p: nat, kids: seq<Tree>, y: seq<Symbol>)
    requires p < |g.productions| && Parsed(g, C, d, c0, e, g.productions[p].name, Node(p, kids), y)
    requires |c.symstack| > |c0.symstack| && kids != [] && kids[0] == c.symstack[|c0.symstack|].value
    ensures !Kept(e, c)
  {
    hide Ready, Yields;
    assert Spine(Node(p, kids)) == 1 + Spine(kids[0]);
  }
}
