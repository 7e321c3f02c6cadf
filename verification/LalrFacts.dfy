/** Why the DeRemer/Pennello relations reach every lookahead: the sets that DR, reads, includes and
    lookback attach to completed items are adequate for every derivation. */
module LalrFacts {
  import opened Lists
  import opened Grammars
  import opened GrammarFacts
  import opened Items
  import opened ParserTables
  import opened Digraphs

  /** A nonterminal transition: a state and a nonterminal with a transition there. */
  type Trans = (nat, Symbol)

  predicate IsTrans(g: Cfg, d: Delta, e: Trans) {
    e in d && e.1 in g.nonterminals
  }

  ghost predicate TransKeys(g: Cfg, d: Delta, keys: set<Trans>) {
    forall e :: e in keys <==> IsTrans(g, d, e)
  }

  /** DR holds at least the terminals that can be shifted after the transition, and `$end` after the
      start symbol. */
  ghost predicate DirectReads(g: Cfg, d: Delta, dr: map<Trans, set<Symbol>>) {
    && g.WellFormed()
    && TransKeys(g, d, dr.Keys)
    && (forall e, a :: e in dr && a in g.terminals && (d[e], a) in d ==> a in dr[e])
    && ((0, g.Start()) in dr ==> End in dr[(0, g.Start())])
  }

  /** (q, A) reads (r, B): r is where the transition goes, and B is nullable and can be taken there. */
  ghost predicate ReadsEdges(g: Cfg, d: Delta, nullable: set<Symbol>, R: map<Trans, seq<Trans>>) {
    && TransKeys(g, d, R.Keys)
    && (forall e, n :: e in R && n in nullable && (d[e], n) in d ==> (d[e], n) in R[e])
  }

  /** Every symbol from index `i` on is a nullable nonterminal. */
  predicate NullableFrom(nullable: set<Symbol>, rhs: seq<Symbol>, i: nat) {
    forall k :: i <= k < |rhs| ==> rhs[k] in nullable
  }

  /** The occurrence at index `i` of production `p`, started in state `q`, includes the transition that
      started it when the rest of the production is nullable. */
  ghost predicate IncludesAt(g: Cfg, C: seq<seq<Item>>, d: Delta, nullable: set<Symbol>, R: map<Trans, seq<Trans>>, q: nat, p: nat, i: nat) {
    (&& q < |C| && 1 <= p < |g.productions| && Item(p, 0) in C[q] && i < |g.Rhs(p)| && g.Rhs(p)[i] in g.nonterminals
     && NullableFrom(nullable, g.Rhs(p), i + 1) && Walk(d, q, g.Rhs(p)[..i]).Some?)
    ==>
    var e := (Walk(d, q, g.Rhs(p)[..i]).value, g.Rhs(p)[i]);
    e in R && (q, g.productions[p].name) in R[e]
  }

  ghost predicate IncludesEdges(g: Cfg, C: seq<seq<Item>>, d: Delta, nullable: set<Symbol>, R: map<Trans, seq<Trans>>) {
    && TransKeys(g, d, R.Keys)
    && (forall q: nat, p: nat, i: nat {:trigger IncludesAt(g, C, d, nullable, R, q, p, i)} :: IncludesAt(g, C, d, nullable, R, q, p, i))
  }

  /** The lookahead `a` can be read in state `s`: shifted, or behind a nullable transition. */
  ghost predicate StateReads(d: Delta, nullable: set<Symbol>, R: map<Trans, seq<Trans>>, dr: map<Trans, set<Symbol>>, s: nat, a: Symbol) {
    (s, a) in d || exists n :: n in nullable && (s, n) in d && Required(R, dr, (s, n), a)
  }

  /** What can be read where a transition leads is required of the transition's read set. */
  lemma ReadBehind(g: Cfg, d: Delta, nullable: set<Symbol>, R: map<Trans, seq<Trans>>, dr: map<Trans, set<Symbol>>, e: Trans, a: Symbol)
    requires DirectReads(g, d, dr) && ReadsEdges(g, d, nullable, R) && IsTrans(g, d, e) && a in g.terminals
    requires StateReads(d, nullable, R, dr, d[e], a)
    ensures Required(R, dr, e, a)
  {
    ReachesSelf(R, e);
    if (d[e], a) in d {
      assert a in dr[e];
    } else {
      var n :| n in nullable && (d[e], n) in d && Required(R, dr, (d[e], n), a);
      ReachesSelf(R, (d[e], n));
      ReachesStep(R, e, (d[e], n), (d[e], n));
      RequiredStep(R, dr, e, (d[e], n), a);
    }
  }

  /** The first terminal of what an item in state `s` still expects can be read in `s`. */
  lemma {:induction false} ReadForest(g: Cfg, C: seq<seq<Item>>, K: seq<seq<Item>>, d: Delta, nullable: set<Symbol>,
                                      R: map<Trans, seq<Trans>>, dr: map<Trans, set<Symbol>>, s: nat, it: Item, ts: seq<Tree>, a: Symbol)
    requires g.WellFormed() && Collection(g, C, K, d) && NullableExact(g, nullable) && DirectReads(g, d, dr) && ReadsEdges(g, d, nullable, R)
    requires s < |C| && it in C[s] && ValidItem(g, it) && Forest(g, g.Rhs(it.num)[it.dot..], ts)
    requires a in g.terminals && Yields(ts) != [] && Yields(ts)[0] == a
    ensures StateReads(d, nullable, R, dr, s, a)
    decreases ts
  {
    hide Collection, NullableExact, DirectReads, ReadsEdges, StateReads;
    var rest := g.Rhs(it.num)[it.dot..];
    ForestSuffix(g, rest, ts, 0);
    var t, x := ts[0], rest[0];
    assert DotBefore(g, it, x);
    MoveItem(g, C, K, d, s, it, x);
    if Yield(t) == [] {
      TreeDerives(g, t);
      NullableRoot(g, nullable, it, t, x);
      assert rest[1..] == g.Rhs(it.num)[it.dot + 1..];
      StateBound(g, C, K, d, s, x);
      StateItems(g, C, K, d, d[(s, x)], it.Next());
      ReadForest(g, C, K, d, nullable, R, dr, d[(s, x)], it.Next(), ts[1..], a);
      ReadBehind(g, d, nullable, R, dr, (s, x), a);
      ReadThrough(d, nullable, R, dr, s, x, a);
    } else {
      assert Yield(t)[0] == a;
      match t
      case Leaf(_) => ReadHere(d, nullable, R, dr, s, a);
      case Node(p, kids) =>
        NamedProduction(g, it, p);
        CloseItem(g, C, K, d, s, it, p);
        assert g.Rhs(p)[0..] == g.Rhs(p);
        ReadForest(g, C, K, d, nullable, R, dr, s, Item(p, 0), kids, a);
    }
  }

  lemma NamedProduction(g: Cfg, it: Item, p: nat)
    requires g.WellFormed() && p < |g.productions| && DotBefore(g, it, g.productions[p].name)
    ensures p > 0
  {
    assert g.Rhs(it.num)[it.dot] in g.terminals + g.nonterminals;
  }

  lemma NullableRoot(g: Cfg, nullable: set<Symbol>, it: Item, t: Tree, x: Symbol)
    requires g.WellFormed() && NullableExact(g, nullable) && ValidTree(g, t) && Root(g, t) == x && Derives(g, [x], [])
    requires Yield(t) == [] && DotBefore(g, it, x)
    ensures x in nullable && x in g.nonterminals
  {
    assert g.Rhs(it.num)[it.dot] in g.terminals + g.nonterminals;
    RootKind(g, t);
  }

  lemma ReadHere(d: Delta, nullable: set<Symbol>, R: map<Trans, seq<Trans>>, dr: map<Trans, set<Symbol>>, s: nat, a: Symbol)
    requires (s, a) in d
    ensures StateReads(d, nullable, R, dr, s, a)
  {
  }

  lemma ReadThrough(d: Delta, nullable: set<Symbol>, R: map<Trans, seq<Trans>>, dr: map<Trans, set<Symbol>>, s: nat, x: Symbol, a: Symbol)
    requires x in nullable && (s, x) in d && Required(R, dr, (s, x), a)
    ensures StateReads(d, nullable, R, dr, s, a)
  {
  }

  /** The read lists cover what the reads relation requires. */
  ghost predicate ReadsCovered(R: map<Trans, seq<Trans>>, dr: map<Trans, set<Symbol>>, rd: map<Trans, set<Symbol>>) {
    rd.Keys == dr.Keys && forall e, a :: e in dr && Required(R, dr, e, a) ==> a in rd[e]
  }

  /** The follow sets that the includes relation requires, given the read sets. */
  ghost function RequiredFollows(g: Cfg, inc: map<Trans, seq<Trans>>, rd: map<Trans, set<Symbol>>): FollowMap {
    map e | e in rd :: set a | a in g.terminals + {End} && Required(inc, rd, e, a)
  }

  lemma FollowOfOccurrence(g: Cfg, C: seq<seq<Item>>, K: seq<seq<Item>>, d: Delta, nullable: set<Symbol>,
                           R: map<Trans, seq<Trans>>, dr: map<Trans, set<Symbol>>, rd: map<Trans, set<Symbol>>, inc: map<Trans, seq<Trans>>,
                           q: nat, p: nat, i: nat)
    requires g.WellFormed() && Collection(g, C, K, d) && NullableExact(g, nullable) && DirectReads(g, d, dr) && ReadsEdges(g, d, nullable, R)
    requires ReadsCovered(R, dr, rd) && IncludesEdges(g, C, d, nullable, inc)
    ensures AdequateAt(g, C, d, RequiredFollows(g, inc, rd), q, p, i)
  {
    hide Collection, NullableExact, DirectReads, ReadsEdges, ReadsCovered, IncludesEdges, Required;
    if q < |C| && 1 <= p < |g.productions| && Item(p, 0) in C[q] && i < |g.Rhs(p)| && g.Rhs(p)[i] in g.nonterminals {
      WalkItem(g, C, K, d, q, p, i);
      var r, B := Walk(d, q, g.Rhs(p)[..i]).value, g.Rhs(p)[i];
      StateItems(g, C, K, d, r, Item(p, i));
      MoveItem(g, C, K, d, r, Item(p, i), B);
      OccurrenceKeys(g, d, R, dr, rd, (r, B));
      forall a | a in g.terminals && CanStart(g, g.Rhs(p)[i + 1..], a) ensures Required(inc, rd, (r, B), a) {
        FollowByReading(g, C, K, d, nullable, R, dr, rd, inc, r, p, i, a);
      }
      if Nullable(g, g.Rhs(p)[i + 1..]) && (q, g.productions[p].name) in rd {
        forall a | Required(inc, rd, (q, g.productions[p].name), a) ensures Required(inc, rd, (r, B), a) {
          FollowByIncluding(g, C, d, nullable, rd, inc, q, r, p, i, a);
        }
      }
    }
  }

  lemma OccurrenceKeys(g: Cfg, d: Delta, R: map<Trans, seq<Trans>>, dr: map<Trans, set<Symbol>>, rd: map<Trans, set<Symbol>>, e: Trans)
    requires DirectReads(g, d, dr) && ReadsCovered(R, dr, rd) && IsTrans(g, d, e)
    ensures e in rd && e in dr
  {
  }

  lemma StartForest(g: Cfg, rest: seq<Symbol>, a: Symbol) returns (ts: seq<Tree>)
    requires CanStart(g, rest, a)
    ensures Forest(g, rest, ts) && Yields(ts) != [] && Yields(ts)[0] == a
  {
    var tail :| Derives(g, rest, [a] + tail);
    DerivesIffForest(g, rest, [a] + tail);
    ts :| Forest(g, rest, ts) && Yields(ts) == [a] + tail;
  }

  lemma FollowByReading(g: Cfg, C: seq<seq<Item>>, K: seq<seq<Item>>, d: Delta, nullable: set<Symbol>,
                        R: map<Trans, seq<Trans>>, dr: map<Trans, set<Symbol>>, rd: map<Trans, set<Symbol>>, inc: map<Trans, seq<Trans>>,
                        r: nat, p: nat, i: nat, a: Symbol)
    requires g.WellFormed() && Collection(g, C, K, d) && NullableExact(g, nullable) && DirectReads(g, d, dr) && ReadsEdges(g, d, nullable, R)
    requires ReadsCovered(R, dr, rd) && r < |C| && 1 <= p < |g.productions| && i < |g.Rhs(p)|
    requires Item(p, i) in C[r] && g.Rhs(p)[i] in g.nonterminals
    requires a in g.terminals && CanStart(g, g.Rhs(p)[i + 1..], a)
    ensures Required(inc, rd, (r, g.Rhs(p)[i]), a)
  {
    hide Collection, NullableExact, ReadsEdges, StateReads, Reaches, CanStart, Forest, Yields;
    var B, rest := g.Rhs(p)[i], g.Rhs(p)[i + 1..];
    MoveItem(g, C, K, d, r, Item(p, i), B);
    StateBound(g, C, K, d, r, B);
    var ts := StartForest(g, rest, a);
    ReadForest(g, C, K, d, nullable, R, dr, d[(r, B)], Item(p, i + 1), ts, a);
    ReadBehind(g, d, nullable, R, dr, (r, B), a);
    ReachesSelf(inc, (r, B));
  }

  lemma FollowByIncluding(g: Cfg, C: seq<seq<Item>>, d: Delta, nullable: set<Symbol>, rd: map<Trans, set<Symbol>>,
                          inc: map<Trans, seq<Trans>>, q: nat, r: nat, p: nat, i: nat, a: Symbol)
    requires g.WellFormed() && NullableExact(g, nullable) && IncludesEdges(g, C, d, nullable, inc)
    requires q < |C| && 1 <= p < |g.productions| && Item(p, 0) in C[q] && i < |g.Rhs(p)| && g.Rhs(p)[i] in g.nonterminals
    requires Walk(d, q, g.Rhs(p)[..i]) == Some(r) && Nullable(g, g.Rhs(p)[i + 1..])
    requires Required(inc, rd, (q, g.productions[p].name), a)
    ensures Required(inc, rd, (r, g.Rhs(p)[i]), a)
  {
    NullableSuffix(g, nullable, p, i);
    assert IncludesAt(g, C, d, nullable, inc, q, p, i);
    var e, e' := (r, g.Rhs(p)[i]), (q, g.productions[p].name);
    ReachesSelf(inc, e');
    ReachesStep(inc, e, e', e');
    RequiredStep(inc, rd, e, e', a);
  }

  lemma NullableSuffix(g: Cfg, nullable: set<Symbol>, p: nat, i: nat)
    requires g.WellFormed() && NullableExact(g, nullable) && p < |g.productions| && i < |g.Rhs(p)|
    requires Nullable(g, g.Rhs(p)[i + 1..])
    ensures NullableFrom(nullable, g.Rhs(p), i + 1)
  {
    var rest := g.Rhs(p)[i + 1..];
    DerivesIffForest(g, rest, []);
    var ts :| Forest(g, rest, ts) && Yields(ts) == [];
    forall k | i + 1 <= k < |g.Rhs(p)| ensures g.Rhs(p)[k] in nullable {
      var j := k - (i + 1);
      ForestSuffix(g, rest, ts, j);
      YieldPart(ts, j);
      TreeDerives(g, ts[j]);
      RootKind(g, ts[j]);
      SuffixSymbols(g, p, k);
    }
  }

  /** The lookaheads given to completed items include the follow sets found by lookback. */
  ghost predicate LooksCovered(g: Cfg, C: seq<seq<Item>>, d: Delta, fol: FollowMap, la: LookTable) {
    forall q: nat, p: nat {:trigger LooksAt(g, C, d, fol, la, q, p)} :: LooksAt(g, C, d, fol, la, q, p)
  }

  /** The lookaheads computed from the four relations are adequate. */
  lemma LalrAdequate(g: Cfg, C: seq<seq<Item>>, K: seq<seq<Item>>, d: Delta, nullable: set<Symbol>,
                     R: map<Trans, seq<Trans>>, dr: map<Trans, set<Symbol>>, rd: map<Trans, set<Symbol>>, inc: map<Trans, seq<Trans>>,
                     la: LookTable)
    requires g.WellFormed() && Collection(g, C, K, d) && NullableExact(g, nullable) && DirectReads(g, d, dr) && ReadsEdges(g, d, nullable, R)
    requires ReadsCovered(R, dr, rd) && IncludesEdges(g, C, d, nullable, inc)
    requires LooksCovered(g, C, d, RequiredFollows(g, inc, rd), la)
    ensures Adequate(g, C, d, RequiredFollows(g, inc, rd), la)
  {
    hide *;
    var fol := RequiredFollows(g, inc, rd);
    StartFollows(g, C, K, d, R, dr, rd, inc);
    forall q: nat, p: nat, i: nat ensures AdequateAt(g, C, d, fol, q, p, i) {
      FollowOfOccurrence(g, C, K, d, nullable, R, dr, rd, inc, q, p, i);
    }
    AdequateFrom(g, C, d, fol, la);
  }

  lemma AdequateFrom(g: Cfg, C: seq<seq<Item>>, d: Delta, fol: FollowMap, la: LookTable)
    requires g.WellFormed() && (0, g.Start()) in fol && End in fol[(0, g.Start())]
    requires forall q: nat, p: nat, i: nat {:trigger AdequateAt(g, C, d, fol, q, p, i)} :: AdequateAt(g, C, d, fol, q, p, i)
    requires LooksCovered(g, C, d, fol, la)
    ensures Adequate(g, C, d, fol, la)
  {
    hide AdequateAt, LooksAt;
  }

  lemma StartFollows(g: Cfg, C: seq<seq<Item>>, K: seq<seq<Item>>, d: Delta,
                     R: map<Trans, seq<Trans>>, dr: map<Trans, set<Symbol>>, rd: map<Trans, set<Symbol>>, inc: map<Trans, seq<Trans>>)
    requires Collection(g, C, K, d) && DirectReads(g, d, dr) && ReadsCovered(R, dr, rd)
    ensures var fol := RequiredFollows(g, inc, rd); (0, g.Start()) in fol && End in fol[(0, g.Start())]
  {
    var e := (0, g.Start());
    StartItem(g, C, K, d, 0);
    MoveItem(g, C, K, d, 0, Item(0, 0), g.Start());
    ReachesSelf(R, e);
    assert Required(R, dr, e, End);
    ReachesSelf(inc, e);
    assert Required(inc, rd, e, End);
  }
}
