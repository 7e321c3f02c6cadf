/** What action and goto tables are, what the LR(0) collection offers to put into them, and what
    lookahead sets must contain for the tables to recognise the whole language. */
module ParserTables {
  import opened Lists
  import opened Grammars
  import opened GrammarFacts
  import opened Items

  /** One state's actions: positive to shift, zero to accept, negative to reduce. An entry may also
      hold Python's None, put there for a non-associative operator. */
  type ActionRow = map<Symbol, Option<int>>

  datatype Tables = Tables(action: map<nat, ActionRow>, goto: map<nat, map<Symbol, nat>>, productions: seq<Production>)

  /** The lookaheads of the completed item of a production in a state. */
  type LookTable = map<(nat, nat), set<Symbol>>

  ghost predicate OffersReduce(g: Cfg, C: seq<seq<Item>>, la: LookTable, q: nat, a: Symbol, p: nat) {
    && q < |C| && 1 <= p < |g.productions| && Item(p, |g.Rhs(p)|) in C[q]
    && (q, p) in la && a in la[(q, p)]
  }

  ghost predicate OffersAccept(g: Cfg, C: seq<seq<Item>>, q: nat, a: Symbol) {
    g.WellFormed() && q < |C| && Item(0, 1) in C[q] && a == End
  }

  ghost predicate OffersShift(g: Cfg, C: seq<seq<Item>>, d: Delta, q: nat, a: Symbol, it: Item) {
    q < |C| && it in C[q] && DotBefore(g, it, a) && a in g.terminals && (q, a) in d
  }

  /** The collection offers the encoded action `act` for the slot (q, a). */
  ghost predicate Offers(g: Cfg, C: seq<seq<Item>>, d: Delta, la: LookTable, q: nat, a: Symbol, act: int) {
    || (act < 0 && OffersReduce(g, C, la, q, a, -act))
    || (act == 0 && OffersAccept(g, C, q, a))
    || (act > 0 && exists it :: OffersShift(g, C, d, q, a, it) && act == d[(q, a)])
  }

  /** At most one action is offered for the slot. */
  ghost predicate Unanimous(g: Cfg, C: seq<seq<Item>>, d: Delta, la: LookTable, q: nat, a: Symbol) {
    forall x, y :: Offers(g, C, d, la, q, a, x) && Offers(g, C, d, la, q, a, y) ==> x == y
  }

  ghost predicate ConflictFree(g: Cfg, C: seq<seq<Item>>, d: Delta, la: LookTable) {
    forall q, a :: 0 <= q < |C| ==> Unanimous(g, C, d, la, q, a)
  }

  /** A row holds only offered actions, and an action that is offered without competition. */
  ghost predicate RowOk(g: Cfg, C: seq<seq<Item>>, d: Delta, la: LookTable, q: nat, row: ActionRow) {
    && (forall a :: a in row && row[a].Some? ==> Offers(g, C, d, la, q, a, row[a].value))
    && (forall a, act :: Offers(g, C, d, la, q, a, act) && Unanimous(g, C, d, la, q, a) ==> a in row && row[a] == Some(act))
  }

  ghost predicate GotoRowOk(g: Cfg, d: Delta, q: nat, row: map<Symbol, nat>) {
    && (forall n :: n in row <==> n in g.nonterminals && (q, n) in d)
    && (forall n :: n in row ==> row[n] == d[(q, n)])
  }

  /** Tables filled from the collection with the given lookaheads, however conflicts were settled. */
  ghost predicate Filled(g: Cfg, C: seq<seq<Item>>, d: Delta, la: LookTable, T: Tables) {
    && T.productions == g.productions
    && (forall q: nat :: q in T.action <==> q < |C|)
    && (forall q: nat :: q in T.goto <==> q < |C|)
    && (forall q :: 0 <= q < |C| ==> RowOk(g, C, d, la, q, T.action[q]))
    && (forall q :: 0 <= q < |C| ==> GotoRowOk(g, d, q, T.goto[q]))
  }

  // ----- Paths -----

  /** The state reached from `q` over the symbols of `alpha`. */
  function Walk(d: Delta, q: nat, alpha: seq<Symbol>): Option<nat> {
    if alpha == [] then Some(q)
    else
      var m := Walk(d, q, alpha[..|alpha| - 1]);
      if m.Some? && (m.value, alpha[|alpha| - 1]) in d then Some(d[(m.value, alpha[|alpha| - 1])]) else None
  }

  lemma EmptyWalk(d: Delta, q: nat)
    ensures Walk(d, q, []) == Some(q)
  {
  }

  lemma WalkSnoc(d: Delta, q: nat, alpha: seq<Symbol>, x: Symbol)
    ensures Walk(d, q, alpha + [x]) ==
            var m := Walk(d, q, alpha); if m.Some? && (m.value, x) in d then Some(d[(m.value, x)]) else None
  {
    assert (alpha + [x])[..|alpha + [x]| - 1] == alpha;
  }

  /** From a state with an initial item, the whole right-hand side can be walked, and the item comes
      along with its dot. */
  lemma {:induction false} WalkItem(g: Cfg, C: seq<seq<Item>>, K: seq<seq<Item>>, d: Delta, q: nat, p: nat, i: nat)
    requires Collection(g, C, K, d) && q < |C| && p < |g.productions| && Item(p, 0) in C[q] && i <= |g.Rhs(p)|
    ensures Walk(d, q, g.Rhs(p)[..i]).Some?
    ensures var r := Walk(d, q, g.Rhs(p)[..i]).value; r < |C| && Item(p, i) in C[r]
    decreases i
  {
    if i == 0 {
      assert g.Rhs(p)[..0] == [];
    } else {
      WalkItem(g, C, K, d, q, p, i - 1);
      var r := Walk(d, q, g.Rhs(p)[..i - 1]).value;
      var x := g.Rhs(p)[i - 1];
      assert g.Rhs(p)[..i] == g.Rhs(p)[..i - 1] + [x];
      WalkSnoc(d, q, g.Rhs(p)[..i - 1], x);
      StateItems(g, C, K, d, r, Item(p, i - 1));
      MoveItem(g, C, K, d, r, Item(p, i - 1), x);
    }
  }

  // ----- Adequate lookaheads -----

  /** The terminals that may follow a nonterminal transition. */
  type FollowMap = map<(nat, Symbol), set<Symbol>>

  /** What the occurrence of a nonterminal at index `i` of production `p`, started in state `q`, asks
      of the follow set of its transition. */
  ghost predicate AdequateAt(g: Cfg, C: seq<seq<Item>>, d: Delta, fol: FollowMap, q: nat, p: nat, i: nat) {
    (&& q < |C| && 1 <= p < |g.productions| && Item(p, 0) in C[q] && i < |g.Rhs(p)| && g.Rhs(p)[i] in g.nonterminals
     && (q, g.productions[p].name) in fol && Walk(d, q, g.Rhs(p)[..i]).Some?)
    ==>
    var e := (Walk(d, q, g.Rhs(p)[..i]).value, g.Rhs(p)[i]);
    && e in fol
    && (forall a :: a in g.terminals && CanStart(g, g.Rhs(p)[i + 1..], a) ==> a in fol[e])
    && (Nullable(g, g.Rhs(p)[i + 1..]) ==> fol[(q, g.productions[p].name)] <= fol[e])
  }

  /** The completed item of production `p`, started in state `q`, gets the follow set of that start. */
  ghost predicate LooksAt(g: Cfg, C: seq<seq<Item>>, d: Delta, fol: FollowMap, la: LookTable, q: nat, p: nat) {
    (&& q < |C| && 1 <= p < |g.productions| && Item(p, 0) in C[q]
     && (q, g.productions[p].name) in fol && Walk(d, q, g.Rhs(p)).Some?)
    ==>
    var e := (Walk(d, q, g.Rhs(p)).value, p);
    e in la && fol[(q, g.productions[p].name)] <= la[e]
  }

  /** `fol` and `la` are large enough for every derivation. */
  ghost predicate Adequate(g: Cfg, C: seq<seq<Item>>, d: Delta, fol: FollowMap, la: LookTable) {
    && g.WellFormed()
    && (0, g.Start()) in fol && End in fol[(0, g.Start())]
    && (forall q: nat, p: nat, i: nat {:trigger AdequateAt(g, C, d, fol, q, p, i)} :: AdequateAt(g, C, d, fol, q, p, i))
    && (forall q: nat, p: nat {:trigger LooksAt(g, C, d, fol, la, q, p)} :: LooksAt(g, C, d, fol, la, q, p))
  }

  /** Every completed item, except that of production 0, has lookaheads. */
  ghost predicate LooksDefined(g: Cfg, C: seq<seq<Item>>, la: LookTable) {
    forall q, p :: 0 <= q < |C| && 1 <= p < |g.productions| && Item(p, |g.Rhs(p)|) in C[q] ==> (q, p) in la
  }

  // ----- SLR lookaheads -----

  /** SLR: FOLLOW of the production's name, in every state. */
  ghost function SlrLooks(g: Cfg, C: seq<seq<Item>>, follow: SetTable): LookTable
    requires g.WellFormed() && follow.Keys == g.nonterminals
  {
    map q, p | q in Numbers(|C|) && p in Numbers(|g.productions|) && p > 0 :: (q, p) := Elems(follow[g.productions[p].name])
  }

  ghost function SlrFollows(g: Cfg, C: seq<seq<Item>>, follow: SetTable): FollowMap
    requires follow.Keys == g.nonterminals
  {
    map q, n | q in Numbers(|C|) && n in g.nonterminals :: (q, n) := Elems(follow[n])
  }

  /** The FOLLOW sets are adequate exactly when `$end` is in FOLLOW of the true start symbol. The sets
      are computed for the first rule's name, so this can fail for another start symbol. */
  lemma SlrAdequate(g: Cfg, C: seq<seq<Item>>, K: seq<seq<Item>>, d: Delta, start: Symbol, F: SetTable, follow: SetTable)
    requires Collection(g, C, K, d) && SetsClosed(g, start, F, follow) && FirstSound(g, F)
    ensures Adequate(g, C, d, SlrFollows(g, C, follow), SlrLooks(g, C, follow)) <==> End in follow[g.Start()]
  {
    hide Collection, FollowClosedAt, FirstClosed, FirstKeys, FirstSound, AdequateAt, LooksAt, SlrFollows, SlrLooks;
    var fol, la := SlrFollows(g, C, follow), SlrLooks(g, C, follow);
    forall q: nat, p: nat, i: nat ensures AdequateAt(g, C, d, fol, q, p, i) {
      SlrAdequateEntry(g, C, K, d, start, F, follow, q, p, i);
    }
    forall q: nat, p: nat ensures LooksAt(g, C, d, fol, la, q, p) {
      SlrLooksEntry(g, C, K, d, follow, q, p);
    }
    SlrStart(g, C, K, d, follow);
  }

  lemma SlrStart(g: Cfg, C: seq<seq<Item>>, K: seq<seq<Item>>, d: Delta, follow: SetTable)
    requires g.WellFormed() && Collection(g, C, K, d) && follow.Keys == g.nonterminals
    ensures var fol := SlrFollows(g, C, follow); (0, g.Start()) in fol && fol[(0, g.Start())] == Elems(follow[g.Start()])
  {
  }

  lemma SlrAdequateEntry(g: Cfg, C: seq<seq<Item>>, K: seq<seq<Item>>, d: Delta, start: Symbol, F: SetTable,
                         follow: SetTable, q: nat, p: nat, i: nat)
    requires Collection(g, C, K, d) && SetsClosed(g, start, F, follow) && FirstSound(g, F)
    ensures AdequateAt(g, C, d, SlrFollows(g, C, follow), q, p, i)
  {
    hide Collection, FollowClosed, FirstClosed, FirstKeys, CanStart, Nullable, FirstFact, Walk;
    if q < |C| && 1 <= p < |g.productions| && i < |g.Rhs(p)| && g.Rhs(p)[i] in g.nonterminals {
      SlrAdequateAt(g, start, F, follow, p, i);
      WalkInside(g, C, K, d, q, p, i);
    }
  }

  lemma SlrLooksEntry(g: Cfg, C: seq<seq<Item>>, K: seq<seq<Item>>, d: Delta, follow: SetTable, q: nat, p: nat)
    requires Collection(g, C, K, d) && g.WellFormed() && follow.Keys == g.nonterminals
    ensures LooksAt(g, C, d, SlrFollows(g, C, follow), SlrLooks(g, C, follow), q, p)
  {
    if q < |C| && 1 <= p < |g.productions| {
      assert g.Rhs(p)[..|g.Rhs(p)|] == g.Rhs(p);
      WalkInside(g, C, K, d, q, p, |g.Rhs(p)|);
    }
  }

  lemma WalkInside(g: Cfg, C: seq<seq<Item>>, K: seq<seq<Item>>, d: Delta, q: nat, p: nat, i: nat)
    requires Collection(g, C, K, d) && q < |C| && p < |g.productions| && i <= |g.Rhs(p)|
    ensures Item(p, 0) in C[q] ==> var r := Walk(d, q, g.Rhs(p)[..i]); r.Some? && r.value < |C|
  {
    if Item(p, 0) in C[q] {
      WalkItem(g, C, K, d, q, p, i);
    }
  }

  lemma SlrAdequateAt(g: Cfg, start: Symbol, F: SetTable, follow: SetTable, p: nat, i: nat)
    requires SetsClosed(g, start, F, follow) && FirstSound(g, F)
    requires 1 <= p < |g.productions| && i < |g.Rhs(p)| && g.Rhs(p)[i] in g.nonterminals
    ensures forall a :: a in g.terminals && CanStart(g, g.Rhs(p)[i + 1..], a) ==> a in follow[g.Rhs(p)[i]]
    ensures Nullable(g, g.Rhs(p)[i + 1..]) ==> Elems(follow[g.productions[p].name]) <= Elems(follow[g.Rhs(p)[i]])
  {
    var rest := g.Rhs(p)[i + 1..];
    SuffixSymbols(g, p, i);
    assert FollowClosedAt(g, F, follow, p, i);
    forall a | a in g.terminals && CanStart(g, rest, a) ensures a in follow[g.Rhs(p)[i]] {
      assert a != Empty;
      FirstSetCovers(g, F, rest, a);
      assert a in Elems(follow[g.Rhs(p)[i]]);
    }
    if Nullable(g, rest) {
      FirstSetCovers(g, F, rest, Empty);
    }
  }
}
