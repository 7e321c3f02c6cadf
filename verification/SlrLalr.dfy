/** LALR tables are at least as good as SLR tables: a grammar whose SLR tables have no conflict has LALR
    tables without conflicts. */
module SlrLalr {
  import opened Lists
  import opened Grammars
  import opened GrammarFacts
  import opened Items
  import opened ParserTables
  import opened Completeness
  import opened FollowBounds
  import opened ActiveStates
  import opened Halting

  // ----- Tables without conflicts can be filled -----

  ghost predicate Offered(g: Cfg, C: seq<seq<Item>>, d: Delta, la: LookTable, q: nat, a: Symbol) {
    exists act :: Offers(g, C, d, la, q, a, act)
  }

  ghost function Alphabet(g: Cfg, la: LookTable): set<Symbol> {
    g.terminals + {End} + set key, a | key in la && a in la[key] :: a
  }

  ghost function OfferedRow(g: Cfg, C: seq<seq<Item>>, d: Delta, la: LookTable, q: nat): (row: ActionRow)
    ensures forall a :: a in row <==> Offered(g, C, d, la, q, a)
    ensures forall a :: a in row ==> row[a].Some? && Offers(g, C, d, la, q, a, row[a].value)
  {
    OfferedSymbols(g, C, d, la, q);
    map a | a in Alphabet(g, la) && Offered(g, C, d, la, q, a) :: var act :| Offers(g, C, d, la, q, a, act); Some(act)
  }

  lemma OfferedSymbols(g: Cfg, C: seq<seq<Item>>, d: Delta, la: LookTable, q: nat)
    ensures forall a :: Offered(g, C, d, la, q, a) ==> a in Alphabet(g, la)
  {
  }

  ghost function GotoRow(g: Cfg, d: Delta, q: nat): (row: map<Symbol, nat>)
    ensures GotoRowOk(g, d, q, row)
  {
    map n | n in g.nonterminals && (q, n) in d :: d[(q, n)]
  }

  lemma OfferedRowOk(g: Cfg, C: seq<seq<Item>>, d: Delta, la: LookTable, q: nat)
    requires forall a :: Unanimous(g, C, d, la, q, a)
    ensures RowOk(g, C, d, la, q, OfferedRow(g, C, d, la, q))
  {
    hide Offers, OfferedRow;
    var row := OfferedRow(g, C, d, la, q);
    forall a, act | Offers(g, C, d, la, q, a, act) ensures a in row && row[a] == Some(act) {
      assert Offered(g, C, d, la, q, a) && Unanimous(g, C, d, la, q, a);
    }
  }

  lemma TablesExist(g: Cfg, C: seq<seq<Item>>, d: Delta, la: LookTable) returns (T: Tables)
    requires g.WellFormed() && ConflictFree(g, C, d, la)
    ensures Filled(g, C, d, la, T)
  {
    hide Unanimous, RowOk, OfferedRow, GotoRow, GotoRowOk;
    T := Tables(map q | q in Numbers(|C|) :: OfferedRow(g, C, d, la, q), map q | q in Numbers(|C|) :: GotoRow(g, d, q), g.productions);
    forall q | 0 <= q < |C| ensures RowOk(g, C, d, la, q, T.action[q]) {
      OfferedRowOk(g, C, d, la, q);
    }
  }

  // ----- No cycle of nullable transitions -----

  /** Lookaheads that are adequate and settle without conflicts leave no cycle in the reads relation. */
  lemma ConflictFreeReads(g: Cfg, C: seq<seq<Item>>, K: seq<seq<Item>>, d: Delta, fol: FollowMap, la: LookTable)
    requires g.WellFormed() && Collection(g, C, K, d) && Adequate(g, C, d, fol, la) && ConflictFree(g, C, d, la) && AllProductive(g)
    ensures NoReadsCycle(g, d)
  {
    hide *;
    var T := TablesExist(g, C, d, la);
    DeterministicFrom(g, C, K, d, fol, la, T);
    forall q: nat, alpha | alpha != [] && NullableSymbols(g, alpha) ensures Walk(d, q, alpha) != Some(q) {
      if Walk(d, q, alpha) == Some(q) {
        var r := StateBefore(d, q, alpha);
        StateBound(g, C, K, d, r, alpha[|alpha| - 1]);
        NoNullableCycle(g, C, K, d, fol, la, T, q, alpha);
      }
    }
    NoCycleFrom(g, d);
  }

  lemma DeterministicFrom(g: Cfg, C: seq<seq<Item>>, K: seq<seq<Item>>, d: Delta, fol: FollowMap, la: LookTable, T: Tables)
    requires g.WellFormed() && Collection(g, C, K, d) && Adequate(g, C, d, fol, la) && ConflictFree(g, C, d, la) && Filled(g, C, d, la, T)
    ensures Deterministic(g, C, K, d, fol, la, T)
  {
  }

  lemma NoCycleFrom(g: Cfg, d: Delta)
    requires forall q: nat, alpha {:trigger Walk(d, q, alpha)} :: alpha != [] && NullableSymbols(g, alpha) ==> Walk(d, q, alpha) != Some(q)
    ensures NoReadsCycle(g, d)
  {
  }

  /** So the lookaheads of conflict-free LALR tables are within FOLLOW. */
  lemma ConflictFreeWithin(g: Cfg, C: seq<seq<Item>>, K: seq<seq<Item>>, d: Delta, fol: FollowMap, la: LookTable, start: Symbol)
    requires g.WellFormed() && Collection(g, C, K, d) && Adequate(g, C, d, fol, la) && ConflictFree(g, C, d, la) && AllProductive(g)
    requires Bounded(g, d, la) && FollowFact(g, start, g.Start(), End)
    ensures WithinFollow(g, start, la)
  {
    hide Collection, Adequate, ConflictFree, AllProductive, WithinFollow, FollowFact, NoReadsCycle;
    ConflictFreeReads(g, C, K, d, fol, la);
  }

  // ----- From SLR to LALR -----

  lemma OffersMore(g: Cfg, C: seq<seq<Item>>, d: Delta, la: LookTable, start: Symbol, follow: SetTable, q: nat, a: Symbol, act: int)
    requires g.WellFormed() && FollowExact(g, start, follow) && WithinFollow(g, start, la) && Offers(g, C, d, la, q, a, act)
    ensures Offers(g, C, d, SlrLooks(g, C, follow), q, a, act)
  {
    hide FollowFact;
    if act < 0 {
      var p := -act;
      assert FollowFact(g, start, g.productions[p].name, a);
      assert a in follow[g.productions[p].name];
      assert a in SlrLooks(g, C, follow)[(q, p)];
    }
  }

  /** Where SLR lookaheads settle without conflicts, so do lookaheads within FOLLOW. */
  lemma FewerConflicts(g: Cfg, C: seq<seq<Item>>, d: Delta, la: LookTable, start: Symbol, follow: SetTable)
    requires g.WellFormed() && FollowExact(g, start, follow) && WithinFollow(g, start, la)
    requires ConflictFree(g, C, d, SlrLooks(g, C, follow))
    ensures ConflictFree(g, C, d, la)
  {
    hide Offers, FollowFact, WithinFollow, SlrLooks;
    forall q, a | 0 <= q < |C| ensures Unanimous(g, C, d, la, q, a) {
      assert Unanimous(g, C, d, SlrLooks(g, C, follow), q, a);
      forall x, y | Offers(g, C, d, la, q, a, x) && Offers(g, C, d, la, q, a, y) ensures x == y {
        OffersMore(g, C, d, la, start, follow, q, a, x);
        OffersMore(g, C, d, la, start, follow, q, a, y);
      }
    }
  }

  /** A grammar without infinite recursion whose SLR tables have no conflict, and whose start symbol has
      `$end` in its FOLLOW set, has LALR tables without conflicts. */
  lemma SlrImpliesLalr(g: Cfg, C: seq<seq<Item>>, K: seq<seq<Item>>, d: Delta, start: Symbol, F: SetTable, follow: SetTable, la: LookTable)
    requires Collection(g, C, K, d) && SetsClosed(g, start, F, follow) && FirstSound(g, F) && FollowExact(g, start, follow)
    requires AllProductive(g) && End in follow[g.Start()] && Bounded(g, d, la)
    requires ConflictFree(g, C, d, SlrLooks(g, C, follow))
    ensures ConflictFree(g, C, d, la)
  {
    hide Collection, SetsClosed, FirstSound, FollowFact, AllProductive, ConflictFree, NoReadsCycle, WithinFollow, SlrLooks, SlrFollows;
    ClosedFormed(g, start, F, follow);
    SlrAdequate(g, C, K, d, start, F, follow);
    ConflictFreeReads(g, C, K, d, SlrFollows(g, C, follow), SlrLooks(g, C, follow));
    assert FollowFact(g, start, g.Start(), End);
    FewerConflicts(g, C, d, la, start, follow);
  }

  lemma ClosedFormed(g: Cfg, start: Symbol, F: SetTable, follow: SetTable)
    requires SetsClosed(g, start, F, follow)
    ensures g.WellFormed()
  {
  }
}
