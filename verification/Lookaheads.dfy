/** From the computed relations to the lookaheads of completed items: what the read sets, follow sets
    and lookbacks put together are adequate for every derivation, and contain nothing unread. */
module Lookaheads {
  import opened Lists
  import opened Grammars
  import opened GrammarFacts
  import opened Items
  import opened ParserTables
  import opened Digraphs
  import opened LalrFacts
  import opened Relations

  // ----- The reads relation, as handed to the solver -----

  ghost predicate ReadsAt(d: Delta, nullable: set<Symbol>, e: Trans, rel: seq<Trans>) {
    e in d && forall r: Trans :: r in rel <==> r.0 == d[e] && r.1 in nullable && r in d
  }

  ghost predicate DirectAt(g: Cfg, d: Delta, e: Trans, terms: seq<Symbol>) {
    forall a :: a in terms <==> DirectlyRead(g, d, e, a)
  }

  /** The successor lists and the initial lists of the transitions in `ts`, no list used twice. */
  ghost predicate ReadsBuilt(g: Cfg, d: Delta, nullable: set<Symbol>, ts: set<Trans>, R: map<Trans, seq<Trans>>,
                             FP: map<Trans, nat>, lists: seq<seq<Symbol>>)
  {
    && R.Keys == FP.Keys == ts
    && (forall e :: e in R ==> ReadsAt(d, nullable, e, R[e]))
    && (forall e :: e in FP ==> FP[e] < |lists| && DirectAt(g, d, e, lists[FP[e]]))
    && Unaliased(FP)
  }

  lemma ReadsStart(g: Cfg, d: Delta, nullable: set<Symbol>)
    ensures ReadsBuilt(g, d, nullable, {}, map[], map[], [])
  {
  }

  lemma ReadsMore(g: Cfg, d: Delta, nullable: set<Symbol>, ts: set<Trans>, R: map<Trans, seq<Trans>>,
                  FP: map<Trans, nat>, lists: seq<seq<Symbol>>, e: Trans, rel: seq<Trans>, terms: seq<Symbol>)
    requires ReadsBuilt(g, d, nullable, ts, R, FP, lists) && e in d
    requires ReadsAt(d, nullable, e, rel) && DirectAt(g, d, e, terms)
    ensures ReadsBuilt(g, d, nullable, ts + {e}, R[e := rel], FP[e := |lists|], lists + [terms])
  {
    hide ReadsAt, DirectAt;
  }

  lemma ElemsCount<T>(s: seq<T>)
    ensures |Elems(s)| <= |s|
  {
    if s != [] {
      ElemsCount(s[..|s| - 1]);
      ElemsSnoc(s[..|s| - 1], s[|s| - 1]);
      assert s == s[..|s| - 1] + [s[|s| - 1]];
    }
  }

  /** Successors are nonterminal transitions again. */
  lemma ReadsClosed(g: Cfg, d: Delta, nullable: set<Symbol>, trans: seq<Trans>, R: map<Trans, seq<Trans>>,
                    FP: map<Trans, nat>, lists: seq<seq<Symbol>>)
    requires ReadsBuilt(g, d, nullable, Elems(trans), R, FP, lists) && TransKeys(g, d, Elems(trans))
    requires nullable <= g.nonterminals && |trans| < MAXINT
    ensures |R| < MAXINT && R.Keys == FP.Keys == Elems(trans) && forall e :: e in FP ==> FP[e] < |lists|
    ensures forall e, r :: e in R && r in R[e] ==> r in R
  {
    ElemsCount(trans);
    assert |R.Keys| == |R|;
    forall e, r | e in R && r in R[e] ensures r in R {
      assert ReadsAt(d, nullable, e, R[e]);
      assert IsTrans(g, d, r);
    }
  }

  /** Read sets between what the reads relation requires and what it requires exactly: the initial
      lists are not shared, so there is no slack. */
  ghost predicate ReadSets(g: Cfg, d: Delta, nullable: set<Symbol>, R: map<Trans, seq<Trans>>,
                           dr: map<Trans, set<Symbol>>, rd: map<Trans, set<Symbol>>) {
    && R.Keys == dr.Keys == rd.Keys && TransKeys(g, d, rd.Keys)
    && (forall e :: e in R ==> ReadsAt(d, nullable, e, R[e]))
    && (forall e, a :: e in dr ==> (a in dr[e] <==> DirectlyRead(g, d, e, a)))
    && (forall e, a :: e in rd ==> (a in rd[e] <==> Required(R, dr, e, a)))
  }

  lemma ReadSetsSolved(g: Cfg, d: Delta, nullable: set<Symbol>, trans: seq<Trans>, R: map<Trans, seq<Trans>>,
                       FP: map<Trans, nat>, lists0: seq<seq<Symbol>>, F: map<Trans, nat>, lists: seq<seq<Symbol>>)
    requires ReadsBuilt(g, d, nullable, Elems(trans), R, FP, lists0) && TransKeys(g, d, Elems(trans))
    requires F.Keys == R.Keys && forall x :: x in F ==> F[x] < |lists|
    requires forall x, a :: x in F && Required(R, SetsOf(FP, lists0), x, a) ==> a in lists[F[x]]
    requires forall x, a :: x in F && a in lists[F[x]] ==> Required(WithSharing(R, FP, trans), SetsOf(FP, lists0), x, a)
    requires SharedWithin(WithSharing(R, FP, trans), F)
    ensures ReadSets(g, d, nullable, R, SetsOf(FP, lists0), SetsOf(F, lists)) && SharedWithin(R, F)
  {
    hide Required, WithSharing, ReadsAt, DirectlyRead, SharedWithin;
    UnsharedWithin(R, FP, trans, F);
    var dr, rd := SetsOf(FP, lists0), SetsOf(F, lists);
    forall e, a | e in dr ensures a in dr[e] <==> DirectlyRead(g, d, e, a) {
      assert DirectAt(g, d, e, lists0[FP[e]]);
    }
    forall e, a | e in rd ensures a in rd[e] <==> Required(R, dr, e, a) {
      if a in rd[e] {
        UnsharedIsExact(R, FP, trans, dr, e, a);
      }
    }
  }

  // ----- The includes relation, as handed to the solver -----

  /** What each transition includes, nothing if it has no entry. */
  function Successors(trans: set<Trans>, included: map<Trans, seq<Trans>>): map<Trans, seq<Trans>> {
    map e | e in trans :: if e in included then included[e] else []
  }

  lemma SuccessorsOk(g: Cfg, C: seq<seq<Item>>, d: Delta, nullable: set<Symbol>, trans: seq<Trans>, included: map<Trans, seq<Trans>>)
    requires IncludedictOk(g, C, d, nullable, Elems(trans), included) && TransKeys(g, d, Elems(trans)) && |trans| < MAXINT
    ensures var R := Successors(Elems(trans), included);
      && R.Keys == Elems(trans) && |R| < MAXINT
      && (forall e, t :: e in R && t in R[e] ==> t in R)
      && (forall e, t :: e in R ==> (t in R[e] <==> t in R && IncludesFrom(g, C, d, nullable, t, e)))
  {
    hide IncludesFrom;
    var R := Successors(Elems(trans), included);
    ElemsCount(trans);
    assert |R.Keys| == |R|;
    forall e, t | e in R ensures t in R[e] <==> t in R && IncludesFrom(g, C, d, nullable, t, e) {
      assert Listed(included, e, t) <==> t in Elems(trans) && IncludesFrom(g, C, d, nullable, t, e);
    }
  }

  /** Follow sets: at least what includes requires, at most what includes and the lists shared between
      read sets require. */
  ghost predicate FollowSets(g: Cfg, C: seq<seq<Item>>, d: Delta, nullable: set<Symbol>, R: map<Trans, seq<Trans>>,
                             S: map<Trans, seq<Trans>>, rd: map<Trans, set<Symbol>>, fs: map<Trans, set<Symbol>>)
  {
    && R.Keys == rd.Keys == fs.Keys
    && (forall e, t :: e in R ==> (t in R[e] <==> t in R && IncludesFrom(g, C, d, nullable, t, e)))
    && (forall e, a :: e in fs && Required(R, rd, e, a) ==> a in fs[e])
    && (forall e, a :: e in fs && a in fs[e] ==> Required(S, rd, e, a))
  }

  /** Occurrences in productions started with their dot at the left are among the includes. */
  lemma IncludesCovered(g: Cfg, C: seq<seq<Item>>, K: seq<seq<Item>>, d: Delta, nullable: set<Symbol>, R: map<Trans, seq<Trans>>,
                        q: nat, p: nat, i: nat)
    requires g.WellFormed() && Collection(g, C, K, d) && TransKeys(g, d, R.Keys)
    requires forall e, t :: e in R ==> (t in R[e] <==> t in R && IncludesFrom(g, C, d, nullable, t, e))
    ensures IncludesAt(g, C, d, nullable, R, q, p, i)
  {
    hide Collection, IncludesFrom, NullableFrom;
    if && q < |C| && 1 <= p < |g.productions| && Item(p, 0) in C[q] && i < |g.Rhs(p)| && g.Rhs(p)[i] in g.nonterminals
       && NullableFrom(nullable, g.Rhs(p), i + 1) && Walk(d, q, g.Rhs(p)[..i]).Some?
    {
      var e, t := (Walk(d, q, g.Rhs(p)[..i]).value, g.Rhs(p)[i]), (q, g.productions[p].name);
      WalkItem(g, C, K, d, q, p, i);
      MoveItem(g, C, K, d, e.0, Item(p, i), e.1);
      StartedTransition(g, C, K, d, q, p);
      OccurrenceIncludes(g, C, d, nullable, q, p, i, e);
      assert t in R[e] <==> t in R && IncludesFrom(g, C, d, nullable, t, e);
    }
  }

  lemma OccurrenceIncludes(g: Cfg, C: seq<seq<Item>>, d: Delta, nullable: set<Symbol>, q: nat, p: nat, i: nat, e: Trans)
    requires q < |C| && p < |g.productions| && Item(p, 0) in C[q] && i < |g.Rhs(p)| && IsTrans(g, d, e)
    requires Walk(d, q, g.Rhs(p)[..i]) == Some(e.0) && e.1 == g.Rhs(p)[i] && NullableFrom(nullable, g.Rhs(p), i + 1)
    ensures IncludesFrom(g, C, d, nullable, (q, g.productions[p].name), e)
  {
    hide NullableFrom, Walk;
    assert g.Rhs(p)[0..i] == g.Rhs(p)[..i];
    assert IncludesVia(g, d, nullable, q, Item(p, 0), i, e);
  }

  /** Where a production is started, its name can be taken as a transition. */
  lemma StartedTransition(g: Cfg, C: seq<seq<Item>>, K: seq<seq<Item>>, d: Delta, q: nat, p: nat)
    requires g.WellFormed() && Collection(g, C, K, d) && q < |C| && 1 <= p < |g.productions| && Item(p, 0) in C[q]
    ensures IsTrans(g, d, (q, g.productions[p].name))
  {
    hide Collection;
    var caller := InitialItem(g, C, K, d, q, Item(p, 0));
    MoveItem(g, C, K, d, q, caller, g.productions[p].name);
  }

  // ----- Lookaheads attached to items -----

  /** The lookahead lists of the item objects, state by state. */
  type LookDict = map<(Item, nat), seq<Symbol>>

  predicate Has(la: LookDict, key: (Item, nat), a: Symbol) {
    key in la && a in la[key]
  }

  /** What `add_lookaheads` has done once it is through with the transitions in `done`. */
  ghost predicate Attached(lookbacks: map<Trans, seq<(nat, Item)>>, F: map<Trans, nat>, lists: seq<seq<Symbol>>, done: set<Trans>, la: LookDict)
    requires done <= lookbacks.Keys <= F.Keys && forall e :: e in F ==> F[e] < |lists|
  {
    && (forall key: (Item, nat) :: key in la <==> exists t :: t in done && (key.1, key.0) in lookbacks[t])
    && (forall key: (Item, nat), a :: Has(la, key, a) <==> exists t :: t in done && (key.1, key.0) in lookbacks[t] && a in lists[F[t]])
  }

  /** The lookaheads of completed items. */
  function CompletedLooks(g: Cfg, la: LookDict): LookTable {
    map key | key in la && Complete(g, key.0) :: (key.1, key.0.num) := Elems(la[key])
  }

  lemma CompletedLook(g: Cfg, la: LookDict, q: nat, p: nat)
    requires p < |g.productions|
    ensures (q, p) in CompletedLooks(g, la) <==> (Item(p, |g.Rhs(p)|), q) in la
    ensures (q, p) in CompletedLooks(g, la) ==> CompletedLooks(g, la)[(q, p)] == Elems(la[(Item(p, |g.Rhs(p)|), q)])
  {
    var key := (Item(p, |g.Rhs(p)|), q);
    assert key in la ==> Complete(g, key.0);
  }

  /** A completed item is found by lookback from where its production was started. */
  lemma CompletedLooksBack(g: Cfg, C: seq<seq<Item>>, K: seq<seq<Item>>, d: Delta, q: nat, p: nat, j: nat)
    requires g.WellFormed() && Collection(g, C, K, d) && q < |C| && 1 <= p < |g.productions| && Item(p, 0) in C[q]
    requires Walk(d, q, g.Rhs(p)) == Some(j)
    ensures j < |C| && IsTrans(g, d, (q, g.productions[p].name))
    ensures LooksBack(g, C, d, (q, g.productions[p].name), j, Item(p, |g.Rhs(p)|))
  {
    hide Collection, Walk, Matches;
    assert g.Rhs(p)[..|g.Rhs(p)|] == g.Rhs(p) && g.Rhs(p)[0..] == g.Rhs(p);
    WalkItem(g, C, K, d, q, p, |g.Rhs(p)|);
    StartedTransition(g, C, K, d, q, p);
    CompletedMatches(g, p);
    assert LooksVia(g, C, d, q, Item(p, 0), j, Item(p, |g.Rhs(p)|));
  }

  /** Every item started somewhere with its dot at the left. */
  lemma {:induction false} Origin(g: Cfg, C: seq<seq<Item>>, K: seq<seq<Item>>, d: Delta, j: nat, it: Item) returns (q: nat)
    requires Collection(g, C, K, d) && j < |C| && it in C[j]
    ensures q < |C| && ValidItem(g, it) && Item(it.num, 0) in C[q] && Walk(d, q, g.Rhs(it.num)[..it.dot]) == Some(j)
    decreases it.dot
  {
    hide Collection;
    StateItems(g, C, K, d, j, it);
    if it.dot == 0 {
      q := j;
      assert g.Rhs(it.num)[..0] == [];
    } else {
      var e := Predecessor(g, C, K, d, j, it);
      UnmoveItem(g, C, K, d, e.0, e.1, it);
      q := Origin(g, C, K, d, e.0, Item(it.num, it.dot - 1));
      assert g.Rhs(it.num)[..it.dot] == g.Rhs(it.num)[..it.dot - 1] + [e.1];
      WalkSnoc(d, q, g.Rhs(it.num)[..it.dot - 1], e.1);
    }
  }

  lemma Predecessor(g: Cfg, C: seq<seq<Item>>, K: seq<seq<Item>>, d: Delta, j: nat, it: Item) returns (e: Trans)
    requires Collection(g, C, K, d) && j < |C| && it in C[j] && it.dot > 0
    ensures e in d && d[e] == j && e.0 < |C|
  {
    if j == 0 {
      StateZero(g, C, K, d, it);
    }
    assert Reached(d, j);
    e :| e in d && e.0 < j && d[e] == j;
  }

  ghost predicate LookdictFull(g: Cfg, C: seq<seq<Item>>, d: Delta, lookbacks: map<Trans, seq<(nat, Item)>>) {
    LookdictOk(g, C, d, lookbacks) && TransKeys(g, d, lookbacks.Keys)
  }

  /** No missing lookahead entry: every completed item in every state, except that of production 0,
      has been given lookaheads. */
  lemma NoMissingLookaheads(g: Cfg, C: seq<seq<Item>>, K: seq<seq<Item>>, d: Delta, lookbacks: map<Trans, seq<(nat, Item)>>,
                            F: map<Trans, nat>, lists: seq<seq<Symbol>>, la: LookDict, j: nat, p: nat)
    requires g.WellFormed() && Collection(g, C, K, d) && LookdictFull(g, C, d, lookbacks)
    requires lookbacks.Keys <= F.Keys && (forall e :: e in F ==> F[e] < |lists|) && Attached(lookbacks, F, lists, lookbacks.Keys, la)
    requires j < |C| && 1 <= p < |g.productions| && Item(p, |g.Rhs(p)|) in C[j]
    ensures (Item(p, |g.Rhs(p)|), j) in la
  {
    hide Collection, LooksBack, Walk;
    var q := Origin(g, C, K, d, j, Item(p, |g.Rhs(p)|));
    assert g.Rhs(p)[..|g.Rhs(p)|] == g.Rhs(p);
    CompletedLooksBack(g, C, K, d, q, p, j);
    assert (j, Item(p, |g.Rhs(p)|)) in lookbacks[(q, g.productions[p].name)];
  }

  lemma LooksBackCovered(g: Cfg, C: seq<seq<Item>>, K: seq<seq<Item>>, d: Delta, lookbacks: map<Trans, seq<(nat, Item)>>,
                         F: map<Trans, nat>, lists: seq<seq<Symbol>>, la: LookDict, fol: FollowMap, q: nat, p: nat)
    requires g.WellFormed() && Collection(g, C, K, d) && LookdictFull(g, C, d, lookbacks)
    requires lookbacks.Keys <= F.Keys && (forall e :: e in F ==> F[e] < |lists|) && Attached(lookbacks, F, lists, lookbacks.Keys, la)
    requires forall e :: e in fol && e in F ==> fol[e] <= Elems(lists[F[e]])
    ensures LooksAt(g, C, d, fol, CompletedLooks(g, la), q, p)
  {
    hide Collection, LooksBack, Walk, CompletedLooks;
    if && q < |C| && 1 <= p < |g.productions| && Item(p, 0) in C[q]
       && (q, g.productions[p].name) in fol && Walk(d, q, g.Rhs(p)).Some?
    {
      var j, t, it := Walk(d, q, g.Rhs(p)).value, (q, g.productions[p].name), Item(p, |g.Rhs(p)|);
      CompletedLooksBack(g, C, K, d, q, p, j);
      assert (j, it) in lookbacks[t];
      CompletedLook(g, la, j, p);
      forall a | a in fol[t] ensures a in Elems(la[(it, j)]) {
        assert a in Elems(lists[F[t]]);
        assert Has(la, (it, j), a);
      }
    }
  }

  /** Every lookahead is `$end` or a terminal that can be shifted somewhere. */
  ghost predicate OnlyRead(g: Cfg, d: Delta, la: LookTable) {
    forall key, a :: key in la && a in la[key] ==> ShiftedOrEnd(g, d, a)
  }

  ghost predicate ShiftedOrEnd(g: Cfg, d: Delta, a: Symbol) {
    a == End || exists q: nat :: (q, a) in d && a in g.terminals
  }

  lemma FollowIsRead(g: Cfg, C: seq<seq<Item>>, d: Delta, nullable: set<Symbol>, R: map<Trans, seq<Trans>>, dr: map<Trans, set<Symbol>>,
                     rd: map<Trans, set<Symbol>>, S: map<Trans, seq<Trans>>, e: Trans, a: Symbol)
    requires ReadSets(g, d, nullable, R, dr, rd) && Required(S, rd, e, a)
    ensures ShiftedOrEnd(g, d, a)
  {
    hide Reaches, TransKeys, ReadsAt;
    var z :| Reaches(S, e, z) && z in rd && a in rd[z];
    assert Required(R, dr, z, a);
    var y :| Reaches(R, z, y) && y in dr && a in dr[y];
    assert DirectlyRead(g, d, y, a);
  }

  /** The four relations put together: the lookaheads are adequate for every derivation, no completed
      item lacks an entry, and none holds a symbol that cannot be read. */
  lemma LalrLookaheads(g: Cfg, C: seq<seq<Item>>, K: seq<seq<Item>>, d: Delta, nullable: set<Symbol>, R: map<Trans, seq<Trans>>,
                       dr: map<Trans, set<Symbol>>, rd: map<Trans, set<Symbol>>, inc: map<Trans, seq<Trans>>, S: map<Trans, seq<Trans>>,
                       lookbacks: map<Trans, seq<(nat, Item)>>, F: map<Trans, nat>, lists: seq<seq<Symbol>>, la: LookDict)
    requires g.WellFormed() && Collection(g, C, K, d) && NullableExact(g, nullable) && ReadSets(g, d, nullable, R, dr, rd)
    requires forall e :: e in F ==> F[e] < |lists|
    requires FollowSets(g, C, d, nullable, inc, S, rd, SetsOf(F, lists))
    requires LookdictFull(g, C, d, lookbacks) && lookbacks.Keys <= F.Keys && Attached(lookbacks, F, lists, lookbacks.Keys, la)
    ensures Adequate(g, C, d, RequiredFollows(g, inc, rd), CompletedLooks(g, la))
    ensures LooksDefined(g, C, CompletedLooks(g, la)) && OnlyRead(g, d, CompletedLooks(g, la))
  {
    hide *;
    ReadsFit(g, d, nullable, R, dr, rd);
    ReadKeys(g, d, nullable, R, dr, rd);
    IncludesFit(g, C, K, d, nullable, rd, inc, S, SetsOf(F, lists));
    LooksFit(g, C, K, d, nullable, inc, S, rd, lookbacks, F, lists, la);
    LalrAdequate(g, C, K, d, nullable, R, dr, rd, inc, CompletedLooks(g, la));
    AllLooksDefined(g, C, K, d, lookbacks, F, lists, la);
    AllRead(g, C, d, nullable, R, dr, rd, inc, S, lookbacks, F, lists, la);
  }

  lemma ReadsFit(g: Cfg, d: Delta, nullable: set<Symbol>, R: map<Trans, seq<Trans>>, dr: map<Trans, set<Symbol>>, rd: map<Trans, set<Symbol>>)
    requires g.WellFormed() && ReadSets(g, d, nullable, R, dr, rd)
    ensures DirectReads(g, d, dr) && ReadsEdges(g, d, nullable, R) && ReadsCovered(R, dr, rd)
  {
    hide Required, DirectReads, ReadsEdges, TransKeys, DirectlyRead, ReadsAt;
    DirectFit(g, d, dr);
    EdgesFit(g, d, nullable, R);
  }

  lemma DirectFit(g: Cfg, d: Delta, dr: map<Trans, set<Symbol>>)
    requires g.WellFormed() && TransKeys(g, d, dr.Keys)
    requires forall e, a :: e in dr ==> (a in dr[e] <==> DirectlyRead(g, d, e, a))
    ensures DirectReads(g, d, dr)
  {
    hide DirectlyRead;
    forall e, a | e in dr && a in g.terminals && (d[e], a) in d ensures a in dr[e] {
      ShiftedIsRead(g, d, e, a);
    }
    if (0, g.Start()) in dr {
      EndIsRead(g, d);
    }
  }

  lemma ShiftedIsRead(g: Cfg, d: Delta, e: Trans, a: Symbol)
    requires e in d && a in g.terminals && (d[e], a) in d
    ensures DirectlyRead(g, d, e, a)
  {
  }

  lemma EndIsRead(g: Cfg, d: Delta)
    requires g.WellFormed()
    ensures DirectlyRead(g, d, (0, g.Start()), End)
  {
  }

  lemma EdgesFit(g: Cfg, d: Delta, nullable: set<Symbol>, R: map<Trans, seq<Trans>>)
    requires TransKeys(g, d, R.Keys) && forall e :: e in R ==> ReadsAt(d, nullable, e, R[e])
    ensures ReadsEdges(g, d, nullable, R)
  {
    hide ReadsAt;
    forall e, n | e in R && n in nullable && (d[e], n) in d ensures (d[e], n) in R[e] {
      EdgeFits(d, nullable, e, n, R[e]);
    }
  }

  lemma EdgeFits(d: Delta, nullable: set<Symbol>, e: Trans, n: Symbol, rel: seq<Trans>)
    requires ReadsAt(d, nullable, e, rel) && n in nullable && (d[e], n) in d
    ensures (d[e], n) in rel
  {
  }

  lemma IncludesFit(g: Cfg, C: seq<seq<Item>>, K: seq<seq<Item>>, d: Delta, nullable: set<Symbol>, rd: map<Trans, set<Symbol>>,
                    inc: map<Trans, seq<Trans>>, S: map<Trans, seq<Trans>>, fs: map<Trans, set<Symbol>>)
    requires g.WellFormed() && Collection(g, C, K, d) && TransKeys(g, d, rd.Keys)
    requires FollowSets(g, C, d, nullable, inc, S, rd, fs)
    ensures IncludesEdges(g, C, d, nullable, inc)
  {
    hide Collection, Required, IncludesFrom, IncludesAt;
    forall q: nat, p: nat, i: nat ensures IncludesAt(g, C, d, nullable, inc, q, p, i) {
      IncludesCovered(g, C, K, d, nullable, inc, q, p, i);
    }
  }

  lemma ReadKeys(g: Cfg, d: Delta, nullable: set<Symbol>, R: map<Trans, seq<Trans>>, dr: map<Trans, set<Symbol>>, rd: map<Trans, set<Symbol>>)
    requires ReadSets(g, d, nullable, R, dr, rd)
    ensures TransKeys(g, d, rd.Keys)
  {
  }

  lemma LooksFit(g: Cfg, C: seq<seq<Item>>, K: seq<seq<Item>>, d: Delta, nullable: set<Symbol>, inc: map<Trans, seq<Trans>>,
                 S: map<Trans, seq<Trans>>, rd: map<Trans, set<Symbol>>,
                 lookbacks: map<Trans, seq<(nat, Item)>>, F: map<Trans, nat>, lists: seq<seq<Symbol>>, la: LookDict)
    requires g.WellFormed() && Collection(g, C, K, d)
    requires forall e :: e in F ==> F[e] < |lists|
    requires FollowSets(g, C, d, nullable, inc, S, rd, SetsOf(F, lists))
    requires LookdictFull(g, C, d, lookbacks) && lookbacks.Keys <= F.Keys && Attached(lookbacks, F, lists, lookbacks.Keys, la)
    ensures LooksCovered(g, C, d, RequiredFollows(g, inc, rd), CompletedLooks(g, la))
  {
    hide Collection, LookdictFull, Attached, CompletedLooks, LooksAt, Required, IncludesFrom;
    var fol := RequiredFollows(g, inc, rd);
    forall e | e in fol && e in F ensures fol[e] <= Elems(lists[F[e]]) {
      forall a | a in fol[e] ensures a in Elems(lists[F[e]]) {
        assert Required(inc, rd, e, a);
      }
    }
    forall q: nat, p: nat ensures LooksAt(g, C, d, fol, CompletedLooks(g, la), q, p) {
      LooksBackCovered(g, C, K, d, lookbacks, F, lists, la, fol, q, p);
    }
  }

  lemma AllLooksDefined(g: Cfg, C: seq<seq<Item>>, K: seq<seq<Item>>, d: Delta, lookbacks: map<Trans, seq<(nat, Item)>>,
                        F: map<Trans, nat>, lists: seq<seq<Symbol>>, la: LookDict)
    requires g.WellFormed() && Collection(g, C, K, d) && LookdictFull(g, C, d, lookbacks)
    requires lookbacks.Keys <= F.Keys && (forall e :: e in F ==> F[e] < |lists|) && Attached(lookbacks, F, lists, lookbacks.Keys, la)
    ensures LooksDefined(g, C, CompletedLooks(g, la))
  {
    hide Collection, LookdictFull, Attached, CompletedLooks;
    forall q, p | 0 <= q < |C| && 1 <= p < |g.productions| && Item(p, |g.Rhs(p)|) in C[q] ensures (q, p) in CompletedLooks(g, la) {
      NoMissingLookaheads(g, C, K, d, lookbacks, F, lists, la, q, p);
      CompletedLook(g, la, q, p);
    }
  }

  /** A lookahead came over the lookback of some transition. */
  lemma LookSource(g: Cfg, lookbacks: map<Trans, seq<(nat, Item)>>, F: map<Trans, nat>, lists: seq<seq<Symbol>>, la: LookDict,
                   key: (nat, nat), a: Symbol) returns (t: Trans, x: (nat, Item))
    requires lookbacks.Keys <= F.Keys && (forall e :: e in F ==> F[e] < |lists|) && Attached(lookbacks, F, lists, lookbacks.Keys, la)
    requires key in CompletedLooks(g, la) && a in CompletedLooks(g, la)[key]
    ensures t in lookbacks && x in lookbacks[t] && a in lists[F[t]] && x.0 == key.0
    ensures key.1 < |g.productions| && x.1 == Item(key.1, |g.Rhs(key.1)|)
  {
    var k :| k in la && Complete(g, k.0) && key == (k.1, k.0.num);
    CompletedLook(g, la, k.1, k.0.num);
    assert Has(la, k, a);
    t :| t in lookbacks.Keys && (k.1, k.0) in lookbacks[t] && a in lists[F[t]];
    x := (k.1, k.0);
  }

  lemma AllRead(g: Cfg, C: seq<seq<Item>>, d: Delta, nullable: set<Symbol>, R: map<Trans, seq<Trans>>,
                dr: map<Trans, set<Symbol>>, rd: map<Trans, set<Symbol>>, inc: map<Trans, seq<Trans>>, S: map<Trans, seq<Trans>>,
                lookbacks: map<Trans, seq<(nat, Item)>>, F: map<Trans, nat>, lists: seq<seq<Symbol>>, la: LookDict)
    requires ReadSets(g, d, nullable, R, dr, rd)
    requires forall e :: e in F ==> F[e] < |lists|
    requires FollowSets(g, C, d, nullable, inc, S, rd, SetsOf(F, lists))
    requires lookbacks.Keys <= F.Keys && Attached(lookbacks, F, lists, lookbacks.Keys, la)
    ensures OnlyRead(g, d, CompletedLooks(g, la))
  {
    hide ReadSets, ShiftedOrEnd, Required, IncludesFrom, Attached, CompletedLooks;
    var looks := CompletedLooks(g, la);
    forall key, a | key in looks && a in looks[key] ensures ShiftedOrEnd(g, d, a) {
      var t, x := LookSource(g, lookbacks, F, lists, la, key, a);
      assert a in SetsOf(F, lists)[t];
      FollowIsRead(g, C, d, nullable, R, dr, rd, S, t, a);
    }
  }

  /** `inclsets` and `readsets`, handed to the solver. */
  lemma FollowSetsSolved(g: Cfg, C: seq<seq<Item>>, d: Delta, nullable: set<Symbol>, trans: seq<Trans>, included: map<Trans, seq<Trans>>,
                         FP: map<Trans, nat>, lists0: seq<seq<Symbol>>, F: map<Trans, nat>, lists: seq<seq<Symbol>>)
    requires IncludedictOk(g, C, d, nullable, Elems(trans), included) && TransKeys(g, d, Elems(trans)) && |trans| < MAXINT
    requires FP.Keys == Elems(trans) && forall x :: x in FP ==> FP[x] < |lists0|
    requires var R := Successors(Elems(trans), included);
      && F.Keys == R.Keys && (forall x :: x in F ==> F[x] < |lists|)
      && (forall x, a :: x in F && Required(R, SetsOf(FP, lists0), x, a) ==> a in lists[F[x]])
      && (forall x, a :: x in F && a in lists[F[x]] ==> Required(WithSharing(R, FP, trans), SetsOf(FP, lists0), x, a))
    ensures var R := Successors(Elems(trans), included);
      FollowSets(g, C, d, nullable, R, WithSharing(R, FP, trans), SetsOf(FP, lists0), SetsOf(F, lists))
  {
    hide Required, WithSharing, IncludesFrom, IncludedictOk, TransKeys;
    SuccessorsOk(g, C, d, nullable, trans, included);
    hide Successors;
  }

  // ----- Attaching lookaheads -----

  /** One transition's follow list is attached to every item it looks back from. */
  ghost predicate AttachedMore(la0: LookDict, lb: seq<(nat, Item)>, f: seq<Symbol>, la: LookDict) {
    && (forall key: (Item, nat) :: key in la <==> key in la0 || (key.1, key.0) in lb)
    && (forall key: (Item, nat), a :: Has(la, key, a) <==> Has(la0, key, a) || ((key.1, key.0) in lb && a in f))
  }

  lemma AttachedTransition(lookbacks: map<Trans, seq<(nat, Item)>>, F: map<Trans, nat>, lists: seq<seq<Symbol>>, done: set<Trans>,
                           t: Trans, la0: LookDict, la: LookDict)
    requires done + {t} <= lookbacks.Keys <= F.Keys && forall e :: e in F ==> F[e] < |lists|
    requires Attached(lookbacks, F, lists, done, la0) && AttachedMore(la0, lookbacks[t], lists[F[t]], la)
    ensures Attached(lookbacks, F, lists, done + {t}, la)
  {
    hide Has;
    forall key: (Item, nat), a
      ensures Has(la, key, a) <==> exists u :: u in done + {t} && (key.1, key.0) in lookbacks[u] && a in lists[F[u]]
    {
    }
  }

  lemma AttachedNothing(lookbacks: map<Trans, seq<(nat, Item)>>, F: map<Trans, nat>, lists: seq<seq<Symbol>>)
    requires lookbacks.Keys <= F.Keys && forall e :: e in F ==> F[e] < |lists|
    ensures Attached(lookbacks, F, lists, {}, map[]) && OnceEach(map[])
  {
  }

  /** No list has a symbol twice. */
  ghost predicate OnceEach(la: LookDict) {
    forall key :: key in la ==> NoDuplicates(la[key])
  }

  /** One entry: create its list if it is missing, append what is new. */
  method AttachOne(la0: LookDict, key: (Item, nat), f: seq<Symbol>) returns (la: LookDict)
    ensures la.Keys == la0.Keys + {key} && (OnceEach(la0) ==> OnceEach(la))
    ensures forall k: (Item, nat), a :: Has(la, k, a) <==> Has(la0, k, a) || (k == key && a in f)
  {
    hide NoDuplicates;
    la := la0;
    if key !in la {
      NewList(la, key);
      la := la[key := []];
    }
    for i := 0 to |f|
      invariant la.Keys == la0.Keys + {key} && (OnceEach(la0) ==> OnceEach(la))
      invariant forall k: (Item, nat), a :: Has(la, k, a) <==> Has(la0, k, a) || (k == key && a in f[..i])
    {
      assert f[..i + 1] == f[..i] + [f[i]];
      if f[i] !in la[key] {
        HasMore(la, key, f[i]);
        la := la[key := la[key] + [f[i]]];
      } else {
        assert Has(la, key, f[i]);
      }
    }
    assert f[..|f|] == f;
  }

  lemma NewList(la: LookDict, key: (Item, nat))
    requires key !in la
    ensures forall k: (Item, nat), a :: Has(la[key := []], k, a) <==> Has(la, k, a)
    ensures OnceEach(la) ==> OnceEach(la[key := []])
  {
  }

  lemma HasMore(la: LookDict, key: (Item, nat), b: Symbol)
    requires key in la && b !in la[key]
    ensures forall k: (Item, nat), a :: Has(la[key := la[key] + [b]], k, a) <==> Has(la, k, a) || (k == key && a == b)
    ensures OnceEach(la) ==> OnceEach(la[key := la[key] + [b]])
  {
    var la' := la[key := la[key] + [b]];
    forall k: (Item, nat), a ensures Has(la', k, a) <==> Has(la, k, a) || (k == key && a == b) {
      if k == key {
        assert la'[k] == la[key] + [b];
      }
    }
    if OnceEach(la) {
      forall k | k in la' ensures NoDuplicates(la'[k]) {
        assert k in la;
      }
    }
  }

  method AttachList(la0: LookDict, lb: seq<(nat, Item)>, f: seq<Symbol>) returns (la: LookDict)
    ensures AttachedMore(la0, lb, f, la) && (OnceEach(la0) ==> OnceEach(la))
  {
    hide Has, OnceEach;
    la := la0;
    for i := 0 to |lb|
      invariant AttachedMore(la0, lb[..i], f, la) && (OnceEach(la0) ==> OnceEach(la))
    {
      var la1 := la;
      la := AttachOne(la, (lb[i].1, lb[i].0), f);
      assert lb[..i + 1] == lb[..i] + [lb[i]];
    }
    assert lb[..|lb|] == lb;
  }

  lemma ReadsEntry(g: Cfg, d: Delta, nullable: set<Symbol>, e: Trans, rel: seq<Trans>, terms: seq<Symbol>)
    requires e in d && forall r: Trans :: r in rel <==> r.0 == d[e] && r.1 in nullable && r in d
    requires forall a :: a in terms <==> DirectlyRead(g, d, e, a)
    ensures ReadsAt(d, nullable, e, rel) && DirectAt(g, d, e, terms)
  {
  }

  lemma NullableSymbolsOnly(g: Cfg, nullable: set<Symbol>)
    requires NullableExact(g, nullable)
    ensures nullable <= g.nonterminals
  {
  }

  lemma LookdictIsFull(g: Cfg, C: seq<seq<Item>>, d: Delta, trans: seq<Trans>, lookd: map<Trans, seq<(nat, Item)>>)
    requires LookdictOk(g, C, d, lookd) && lookd.Keys == Elems(trans) && TransKeys(g, d, Elems(trans))
    ensures LookdictFull(g, C, d, lookd)
  {
  }

  ghost function Transitions(g: Cfg, d: Delta): set<Trans> {
    set e | e in d && IsTrans(g, d, e)
  }

  lemma {:induction false} DistinctCount<T>(s: seq<T>)
    requires forall i, j :: 0 <= i < j < |s| ==> s[i] != s[j]
    ensures |Elems(s)| == |s|
  {
    if s != [] {
      var init, last := s[..|s| - 1], s[|s| - 1];
      DistinctCount(init);
      ElemsSnoc(init, last);
      assert s == init + [last];
    }
  }

  lemma TransitionCount(g: Cfg, d: Delta, trans: seq<Trans>)
    requires TransKeys(g, d, Elems(trans)) && forall i, j :: 0 <= i < j < |trans| ==> trans[i] != trans[j]
    ensures |Transitions(g, d)| == |trans|
  {
    DistinctCount(trans);
    assert Transitions(g, d) == Elems(trans);
  }
}
