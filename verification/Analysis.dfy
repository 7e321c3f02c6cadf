/** The fixpoint loops of the grammar object: FIRST, FOLLOW, nullable nonterminals, and the two
    grammar checks for unproductive and unreachable symbols. */
module Analysis {
  import opened Grammars
  import opened GrammarFacts
  import opened Lists

  /** The entries of a table as pairs: what the loops can only add to. */
  ghost function Pairs(T: SetTable): set<(Symbol, Symbol)> {
    set x, f | x in T && f in T[x] :: (x, f)
  }

  ghost function AllPairs(xs: set<Symbol>, fs: set<Symbol>): set<(Symbol, Symbol)> {
    set x, f | x in xs && f in fs :: (x, f)
  }

  lemma PairsGrow(T: SetTable, T': SetTable, n: Symbol)
    requires n in T && n in T' && T' == T[n := T'[n]] && Elems(T[n]) <= Elems(T'[n])
    ensures Pairs(T) <= Pairs(T')
    ensures Elems(T[n]) != Elems(T'[n]) ==> Pairs(T) != Pairs(T')
  {
    forall x, f | x in T && f in T[x] ensures x in T' && f in T'[x] {
      assert f in Elems(T[x]);
    }
    if Elems(T[n]) != Elems(T'[n]) {
      var f :| f in T'[n] && f !in T[n];
      assert (n, f) in Pairs(T') && (n, f) !in Pairs(T);
    }
  }

  class Grammar {
    const cfg: Cfg
    var First: SetTable
    var Follow: SetTable
    /** The start symbol that the FOLLOW sets were computed for. */
    ghost var followStart: Symbol

    constructor (cfg: Cfg)
      ensures this.cfg == cfg && First == map[] && Follow == map[]
    {
      this.cfg := cfg;
      First, Follow := map[], map[];
      followStart := End;
    }

    /** `_first(beta)`. The list has no duplicates other than those the table has. */
    method FirstOf(beta: seq<Symbol>) returns (result: seq<Symbol>)
      requires forall x :: x in beta ==> x in First
      ensures Elems(result) == FirstSet(First, beta)
    {
      result := [];
      var i := 0;
      while i < |beta|
        invariant i <= |beta| && Empty !in result
        invariant FirstSet(First, beta) == Elems(result) + FirstSet(First, beta[i..])
      {
        var x, producesEmpty := beta[i], false;
        ghost var before := result;
        for k := 0 to |First[x]|
          invariant Empty !in result
          invariant producesEmpty <==> Empty in First[x][..k]
          invariant Elems(result) == Elems(before) + (Elems(First[x][..k]) - {Empty})
        {
          var f := First[x][k];
          assert First[x][..k + 1] == First[x][..k] + [f];
          ElemsSnoc(First[x][..k], f);
          ElemsSnoc(result, f);
          if f == Empty {
            producesEmpty := true;
          } else if f !in result {
            result := result + [f];
          }
        }
        assert First[x][..|First[x]|] == First[x];
        if !producesEmpty {
          return;
        }
        i := i + 1;
      }
      result := result + [Empty];
    }

    /** Nothing computed yet, or finished. */
    ghost predicate FirstReady()
      reads this
    {
      First == map[] || (FirstSound(cfg, First) && FirstClosed(cfg, First))
    }

    /** The FIRST symbols of one production that its nonterminal does not list yet are appended. */
    method AddFirst(n: Symbol, p: nat) returns (added: bool)
      requires cfg.WellFormed() && FirstSound(cfg, First)
      requires 1 <= p < |cfg.productions| && cfg.productions[p].name == n
      modifies this`First
      ensures FirstSound(cfg, First)
      ensures n in old(First) && n in First && First == old(First)[n := First[n]]
      ensures forall x :: x in cfg.Rhs(p) ==> x in old(First)
      ensures Elems(First[n]) == Elems(old(First)[n]) + FirstSet(old(First), cfg.Rhs(p))
      ensures added <==> First != old(First)
      ensures added ==> Elems(First[n]) != Elems(old(First)[n])
    {
      hide FirstFact, Derives;
      added := false;
      FirstSoundKeys(cfg, First);
      RuleSymbols(p);
      var fs := FirstOf(cfg.Rhs(p));
      ghost var F := First;
      for k := 0 to |fs|
        invariant n in First && First == F[n := First[n]]
        invariant Elems(First[n]) == Elems(F[n]) + Elems(fs[..k])
        invariant added <==> First != F
        invariant added ==> Elems(First[n]) != Elems(F[n])
      {
        var f := fs[k];
        assert fs[..k + 1] == fs[..k] + [f];
        ElemsSnoc(fs[..k], f);
        ElemsSnoc(First[n], f);
        if f !in First[n] {
          assert f in Elems(First[n] + [f]) && f !in Elems(F[n]);
          First := First[n := First[n] + [f]];
          added := true;
        }
      }
      assert fs[..|fs|] == fs;
      AddedSound(F, n, p);
    }

    lemma RuleSymbols(p: nat)
      requires cfg.WellFormed() && 1 <= p < |cfg.productions|
      ensures cfg.productions[p].name in cfg.nonterminals
      ensures forall x :: x in cfg.Rhs(p) ==> x in cfg.terminals + cfg.nonterminals
    {
    }

    lemma AddedSound(F: SetTable, n: Symbol, p: nat)
      requires cfg.WellFormed() && FirstSound(cfg, F)
      requires 1 <= p < |cfg.productions| && cfg.productions[p].name == n
      requires n in First && First == F[n := First[n]]
      requires Elems(First[n]) == Elems(F[n]) + FirstSet(F, cfg.Rhs(p))
      ensures FirstSound(cfg, First)
    {
      forall f | f in First[n] ensures FirstFact(cfg, [n], f) {
        assert f in Elems(First[n]);
        if f in FirstSet(F, cfg.Rhs(p)) {
          FirstSetSound(cfg, F, cfg.Rhs(p), f);
          FirstFactProduction(cfg, p, f);
        } else {
          assert f in Elems(F[n]);
        }
      }
    }

    /** A change to the table that only adds pairs, and adds one exactly when it says so. */
    ghost predicate Grew(before: SetTable, after: SetTable, changed: bool) {
      && Pairs(before) <= Pairs(after)
      && (changed ==> Pairs(before) != Pairs(after))
      && (!changed ==> after == before)
    }

    lemma GrewTrans(T: SetTable, T': SetTable, T'': SetTable, c: bool, c': bool)
      requires Grew(T, T', c) && Grew(T', T'', c')
      ensures Grew(T, T'', c || c')
    {
    }

    ghost predicate FirstClosedFor(F: SetTable, n: Symbol) {
      forall p {:trigger FirstClosedAt(cfg, F, p)} ::
        1 <= p < |cfg.productions| && cfg.productions[p].name == n ==> FirstClosedAt(cfg, F, p)
    }

    /** Visit one production of a nonterminal. */
    method FirstRules(n: Symbol) returns (someChange: bool)
      requires cfg.WellFormed() && FirstSound(cfg, First) && n in cfg.nonterminals
      modifies this`First
      ensures FirstSound(cfg, First) && Grew(old(First), First, someChange)
      ensures !someChange ==> FirstClosedFor(First, n)
    {
      hide FirstSound;
      someChange := false;
      ghost var F := First;
      var ps := cfg.Prodnames(n);
      for k := 0 to |ps|
        invariant FirstSound(cfg, First) && Grew(F, First, someChange)
        invariant !someChange ==> forall j :: 0 <= j < k ==> FirstClosedAt(cfg, F, ps[j])
      {
        ghost var before := First;
        var added := AddFirst(n, ps[k]);
        PairsGrow(before, First, n);
        if !added {
          NothingToAdd(n, ps[k]);
        }
        GrewTrans(F, before, First, someChange, added);
        someChange := someChange || added;
      }
      forall p | 1 <= p < |cfg.productions| && cfg.productions[p].name == n && !someChange
        ensures FirstClosedAt(cfg, First, p)
      {
        assert p in ps;
      }
    }

    lemma NothingToAdd(n: Symbol, p: nat)
      requires cfg.WellFormed() && FirstSound(cfg, First)
      requires 1 <= p < |cfg.productions| && cfg.productions[p].name == n && n in First
      requires forall x :: x in cfg.Rhs(p) ==> x in First
      requires Elems(First[n]) == Elems(First[n]) + FirstSet(First, cfg.Rhs(p))
      ensures FirstClosedAt(cfg, First, p)
    {
    }

    /** `compute_first`: propagate until a whole pass adds nothing. */
    method ComputeFirst()
      requires cfg.WellFormed() && FirstReady()
      modifies this`First
      ensures FirstSound(cfg, First) && FirstClosed(cfg, First) && FirstExact(cfg, First)
    {
      if First.Keys != {} {
        FirstIsExact(cfg, First);
        return;
      }
      First := (map t | t in cfg.terminals + {End} :: [t]) + (map n | n in cfg.nonterminals :: []);
      InitialSound();
      hide FirstSound, FirstClosed, FirstClosedFor;
      ghost var universe := AllPairs(cfg.terminals + cfg.nonterminals + {End}, cfg.terminals + {End, Empty});
      var someChange := true;
      while someChange
        invariant FirstSound(cfg, First)
        invariant !someChange ==> FirstClosed(cfg, First)
        decreases universe - Pairs(First), someChange
      {
        ghost var F := First;
        SoundPairs(First);
        someChange := false;
        var todo := cfg.nonterminals;
        while todo != {}
          invariant todo <= cfg.nonterminals && FirstSound(cfg, First)
          invariant Grew(F, First, someChange)
          invariant !someChange ==> forall n :: n in cfg.nonterminals - todo ==> FirstClosedFor(First, n)
        {
          var n :| n in todo;
          todo := todo - {n};
          ghost var before := First;
          var changed := FirstRules(n);
          GrewTrans(F, before, First, someChange, changed);
          someChange := someChange || changed;
        }
        SoundPairs(First);
        if !someChange {
          AllRulesClosed(First);
        }
      }
      FirstIsExact(cfg, First);
    }

    lemma AllRulesClosed(F: SetTable)
      requires cfg.WellFormed() && forall n :: n in cfg.nonterminals ==> FirstClosedFor(F, n)
      ensures FirstClosed(cfg, F)
    {
      forall p | 1 <= p < |cfg.productions| ensures FirstClosedAt(cfg, F, p) {
        assert FirstClosedFor(F, cfg.productions[p].name);
      }
    }

    lemma InitialSound()
      requires cfg.WellFormed()
      requires First == (map t | t in cfg.terminals + {End} :: [t]) + (map n | n in cfg.nonterminals :: [])
      ensures FirstSound(cfg, First)
    {
      forall x, f | x in First && f in First[x] ensures FirstFact(cfg, [x], f) {
        DerivesSelf(cfg, [x]);
        assert [x] == [x] + [];
      }
    }

    lemma SoundPairs(F: SetTable)
      requires cfg.WellFormed() && FirstSound(cfg, F)
      ensures Pairs(F) <= AllPairs(cfg.terminals + cfg.nonterminals + {End}, cfg.terminals + {End, Empty})
    {
      forall x | x in F ensures Elems(F[x]) <= cfg.terminals + {End, Empty} {
        forall f | f in F[x] ensures f in cfg.terminals + {End, Empty} {
          assert FirstFact(cfg, [x], f);
        }
      }
    }

    // ----- FOLLOW -----

    ghost predicate FollowReady()
      reads this
    {
      Follow == map[] || (FirstSound(cfg, First) && FollowSound(cfg, followStart, Follow) && SetsClosed(cfg, followStart, First, Follow))
    }

    /** What one occurrence contributes to FOLLOW of the nonterminal there. */
    ghost function Contribution(F: SetTable, T: SetTable, p: nat, i: nat): set<Symbol>
      requires cfg.WellFormed() && FirstKeys(cfg, F) && T.Keys == cfg.nonterminals
      requires 1 <= p < |cfg.productions| && i < |cfg.Rhs(p)|
    {
      var firsts := FirstSet(F, cfg.Rhs(p)[i + 1..]);
      firsts - {Empty} + (if Empty in firsts then Elems(T[cfg.productions[p].name]) else {})
    }

    /** FOLLOW of `B` grew from `T` by exactly the set `more`; `didAdd` says whether that changed it. */
    ghost predicate FollowGrew(T: SetTable, T': SetTable, B: Symbol, more: set<Symbol>, didAdd: bool) {
      && B in T && B in T' && T' == T[B := T'[B]]
      && Elems(T'[B]) == Elems(T[B]) + more
      && (didAdd ==> Elems(T'[B]) != Elems(T[B]))
      && (!didAdd ==> T' == T)
      && (NoDuplicates(T[B]) ==> NoDuplicates(T'[B]))
    }

    /** Add the symbols of a FIRST list and notice `<empty>`. */
    method AddFirsts(B: Symbol, fst: seq<Symbol>) returns (hasEmpty: bool, didAdd: bool)
      requires B in Follow
      modifies this`Follow
      ensures FollowGrew(old(Follow), Follow, B, Elems(fst) - {Empty}, didAdd)
      ensures hasEmpty <==> Empty in fst
    {
      hasEmpty, didAdd := false, false;
      ghost var T := Follow;
      for k := 0 to |fst|
        invariant hasEmpty <==> Empty in fst[..k]
        invariant FollowGrew(T, Follow, B, Elems(fst[..k]) - {Empty}, didAdd)
      {
        var f := fst[k];
        assert fst[..k + 1] == fst[..k] + [f];
        ElemsSnoc(fst[..k], f);
        if f != Empty && f !in Follow[B] {
          didAdd := AppendFollow(B, f, T);
        }
        if f == Empty {
          hasEmpty := true;
        }
      }
      assert fst[..|fst|] == fst;
    }

    /** Add the FOLLOW symbols of the production's name; that list may be the one being extended. */
    method AddFollowOf(B: Symbol, name: Symbol) returns (didAdd: bool)
      requires B in Follow && name in Follow
      modifies this`Follow
      ensures FollowGrew(old(Follow), Follow, B, Elems(old(Follow)[name]), didAdd)
    {
      didAdd := false;
      ghost var T := Follow;
      var k := 0;
      while k < |Follow[name]|
        invariant name in Follow && k <= |Follow[name]|
        invariant name == B ==> Follow == T
        invariant FollowGrew(T, Follow, B, Elems(Follow[name][..k]), didAdd)
        decreases |Follow[name]| - k
      {
        var f := Follow[name][k];
        assert Follow[name][..k + 1] == Follow[name][..k] + [f];
        ElemsSnoc(Follow[name][..k], f);
        if f !in Follow[B] {
          didAdd := AppendFollow(B, f, T);
        }
        k := k + 1;
      }
      assert Follow[name][..k] == Follow[name];
    }

    /** The body of the loop over the occurrences `p.prod[i]`. */
    method AddFollow(p: nat, i: nat) returns (didAdd: bool)
      requires cfg.WellFormed() && FirstKeys(cfg, First) && Follow.Keys == cfg.nonterminals
      requires 1 <= p < |cfg.productions| && i < |cfg.Rhs(p)| && cfg.Rhs(p)[i] in cfg.nonterminals
      modifies this`Follow
      ensures Follow.Keys == cfg.nonterminals
      ensures FollowGrew(old(Follow), Follow, cfg.Rhs(p)[i], Contribution(First, old(Follow), p, i), didAdd)
    {
      hide FollowGrew;
      var rhs, B, name := cfg.Rhs(p), cfg.Rhs(p)[i], cfg.productions[p].name;
      SuffixSymbols(cfg, p, i);
      var fst := FirstOf(rhs[i + 1..]);
      var hasEmpty, added := AddFirsts(B, fst);
      assert Empty in fst <==> Empty in Elems(fst);
      assert i == |rhs| - 1 ==> rhs[i + 1..] == [];
      didAdd := added;
      if hasEmpty || i == |rhs| - 1 {
        ghost var T, T1 := old(Follow), Follow;
        var more := AddFollowOf(B, name);
        FollowGrewTwice(T, T1, Follow, B, name, Elems(fst) - {Empty}, added, more);
        didAdd := added || more;
        assert hasEmpty;
        assert Contribution(First, T, p, i) == Elems(fst) - {Empty} + Elems(T[name]);
      } else {
        assert Contribution(First, old(Follow), p, i) == Elems(fst) - {Empty};
      }
    }

    lemma FollowGrewTwice(T: SetTable, T': SetTable, T'': SetTable, B: Symbol, name: Symbol, more: set<Symbol>, d: bool, d': bool)
      requires FollowGrew(T, T', B, more, d) && name in T && name in T' && FollowGrew(T', T'', B, Elems(T'[name]), d')
      ensures FollowGrew(T, T'', B, more + Elems(T[name]), d || d')
    {
    }

    /** Append one symbol, and remember that something was added. */
    method AppendFollow(B: Symbol, f: Symbol, ghost T: SetTable) returns (didAdd: bool)
      requires B in Follow && B in T && f !in Follow[B] && Elems(T[B]) <= Elems(Follow[B])
      modifies this`Follow
      ensures didAdd && Follow == old(Follow)[B := old(Follow)[B] + [f]] && Follow != T
      ensures Elems(Follow[B]) == Elems(old(Follow)[B]) + {f} && Elems(Follow[B]) != Elems(T[B])
    {
      ElemsSnoc(Follow[B], f);
      assert f in Elems(Follow[B] + [f]) && f !in Elems(Follow[B]);
      Follow := Follow[B := Follow[B] + [f]];
      didAdd := true;
    }

    lemma FollowGrewSound(start: Symbol, T: SetTable, T': SetTable, p: nat, i: nat, didAdd: bool)
      requires cfg.WellFormed() && FirstSound(cfg, First) && FollowSound(cfg, start, T)
      requires 1 <= p < |cfg.productions| && i < |cfg.Rhs(p)| && cfg.Rhs(p)[i] in cfg.nonterminals
      requires FollowGrew(T, T', cfg.Rhs(p)[i], Contribution(First, T, p, i), didAdd)
      ensures FollowSound(cfg, start, T')
    {
      hide Derives, FollowFact, FirstSet, NoDuplicates, CanStart;
      var B, name, rest := cfg.Rhs(p)[i], cfg.productions[p].name, cfg.Rhs(p)[i + 1..];
      SuffixSymbols(cfg, p, i);
      forall a | a in T'[B] ensures FollowFact(cfg, start, B, a) {
        assert a in Elems(T'[B]);
        if a in FirstSet(First, rest) && a != Empty {
          FirstSetSound(cfg, First, rest, a);
          EndNotFirst(rest, a);
          FollowFromFirst(cfg, start, p, i, a);
        } else if a in Elems(T[B]) {
          assert a in T[B];
        } else {
          FirstSetSound(cfg, First, rest, Empty);
          assert a in T[name];
          FollowFromFollow(cfg, start, p, i, a);
        }
      }
    }

    /** `$end` starts no form of a right-hand side. */
    lemma EndNotFirst(beta: seq<Symbol>, a: Symbol)
      requires cfg.WellFormed() && FirstSound(cfg, First)
      requires forall x :: x in beta ==> x in cfg.terminals + cfg.nonterminals
      requires a in FirstSet(First, beta)
      ensures a != End
    {
      FirstSetSound(cfg, First, beta, a);
      if a == End {
        var r :| Derives(cfg, beta, [End] + r);
        FormSymbols(cfg, beta, [End] + r, 0);
      }
    }

    /** A pass over production `p` from index `i` on finds nothing to add. */
    ghost predicate FollowClosedFrom(T: SetTable, p: nat)
      requires cfg.WellFormed() && FirstKeys(cfg, First) && T.Keys == cfg.nonterminals
      reads this
    {
      forall i {:trigger FollowClosedAt(cfg, First, T, p, i)} ::
        1 <= p < |cfg.productions| && 0 <= i < |cfg.Rhs(p)| ==> FollowClosedAt(cfg, First, T, p, i)
    }

    /** Visit the symbols of one production. */
    method FollowRules(p: nat, ghost start: Symbol) returns (didAdd: bool)
      requires cfg.WellFormed() && FirstSound(cfg, First) && FollowSound(cfg, start, Follow)
      requires 1 <= p < |cfg.productions|
      modifies this`Follow
      ensures FollowSound(cfg, start, Follow) && Grew(old(Follow), Follow, didAdd)
      ensures forall n :: n in old(Follow) ==> Elems(old(Follow)[n]) <= Elems(Follow[n])
      ensures !didAdd ==> FollowClosedFrom(Follow, p)
    {
      hide FollowGrew, FirstSound, FollowClosedAt;
      FirstSoundKeys(cfg, First);
      didAdd := false;
      ghost var T := Follow;
      var rhs := cfg.Rhs(p);
      for i := 0 to |rhs|
        invariant FollowSound(cfg, start, Follow) && Grew(T, Follow, didAdd)
        invariant forall n :: n in T ==> Elems(T[n]) <= Elems(Follow[n])
        invariant !didAdd ==> forall j :: 0 <= j < i ==> FollowClosedAt(cfg, First, T, p, j)
      {
        if rhs[i] in cfg.nonterminals {
          ghost var T1 := Follow;
          var added := AddFollow(p, i);
          FollowGrewSound(start, T1, Follow, p, i, added);
          FollowStep(T1, Follow, p, i, added);
          GrewTrans(T, T1, Follow, didAdd, added);
          didAdd := didAdd || added;
        } else {
          TerminalClosed(Follow, p, i);
        }
      }
    }

    lemma TerminalClosed(T: SetTable, p: nat, i: nat)
      requires cfg.WellFormed() && FirstKeys(cfg, First) && T.Keys == cfg.nonterminals
      requires 1 <= p < |cfg.productions| && i < |cfg.Rhs(p)| && cfg.Rhs(p)[i] !in cfg.nonterminals
      ensures FollowClosedAt(cfg, First, T, p, i)
    {
    }

    lemma FollowStep(T: SetTable, T': SetTable, p: nat, i: nat, didAdd: bool)
      requires cfg.WellFormed() && FirstKeys(cfg, First) && T.Keys == cfg.nonterminals && T'.Keys == T.Keys
      requires 1 <= p < |cfg.productions| && i < |cfg.Rhs(p)| && cfg.Rhs(p)[i] in cfg.nonterminals
      requires FollowGrew(T, T', cfg.Rhs(p)[i], Contribution(First, T, p, i), didAdd)
      ensures Grew(T, T', didAdd) && forall n :: n in T ==> Elems(T[n]) <= Elems(T'[n])
      ensures !didAdd ==> FollowClosedAt(cfg, First, T', p, i)
    {
      var B := cfg.Rhs(p)[i];
      PairsGrow(T, T', B);
      if !didAdd {
        var firsts := FirstSet(First, cfg.Rhs(p)[i + 1..]);
        assert Contribution(First, T, p, i) <= Elems(T[B]);
        assert firsts - {Empty} <= Contribution(First, T, p, i);
        if Empty in firsts {
          assert Elems(T[cfg.productions[p].name]) <= Contribution(First, T, p, i);
        }
      }
    }

    lemma FollowPairs(start: Symbol, T: SetTable)
      requires cfg.WellFormed() && FollowSound(cfg, start, T)
      ensures Pairs(T) <= AllPairs(cfg.nonterminals, cfg.terminals + {End})
    {
      forall b | b in T ensures Elems(T[b]) <= cfg.terminals + {End} {
        forall a | a in T[b] ensures a in cfg.terminals + {End} {
          assert FollowFact(cfg, start, b, a);
        }
      }
    }

    /** `compute_follow(start)`: with no start symbol given it takes the first rule's name, and with
        sets already computed it ignores the argument. */
    method ComputeFollow(startArg: Option<Symbol>)
      requires cfg.WellFormed() && FirstReady() && FollowReady()
      requires startArg.Some? ==> startArg.value in cfg.nonterminals
      modifies this
      ensures FirstSound(cfg, First) && FirstClosed(cfg, First) && FirstExact(cfg, First)
      ensures SetsClosed(cfg, followStart, First, Follow) && FollowExact(cfg, followStart, Follow)
      ensures forall n :: n in Follow ==> NoDuplicates(Follow[n])
      ensures old(Follow) != map[] ==> followStart == old(followStart)
      ensures old(Follow) == map[] ==>
                followStart == if startArg.Some? then startArg.value else cfg.productions[1].name
    {
      hide *;
      if Follow.Keys != {} {
        FollowKnown();
        return;
      }
      ComputeFirst();
      FirstRuleName();
      var start := if startArg.Some? then startArg.value else cfg.productions[1].name;
      Follow := (map k | k in cfg.nonterminals :: [])[start := [End]];
      followStart := start;
      StartSound(start);
      PropagateFollow(start);
      FollowDone(start);
    }

    lemma FollowKnown()
      requires cfg.WellFormed() && FirstReady() && FollowReady() && Follow.Keys != {}
      ensures FirstSound(cfg, First) && FirstClosed(cfg, First) && FirstExact(cfg, First) && Follow != map[]
      ensures SetsClosed(cfg, followStart, First, Follow) && FollowExact(cfg, followStart, Follow)
      ensures forall n :: n in Follow ==> NoDuplicates(Follow[n])
    {
      hide FollowFact, FirstFact, FollowClosed, FirstKeys;
      FirstIsExact(cfg, First);
      FollowIsExact(cfg, followStart, First, Follow);
    }

    lemma FirstRuleName()
      requires cfg.WellFormed()
      ensures |cfg.productions| > 1 && cfg.productions[1].name in cfg.nonterminals
      ensures Follow.Keys == {} ==> Follow == map[]
    {
    }

    lemma FollowDone(start: Symbol)
      requires cfg.WellFormed() && FirstSound(cfg, First) && FirstClosed(cfg, First) && FirstKeys(cfg, First)
      requires FollowSound(cfg, start, Follow) && FollowClosed(cfg, start, First, Follow)
      ensures SetsClosed(cfg, start, First, Follow) && FollowExact(cfg, start, Follow)
      ensures forall n :: n in Follow ==> NoDuplicates(Follow[n])
    {
      hide FollowFact, FirstFact, FollowClosedAt, FirstClosedAt, FirstKeys;
      FollowIsExact(cfg, start, First, Follow);
    }

    /** The outer loop of `compute_follow`: pass over the productions until nothing is added. */
    method PropagateFollow(ghost start: Symbol)
      requires cfg.WellFormed() && FirstSound(cfg, First) && FollowSound(cfg, start, Follow)
      requires start in cfg.nonterminals && End in Elems(Follow[start])
      modifies this`Follow
      ensures FollowSound(cfg, start, Follow) && FirstKeys(cfg, First) && FollowClosed(cfg, start, First, Follow)
    {
      hide FollowSound, FollowClosedFrom, FirstSound;
      FirstSoundKeys(cfg, First);
      FollowKeys(start);
      ghost var universe := AllPairs(cfg.nonterminals, cfg.terminals + {End});
      var didAdd := true;
      while didAdd
        invariant FollowSound(cfg, start, Follow) && Follow.Keys == cfg.nonterminals && End in Elems(Follow[start])
        invariant !didAdd ==> forall p :: 1 <= p < |cfg.productions| ==> FollowClosedFrom(Follow, p)
        decreases universe - Pairs(Follow), didAdd
      {
        FollowPairs(start, Follow);
        didAdd := FollowPass(start);
        FollowPairs(start, Follow);
      }
      AllFollowClosed(start);
    }

    /** Visit all productions but the first. */
    method FollowPass(ghost start: Symbol) returns (didAdd: bool)
      requires cfg.WellFormed() && FirstSound(cfg, First) && FollowSound(cfg, start, Follow)
      requires start in Follow && End in Elems(Follow[start])
      modifies this`Follow
      ensures FollowSound(cfg, start, Follow) && Follow.Keys == cfg.nonterminals && End in Elems(Follow[start])
      ensures Grew(old(Follow), Follow, didAdd)
      ensures !didAdd ==> FirstKeys(cfg, First) && forall p :: 1 <= p < |cfg.productions| ==> FollowClosedFrom(Follow, p)
    {
      hide FollowSound, FollowClosedFrom, FirstSound;
      FirstSoundKeys(cfg, First);
      FollowKeys(start);
      ghost var T := Follow;
      didAdd := false;
      for p := 1 to |cfg.productions|
        invariant FollowSound(cfg, start, Follow) && Follow.Keys == cfg.nonterminals && End in Elems(Follow[start])
        invariant Grew(T, Follow, didAdd)
        invariant !didAdd ==> forall q :: 1 <= q < p ==> FollowClosedFrom(Follow, q)
      {
        ghost var T1 := Follow;
        var added := FollowRules(p, start);
        FollowKeys(start);
        GrewTrans(T, T1, Follow, didAdd, added);
        didAdd := didAdd || added;
      }
    }

    lemma FollowKeys(start: Symbol)
      requires FollowSound(cfg, start, Follow)
      ensures Follow.Keys == cfg.nonterminals
    {
    }

    lemma StartSound(start: Symbol)
      requires cfg.WellFormed() && start in cfg.nonterminals
      requires Follow == (map k | k in cfg.nonterminals :: [])[start := [End]]
      ensures FollowSound(cfg, start, Follow) && End in Elems(Follow[start])
    {
      hide FollowFact, Derives;
      StartFollow(start);
      forall b, a | b in Follow && a in Follow[b] ensures FollowFact(cfg, start, b, a) {
        assert b == start && a == End;
      }
    }

    lemma StartFollow(start: Symbol)
      ensures FollowFact(cfg, start, start, End)
    {
      DerivesSelf(cfg, [start]);
      assert [start] == [] + [start];
    }

    lemma AllFollowClosed(start: Symbol)
      requires cfg.WellFormed() && FirstKeys(cfg, First) && start in cfg.nonterminals
      requires Follow.Keys == cfg.nonterminals && End in Elems(Follow[start])
      requires forall p :: 1 <= p < |cfg.productions| ==> FollowClosedFrom(Follow, p)
      ensures FollowClosed(cfg, start, First, Follow)
    {
      forall p, i | 1 <= p < |cfg.productions| && 0 <= i < |cfg.Rhs(p)|
        ensures FollowClosedAt(cfg, First, Follow, p, i)
      {
        assert FollowClosedFrom(Follow, p);
      }
    }

    // ----- Grammar checks -----

    /** `infinite_cycles`: the nonterminals from which no string of terminals can be derived. */
    method InfiniteCycles() returns (infinite: set<Symbol>)
      requires cfg.WellFormed()
      ensures forall n :: n in infinite <==> n in cfg.nonterminals && !Productive(cfg, n)
    {
      var terminates := cfg.terminals + {End};
      TerminalsProductive();
      ghost var universe := cfg.terminals + {End} + cfg.nonterminals;
      var someChange := true;
      while someChange
        invariant cfg.terminals + {End} <= terminates <= universe
        invariant forall n :: n in terminates && n != End ==> Productive(cfg, n)
        invariant !someChange ==> ProductiveClosed(cfg, terminates)
        decreases universe - terminates, someChange
      {
        ghost var before := terminates;
        someChange := false;
        var todo := cfg.nonterminals;
        while todo != {}
          invariant before <= terminates <= universe && todo <= cfg.nonterminals
          invariant forall n :: n in terminates && n != End ==> Productive(cfg, n)
          invariant someChange <==> before != terminates
          invariant forall p ::
            1 <= p < |cfg.productions| && cfg.productions[p].name !in todo && Elems(cfg.Rhs(p)) <= before ==>
              cfg.productions[p].name in terminates
        {
          var n :| n in todo;
          todo := todo - {n};
          var some := SomeRuleTerminates(n, terminates);
          if some && n !in terminates {
            terminates := terminates + {n};
            someChange := true;
          }
        }
      }
      infinite := cfg.nonterminals - terminates;
      forall n | n in cfg.nonterminals ensures n in terminates <==> Productive(cfg, n) {
        ProductiveIsExact(cfg, terminates, n);
      }
    }

    lemma TerminalsProductive()
      ensures forall t :: t in cfg.terminals ==> Productive(cfg, t)
    {
      forall t | t in cfg.terminals ensures Productive(cfg, t) {
        DerivesSelf(cfg, [t]);
      }
    }

    /** The loop over the productions of `n`, left at the first one whose symbols all terminate. */
    method SomeRuleTerminates(n: Symbol, terminates: set<Symbol>) returns (some: bool)
      requires cfg.WellFormed() && n in cfg.nonterminals
      requires forall x :: x in terminates && x != End ==> Productive(cfg, x)
      ensures some <==> exists p :: 1 <= p < |cfg.productions| && cfg.productions[p].name == n &&
                                    Elems(cfg.Rhs(p)) <= terminates
      ensures some ==> Productive(cfg, n)
    {
      var ps := cfg.Prodnames(n);
      for k := 0 to |ps|
        invariant forall j :: 0 <= j < k ==> !(Elems(cfg.Rhs(ps[j])) <= terminates)
      {
        var rhs, i, pTerminates := cfg.Rhs(ps[k]), 0, true;
        while i < |rhs| && pTerminates
          invariant i <= |rhs| && (pTerminates ==> forall j :: 0 <= j < i ==> rhs[j] in terminates)
          invariant !pTerminates ==> !(Elems(rhs) <= terminates)
          decreases |rhs| - i, pTerminates
        {
          if rhs[i] !in terminates {
            assert rhs[i] in Elems(rhs);
            pTerminates := false;
          } else {
            i := i + 1;
          }
        }
        if pTerminates {
          forall x | x in rhs ensures Productive(cfg, x) {
            var j :| 0 <= j < |rhs| && rhs[j] == x;
            SymbolsOf(ps[k], j);
          }
          ProductiveProduction(cfg, ps[k]);
          return true;
        }
      }
      some := false;
    }

    lemma SymbolsOf(p: nat, j: nat)
      requires cfg.WellFormed() && p < |cfg.productions| && j < |cfg.Rhs(p)|
      ensures cfg.Rhs(p)[j] in cfg.terminals + cfg.nonterminals && cfg.Rhs(p)[j] != End
    {
    }

    /** `find_unreachable`: the nonterminals in no sentential form of the start symbol. */
    method FindUnreachable() returns (unreachable: set<Symbol>)
      requires cfg.WellFormed()
      ensures forall n :: n in unreachable <==> n in cfg.nonterminals && !ReachableFrom(cfg, cfg.Start(), n)
    {
      var s := cfg.Start();
      DerivesSelf(cfg, [s]);
      assert [s] == [] + [s] + [];
      var reachable := MarkReachableFrom(s, {}, {});
      forall n ensures n in reachable <==> ReachableFrom(cfg, s, n) {
        ReachableIsExact(cfg, s, reachable, n);
      }
      unreachable := cfg.nonterminals - reachable;
    }

    /** `mark_reachable_from(s)`; the symbols in `gray` have calls in progress. */
    method MarkReachableFrom(s: Symbol, reachable: set<Symbol>, ghost gray: set<Symbol>) returns (marked: set<Symbol>)
      requires cfg.WellFormed() && reachable <= cfg.terminals + cfg.nonterminals
      requires s in cfg.terminals + cfg.nonterminals && ReachableFrom(cfg, cfg.Start(), s)
      requires forall n :: n in reachable ==> ReachableFrom(cfg, cfg.Start(), n)
      requires forall n :: n in reachable - gray ==> ReachClosedAt(cfg, reachable, n)
      ensures reachable + {s} <= marked <= cfg.terminals + cfg.nonterminals
      ensures forall n :: n in marked ==> ReachableFrom(cfg, cfg.Start(), n)
      ensures forall n :: n in marked - gray ==> ReachClosedAt(cfg, marked, n)
      decreases cfg.terminals + cfg.nonterminals - reachable, 1
    {
      hide ReachClosedAt, ReachableFrom;
      if s in reachable {
        return reachable;
      }
      marked := reachable + {s};
      ReachMono(reachable, marked, reachable - gray);
      var ps := cfg.Prodnames(s);
      for k := 0 to |ps|
        invariant reachable + {s} <= marked <= cfg.terminals + cfg.nonterminals
        invariant forall n :: n in marked ==> ReachableFrom(cfg, cfg.Start(), n)
        invariant forall n :: n in marked - gray - {s} ==> ReachClosedAt(cfg, marked, n)
        invariant forall j, x :: 0 <= j < k && x in cfg.Rhs(ps[j]) ==> x in marked
      {
        marked := MarkRule(ps[k], marked, gray + {s}, reachable);
      }
      RulesMarked(s, ps, marked);
    }

    /** Mark the symbols of one production. */
    method MarkRule(p: nat, marked0: set<Symbol>, ghost gray: set<Symbol>, ghost below: set<Symbol>) returns (marked: set<Symbol>)
      requires cfg.WellFormed() && 1 <= p < |cfg.productions| && below < marked0 <= cfg.terminals + cfg.nonterminals
      requires ReachableFrom(cfg, cfg.Start(), cfg.productions[p].name)
      requires forall n :: n in marked0 ==> ReachableFrom(cfg, cfg.Start(), n)
      requires forall n :: n in marked0 - gray ==> ReachClosedAt(cfg, marked0, n)
      ensures marked0 <= marked <= cfg.terminals + cfg.nonterminals
      ensures forall n :: n in marked ==> ReachableFrom(cfg, cfg.Start(), n)
      ensures forall n :: n in marked - gray ==> ReachClosedAt(cfg, marked, n)
      ensures forall x :: x in cfg.Rhs(p) ==> x in marked
      decreases cfg.terminals + cfg.nonterminals - below, 0
    {
      hide ReachClosedAt, ReachableFrom;
      var rhs := cfg.Rhs(p);
      marked := marked0;
      for i := 0 to |rhs|
        invariant marked0 <= marked <= cfg.terminals + cfg.nonterminals
        invariant forall n :: n in marked ==> ReachableFrom(cfg, cfg.Start(), n)
        invariant forall n :: n in marked - gray ==> ReachClosedAt(cfg, marked, n)
        invariant forall j :: 0 <= j < i ==> rhs[j] in marked
      {
        ReachableStep(cfg, cfg.Start(), p, rhs[i]);
        SymbolsOf(p, i);
        assert below < marked;
        marked := MarkReachableFrom(rhs[i], marked, gray);
      }
    }

    lemma ReachMono(marked0: set<Symbol>, marked: set<Symbol>, ns: set<Symbol>)
      requires marked0 <= marked && forall n :: n in ns ==> ReachClosedAt(cfg, marked0, n)
      ensures forall n :: n in ns ==> ReachClosedAt(cfg, marked, n)
    {
    }

    lemma RulesMarked(s: Symbol, ps: seq<nat>, marked: set<Symbol>)
      requires cfg.WellFormed() && ps == cfg.Prodnames(s)
      requires forall j, x :: 0 <= j < |ps| && x in cfg.Rhs(ps[j]) ==> x in marked
      ensures ReachClosedAt(cfg, marked, s)
    {
      forall p, x | 1 <= p < |cfg.productions| && cfg.productions[p].name == s && x in cfg.Rhs(p) ensures x in marked {
        assert p in ps;
      }
    }
  }
}
