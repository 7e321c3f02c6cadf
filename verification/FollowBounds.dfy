/** What the LALR lookaheads are bounded by: if no read sets share a list, which they do only on a cycle
    of nullable transitions, every lookahead of a completed item is in FOLLOW of its nonterminal. */
module FollowBounds {
  import opened Lists
  import opened Grammars
  import opened GrammarFacts
  import opened Items
  import opened ParserTables
  import opened Digraphs
  import opened LalrFacts
  import opened Relations
  import opened Lookaheads

  /** No path of nullable symbols leads from a state back to it. */
  ghost predicate NoReadsCycle(g: Cfg, d: Delta) {
    forall q: nat, alpha {:trigger Walk(d, q, alpha)} :: alpha != [] && NullableSymbols(g, alpha) ==> Walk(d, q, alpha) != Some(q)
  }

  /** The lookaheads of each production are in FOLLOW of its name, computed for `start`. */
  ghost predicate WithinFollow(g: Cfg, start: Symbol, la: LookTable) {
    forall key, a :: key in la && a in la[key] ==> key.1 < |g.productions| && FollowFact(g, start, g.productions[key.1].name, a)
  }

  /** They are, whatever start symbol FOLLOW is computed for, as long as `$end` follows the true one. */
  ghost predicate Bounded(g: Cfg, d: Delta, la: LookTable)
    requires g.WellFormed()
  {
    NoReadsCycle(g, d) ==> forall start :: FollowFact(g, start, g.Start(), End) ==> WithinFollow(g, start, la)
  }

  // ----- What is read behind a transition -----

  /** Behind a transition over `A` and a path `alpha`, what an item still expects stands behind `A` and
      `alpha` in some sentential form. */
  lemma {:induction false} BehindPath(g: Cfg, C: seq<seq<Item>>, K: seq<seq<Item>>, d: Delta, q: nat, A: Symbol, alpha: seq<Symbol>,
                                      s: nat, i: nat) returns (m: Symbol, u: seq<Symbol>, v: seq<Symbol>)
    requires g.WellFormed() && Collection(g, C, K, d) && (q, A) in d && Walk(d, d[(q, A)], alpha) == Some(s)
    requires s < |C| && i < |C[s]| && C[s][i].num > 0
    ensures ValidItem(g, C[s][i]) && m in g.nonterminals
    ensures Derives(g, [m], u + [A] + alpha + g.Rhs(C[s][i].num)[C[s][i].dot..] + v)
    decreases |alpha|, i
  {
    hide Collection, Derives, Walk;
    var it := C[s][i];
    StateItems(g, C, K, d, s, it);
    PathTarget(g, C, K, d, q, A, alpha, s);
    if it.dot == 0 {
      var k := CallerBelow(g, C, K, d, s, i);
      var c := C[s][k];
      StateItems(g, C, K, d, s, c);
      m, u, v := BehindPath(g, C, K, d, q, A, alpha, s, k);
      v := RewriteHead(g, m, u + [A] + alpha, c, it.num, v);
    } else if alpha == [] {
      EmptyWalk(d, d[(q, A)]);
      UnmoveItem(g, C, K, d, q, A, it);
      m, u, v := NameAround(g, it, A);
    } else {
      var p, x := alpha[..|alpha| - 1], alpha[|alpha| - 1];
      var r := StateBefore(d, d[(q, A)], alpha);
      assert alpha == p + [x];
      UnmoveItem(g, C, K, d, r, x, it);
      var k: nat :| k < |C[r]| && C[r][k] == Item(it.num, it.dot - 1);
      m, u, v := BehindPath(g, C, K, d, q, A, p, r, k);
      assert g.Rhs(it.num)[it.dot - 1..] == [x] + g.Rhs(it.num)[it.dot..];
      assert u + [A] + p + ([x] + g.Rhs(it.num)[it.dot..]) + v == u + [A] + alpha + g.Rhs(it.num)[it.dot..] + v;
    }
  }

  lemma StateBefore(d: Delta, q: nat, alpha: seq<Symbol>) returns (r: nat)
    requires alpha != [] && Walk(d, q, alpha).Some?
    ensures Walk(d, q, alpha[..|alpha| - 1]) == Some(r) && (r, alpha[|alpha| - 1]) in d
    ensures Walk(d, q, alpha) == Some(d[(r, alpha[|alpha| - 1])])
  {
    r := Walk(d, q, alpha[..|alpha| - 1]).value;
  }

  lemma PathTarget(g: Cfg, C: seq<seq<Item>>, K: seq<seq<Item>>, d: Delta, q: nat, A: Symbol, alpha: seq<Symbol>, s: nat)
    requires Collection(g, C, K, d) && (q, A) in d && Walk(d, d[(q, A)], alpha) == Some(s)
    ensures 0 < s < |C|
  {
    hide Collection, Walk;
    EmptyWalk(d, d[(q, A)]);
    StateBound(g, C, K, d, q, A);
    if alpha != [] {
      var r := StateBefore(d, d[(q, A)], alpha);
      StateBound(g, C, K, d, r, alpha[|alpha| - 1]);
    }
  }

  /** An initial item is called for by an earlier item of its state, of another production than 0 except
      in state 0. */
  lemma CallerBelow(g: Cfg, C: seq<seq<Item>>, K: seq<seq<Item>>, d: Delta, s: nat, i: nat) returns (k: nat)
    requires g.WellFormed() && Collection(g, C, K, d) && 0 < s < |C| && i < |C[s]| && C[s][i].dot == 0
    ensures k < i && C[s][k].num > 0 && DotBefore(g, C[s][k], g.productions[C[s][i].num].name)
  {
    hide Collection;
    var n := KernelSize(g, C, K, d, s);
    if i < n {
      KernelItem(g, C, K, d, s, i);
      KernelFirst(g, C, K, d, s, i);
    }
    k := Caller(g, C, K, d, s, i);
    StateItems(g, C, K, d, s, C[s][k]);
    StartItem(g, C, K, d, s);
    assert C[s][k] in C[s];
  }

  /** The nonterminal behind the dot of `c` is rewritten by its production `p`. */
  lemma RewriteHead(g: Cfg, m: Symbol, w: seq<Symbol>, c: Item, p: nat, v: seq<Symbol>) returns (v': seq<Symbol>)
    requires ValidItem(g, c) && p < |g.productions| && DotBefore(g, c, g.productions[p].name)
    requires Derives(g, [m], w + g.Rhs(c.num)[c.dot..] + v)
    ensures Derives(g, [m], w + g.Rhs(p)[0..] + v')
  {
    hide Derives;
    var n, rest := g.productions[p].name, g.Rhs(c.num)[c.dot + 1..];
    v' := rest + v;
    assert w + g.Rhs(c.num)[c.dot..] + v == w + [n] + v';
    assert g.Rhs(p)[0..] == g.Rhs(p);
    DerivesProduction(g, p);
    DerivesContext(g, w, [n], g.Rhs(p), v');
    DerivesTrans(g, [m], w + [n] + v', w + g.Rhs(p) + v');
  }

  lemma NameAround(g: Cfg, it: Item, A: Symbol) returns (m: Symbol, u: seq<Symbol>, v: seq<Symbol>)
    requires g.WellFormed() && ValidItem(g, it) && it.num > 0 && it.dot > 0 && DotBefore(g, Item(it.num, it.dot - 1), A)
    ensures m in g.nonterminals && Derives(g, [m], u + [A] + [] + g.Rhs(it.num)[it.dot..] + v)
  {
    hide Derives;
    m, u, v := g.productions[it.num].name, g.Rhs(it.num)[..it.dot - 1], [];
    DerivesProduction(g, it.num);
    assert u + [A] + [] + g.Rhs(it.num)[it.dot..] + v == g.Rhs(it.num);
  }

  /** A terminal that can be shifted behind a transition and nullable symbols follows the transition's
      nonterminal. */
  lemma ShiftFollows(g: Cfg, C: seq<seq<Item>>, K: seq<seq<Item>>, d: Delta, start: Symbol, q: nat, A: Symbol, alpha: seq<Symbol>,
                     s: nat, a: Symbol)
    requires g.WellFormed() && Collection(g, C, K, d) && (q, A) in d && Walk(d, d[(q, A)], alpha) == Some(s)
    requires NullableSymbols(g, alpha) && (s, a) in d && a in g.terminals
    ensures FollowFact(g, start, A, a)
  {
    hide Collection, Derives, Walk, FollowFact;
    var it := EdgeItem(g, C, K, d, s, a);
    StateItems(g, C, K, d, s, it);
    var i: nat :| i < |C[s]| && C[s][i] == it;
    var m, u, v := BehindPath(g, C, K, d, q, A, alpha, s, i);
    var rest := g.Rhs(it.num)[it.dot + 1..];
    assert u + [A] + alpha + g.Rhs(it.num)[it.dot..] + v == (u + [A]) + alpha + ([a] + rest + v);
    NullableForest(g, alpha);
    DerivesContext(g, u + [A], alpha, [], [a] + rest + v);
    DerivesTrans(g, [m], (u + [A]) + alpha + ([a] + rest + v), (u + [A]) + [] + ([a] + rest + v));
    assert (u + [A]) + [] + ([a] + rest + v) == u + [A, a] + (rest + v);
    FollowFactFrom(g, start, m, u, A, a, rest + v);
  }

  // ----- Read sets -----

  /** A path in the reads relation is a path of nullable symbols in the automaton. */
  lemma {:induction false} ReadsPath(d: Delta, g: Cfg, nullable: set<Symbol>, R: map<Trans, seq<Trans>>, e: Trans, z: Trans, n: nat)
    returns (alpha: seq<Symbol>)
    requires NullableExact(g, nullable) && (forall e :: e in R ==> ReadsAt(d, nullable, e, R[e])) && e in d && ReachesIn(R, e, z, n)
    ensures z in d && |alpha| == n && NullableSymbols(g, alpha) && Walk(d, d[e], alpha) == Some(d[z])
    ensures n > 0 ==> exists f :: f in d && z.0 == d[f]
    decreases n
  {
    hide Nullable, Walk;
    if n == 0 {
      alpha := [];
      EmptyWalk(d, d[e]);
    } else {
      var y :| y in R[e] && ReachesIn(R, y, z, n - 1);
      assert ReadsAt(d, nullable, e, R[e]);
      var beta := ReadsPath(d, g, nullable, R, y, z, n - 1);
      alpha := [y.1] + beta;
      WalkCons(d, d[e], y.1, beta);
    }
  }

  lemma {:induction false} WalkCons(d: Delta, q: nat, x: Symbol, alpha: seq<Symbol>)
    requires (q, x) in d
    ensures Walk(d, q, [x] + alpha) == Walk(d, d[(q, x)], alpha)
  {
    hide Walk;
    if alpha == [] {
      EmptyWalk(d, q);
      EmptyWalk(d, d[(q, x)]);
      WalkSnoc(d, q, [], x);
      assert [] + [x] == [x] + alpha;
    } else {
      var p, y := alpha[..|alpha| - 1], alpha[|alpha| - 1];
      WalkCons(d, q, x, p);
      WalkSnoc(d, q, [x] + p, y);
      WalkSnoc(d, d[(q, x)], p, y);
      assert alpha == p + [y] && [x] + p + [y] == [x] + alpha;
    }
  }

  /** Without a cycle, no two read sets share a list. */
  lemma ReadsUnshared(g: Cfg, d: Delta, nullable: set<Symbol>, R: map<Trans, seq<Trans>>, F: map<Trans, nat>)
    requires NullableExact(g, nullable) && NoReadsCycle(g, d) && SharedWithin(R, F) && F.Keys <= d.Keys
    requires forall e :: e in R ==> ReadsAt(d, nullable, e, R[e])
    ensures Unaliased(F)
  {
    hide NullableExact, ReadsAt, Walk, ReachesIn;
    forall x, y | x in F && y in F && x != y ensures F[x] != F[y] {
      if F[x] == F[y] {
        assert Reaches(R, x, y) && Reaches(R, y, x);
        var m: nat :| ReachesIn(R, x, y, m);
        var n: nat :| ReachesIn(R, y, x, n);
        ReachesInTrans(R, x, y, x, m, n);
        if m == 0 {
          NoStep(R, x, y);
        }
        var alpha := ReadsPath(d, g, nullable, R, x, x, m + n);
        assert Walk(d, d[x], alpha) == Some(d[x]);
      }
    }
  }

  lemma NoStep(R: map<Trans, seq<Trans>>, x: Trans, y: Trans)
    ensures ReachesIn(R, x, y, 0) ==> x == y
  {
  }

  lemma ReadWithin(g: Cfg, C: seq<seq<Item>>, K: seq<seq<Item>>, d: Delta, start: Symbol, nullable: set<Symbol>, R: map<Trans, seq<Trans>>,
                   dr: map<Trans, set<Symbol>>, rd: map<Trans, set<Symbol>>, e: Trans, a: Symbol)
    requires g.WellFormed() && Collection(g, C, K, d) && NullableExact(g, nullable) && ReadSets(g, d, nullable, R, dr, rd)
    requires FollowFact(g, start, g.Start(), End) && e in rd && a in rd[e]
    ensures FollowFact(g, start, e.1, a)
  {
    hide Collection, NullableExact, FollowFact, ReadsAt, Walk, ReachesIn, NullableSymbols;
    assert Required(R, dr, e, a);
    var z, n := RequiredPath(R, dr, e, a);
    assert IsTrans(g, d, e);
    var alpha := ReadsPath(d, g, nullable, R, e, z, n);
    assert DirectlyRead(g, d, z, a);
    if z in d && a in g.terminals && (d[z], a) in d {
      ShiftFollows(g, C, K, d, start, e.0, e.1, alpha, d[z], a);
    } else {
      EndReadAtStart(g, C, K, d, R, e, z, n);
    }
  }

  lemma EndReadAtStart(g: Cfg, C: seq<seq<Item>>, K: seq<seq<Item>>, d: Delta, R: map<Trans, seq<Trans>>, e: Trans, z: Trans, n: nat)
    requires Collection(g, C, K, d) && ReachesIn(R, e, z, n) && z.0 == 0
    requires n > 0 ==> exists f :: f in d && z.0 == d[f]
    ensures e == z
  {
    hide Collection;
    if n > 0 {
      var f :| f in d && z.0 == d[f];
      StateBound(g, C, K, d, f.0, f.1);
    }
  }

  // ----- Follow sets -----

  lemma IncludedWithin(g: Cfg, C: seq<seq<Item>>, d: Delta, start: Symbol, nullable: set<Symbol>, t: Trans, e: Trans, a: Symbol)
    requires g.WellFormed() && NullableExact(g, nullable) && IsTrans(g, d, t) && IncludesFrom(g, C, d, nullable, t, e)
    requires FollowFact(g, start, t.1, a)
    ensures FollowFact(g, start, e.1, a)
  {
    hide FollowFact, Walk, Nullable;
    var it, k: nat :| it in C[t.0] && IncludesVia(g, d, nullable, t.0, it, k, e) && g.productions[it.num].name == t.1;
    var rest := g.Rhs(it.num)[k + 1..];
    forall x | x in rest ensures Nullable(g, [x]) {
      var i :| 0 <= i < |rest| && rest[i] == x;
      assert g.Rhs(it.num)[k + 1 + i] in nullable;
    }
    NullableForest(g, rest);
    FollowFromFollow(g, start, it.num, k, a);
  }

  lemma {:induction false} FollowWithin(g: Cfg, C: seq<seq<Item>>, d: Delta, start: Symbol, nullable: set<Symbol>, R: map<Trans, seq<Trans>>,
                                        e: Trans, z: Trans, n: nat, a: Symbol)
    requires g.WellFormed() && NullableExact(g, nullable) && TransKeys(g, d, R.Keys)
    requires forall e, t :: e in R ==> (t in R[e] <==> t in R && IncludesFrom(g, C, d, nullable, t, e))
    requires ReachesIn(R, e, z, n) && FollowFact(g, start, z.1, a)
    ensures FollowFact(g, start, e.1, a)
    decreases n
  {
    hide NullableExact, FollowFact, IncludesFrom;
    if n > 0 {
      var y :| y in R[e] && ReachesIn(R, y, z, n - 1);
      FollowWithin(g, C, d, start, nullable, R, y, z, n - 1, a);
      assert IsTrans(g, d, y);
      IncludedWithin(g, C, d, start, nullable, y, e, a);
    }
  }

  lemma FollowSetRequired(g: Cfg, C: seq<seq<Item>>, d: Delta, nullable: set<Symbol>, R: map<Trans, seq<Trans>>, S: map<Trans, seq<Trans>>,
                          rd: map<Trans, set<Symbol>>, fs: map<Trans, set<Symbol>>, e: Trans, a: Symbol)
    requires FollowSets(g, C, d, nullable, R, S, rd, fs) && e in fs && a in fs[e]
    ensures Required(S, rd, e, a) && R.Keys == rd.Keys
    ensures forall e, t :: e in R ==> (t in R[e] <==> t in R && IncludesFrom(g, C, d, nullable, t, e))
  {
    hide Required, IncludesFrom;
  }

  lemma RequiredPath(R: map<Trans, seq<Trans>>, base: map<Trans, set<Symbol>>, e: Trans, a: Symbol) returns (z: Trans, n: nat)
    requires Required(R, base, e, a)
    ensures ReachesIn(R, e, z, n) && z in base && a in base[z]
  {
    z :| Reaches(R, e, z) && z in base && a in base[z];
    n :| ReachesIn(R, e, z, n);
  }

  /** Follow sets: exactly what includes requires of the read sets, and within FOLLOW. */
  lemma FollowSetWithin(g: Cfg, C: seq<seq<Item>>, K: seq<seq<Item>>, d: Delta, start: Symbol, nullable: set<Symbol>, R: map<Trans, seq<Trans>>,
                        dr: map<Trans, set<Symbol>>, trans: seq<Trans>, readF: map<Trans, nat>, rd: map<Trans, set<Symbol>>,
                        inc: map<Trans, seq<Trans>>, fs: map<Trans, set<Symbol>>, e: Trans, a: Symbol)
    requires g.WellFormed() && Collection(g, C, K, d) && NullableExact(g, nullable) && ReadSets(g, d, nullable, R, dr, rd)
    requires Unaliased(readF) && FollowSets(g, C, d, nullable, inc, WithSharing(inc, readF, trans), rd, fs)
    requires FollowFact(g, start, g.Start(), End) && e in fs && a in fs[e]
    ensures Required(inc, rd, e, a) && FollowFact(g, start, e.1, a)
  {
    hide *;
    FollowSetRequired(g, C, d, nullable, inc, WithSharing(inc, readF, trans), rd, fs, e, a);
    UnsharedIsExact(inc, readF, trans, rd, e, a);
    var z, n := RequiredPath(inc, rd, e, a);
    ReadKeys(g, d, nullable, R, dr, rd);
    ReadWithin(g, C, K, d, start, nullable, R, dr, rd, z, a);
    FollowWithin(g, C, d, start, nullable, inc, e, z, n, a);
  }

  // ----- Lookaheads -----

  lemma LookbackName(g: Cfg, C: seq<seq<Item>>, d: Delta, lookbacks: map<Trans, seq<(nat, Item)>>, t: Trans, x: (nat, Item))
    requires LookdictFull(g, C, d, lookbacks) && t in lookbacks && x in lookbacks[t]
    ensures x.1.num < |g.productions| && g.productions[x.1.num].name == t.1
  {
    hide Walk;
    assert LooksBack(g, C, d, t, x.0, x.1);
  }

  /** LALR lookaheads are within FOLLOW, if no path of nullable symbols goes round in a circle. */
  lemma LalrWithinFollow(g: Cfg, C: seq<seq<Item>>, K: seq<seq<Item>>, d: Delta, nullable: set<Symbol>, R: map<Trans, seq<Trans>>,
                         dr: map<Trans, set<Symbol>>, trans: seq<Trans>, readF: map<Trans, nat>, rd: map<Trans, set<Symbol>>,
                         inc: map<Trans, seq<Trans>>, lookbacks: map<Trans, seq<(nat, Item)>>, F: map<Trans, nat>, lists: seq<seq<Symbol>>,
                         la: LookDict)
    requires g.WellFormed() && Collection(g, C, K, d) && NullableExact(g, nullable) && ReadSets(g, d, nullable, R, dr, rd)
    requires readF.Keys == rd.Keys && SharedWithin(R, readF) && forall e :: e in F ==> F[e] < |lists|
    requires FollowSets(g, C, d, nullable, inc, WithSharing(inc, readF, trans), rd, SetsOf(F, lists))
    requires LookdictFull(g, C, d, lookbacks) && lookbacks.Keys <= F.Keys && Attached(lookbacks, F, lists, lookbacks.Keys, la)
    ensures Bounded(g, d, CompletedLooks(g, la))
  {
    hide Collection, NullableExact, FollowFact, ReadSets, FollowSets, WithSharing, Unaliased, SharedWithin, NoReadsCycle, LookdictFull,
         Attached, CompletedLooks, WithinFollow, SetsOf;
    if NoReadsCycle(g, d) {
      ReadsFacts(g, d, nullable, R, dr, rd);
      ReadsUnshared(g, d, nullable, R, readF);
      forall start | FollowFact(g, start, g.Start(), End) ensures WithinFollow(g, start, CompletedLooks(g, la)) {
        forall e, a | e in SetsOf(F, lists) && a in SetsOf(F, lists)[e] ensures FollowFact(g, start, e.1, a) {
          FollowSetWithin(g, C, K, d, start, nullable, R, dr, trans, readF, rd, inc, SetsOf(F, lists), e, a);
        }
        LooksWithin(g, C, d, start, lookbacks, F, lists, la);
      }
    }
  }

  lemma LooksWithin(g: Cfg, C: seq<seq<Item>>, d: Delta, start: Symbol, lookbacks: map<Trans, seq<(nat, Item)>>, F: map<Trans, nat>,
                    lists: seq<seq<Symbol>>, la: LookDict)
    requires forall e :: e in F ==> F[e] < |lists|
    requires LookdictFull(g, C, d, lookbacks) && lookbacks.Keys <= F.Keys && Attached(lookbacks, F, lists, lookbacks.Keys, la)
    requires forall e, a :: e in SetsOf(F, lists) && a in SetsOf(F, lists)[e] ==> FollowFact(g, start, e.1, a)
    ensures WithinFollow(g, start, CompletedLooks(g, la))
  {
    hide FollowFact, LookdictFull, Attached, CompletedLooks;
    var looks, fs := CompletedLooks(g, la), SetsOf(F, lists);
    forall key, a | key in looks && a in looks[key]
      ensures key.1 < |g.productions| && FollowFact(g, start, g.productions[key.1].name, a)
    {
      var t, x := LookSource(g, lookbacks, F, lists, la, key, a);
      LookbackName(g, C, d, lookbacks, t, x);
      assert t in fs && a in fs[t];
    }
  }

  lemma ReadsFacts(g: Cfg, d: Delta, nullable: set<Symbol>, R: map<Trans, seq<Trans>>, dr: map<Trans, set<Symbol>>, rd: map<Trans, set<Symbol>>)
    requires ReadSets(g, d, nullable, R, dr, rd)
    ensures rd.Keys <= d.Keys && forall e :: e in R ==> ReadsAt(d, nullable, e, R[e])
  {
    forall e | e in rd ensures e in d {
      assert IsTrans(g, d, e);
    }
  }
}
