/** The LR table generator: closures, interned goto sets, and the LR(0) collection. */
module Generator {
  import opened Lists
  import opened Grammars
  import opened Items
  import opened Interning
  import opened GrammarFacts
  import opened Analysis
  import opened ParserTables
  import opened LalrFacts
  import opened Digraphs
  import opened Relations
  import opened Lookaheads
  import opened FollowBounds
  import opened Lalr1
  import opened TableFill

  class LRGeneratedTable {
    const cfg: Cfg
    /** The epoch counter, and the stamp that each production object carries (0 when it has none). */
    var addCount: nat
    var lr0Added: map<nat, nat>
    /** The item lists that have been built; an index stands for `id(list)`. */
    var objects: seq<seq<Item>>
    var trie: seq<TrieNode>
    var roots: map<Symbol, nat>
    var gotoCache: map<(nat, Symbol), CacheEntry>
    var cidhash: map<nat, nat>
    /** The lookahead lists that the item objects carry, by state. */
    var lookaheads: LookDict
    ghost var labels: seq<Label>
    ghost var kernels: seq<seq<Item>>
    ghost var delta: Delta

    constructor (cfg: Cfg)
      ensures this.cfg == cfg && addCount == 0 && lr0Added == map[] && objects == [] && trie == [] && roots == map[]
      ensures gotoCache == map[] && cidhash == map[] && labels == [] && kernels == [] && delta == map[] && lookaheads == map[]
    {
      this.cfg := cfg;
      lookaheads := map[];
      addCount, lr0Added, objects, trie, roots, gotoCache, cidhash := 0, map[], [], [], map[], map[], map[];
      labels, kernels, delta := [], [], map[];
    }

    /** The list objects are the closures of their kernels, and no kernel has two objects. */
    ghost predicate StoreOk()
      reads this`objects, this`kernels
    {
      && 0 < |objects| == |kernels| && kernels[0] == [Item(0, 0)]
      && (forall i :: 0 <= i < |objects| ==> IsClosure(cfg, kernels[i], objects[i]))
      && (forall i, j :: 0 <= i < j < |kernels| ==> kernels[i] != kernels[j])
    }

    ghost predicate CacheOk()
      reads this`objects, this`kernels, this`gotoCache
    {
      forall k :: k in gotoCache && gotoCache[k].Obj? ==> CacheEntryOk(cfg, objects, kernels, k, gotoCache[k].id)
    }

    ghost predicate Valid()
      reads this`addCount, this`lr0Added, this`objects, this`kernels, this`trie, this`roots, this`labels, this`gotoCache
    {
      cfg.WellFormed() && StampsOk(lr0Added, addCount) && StoreOk() && TrieOk(cfg, trie, roots, labels, kernels) && CacheOk()
    }

    /** Append the initial items that the entry at index `k` calls for and that are not stamped yet. */
    method AddAfter(ghost I: seq<Item>, J0: seq<Item>, k: nat, ghost b: nat) returns (J: seq<Item>, added: bool)
      requires StampsOk(lr0Added, addCount) && Closing(cfg, lr0Added, addCount, I, J0) && k < |J0|
      requires CallsMade(cfg, lr0Added, addCount, |I|, J0, b) && k <= b
      modifies this`lr0Added
      ensures CallsMade(cfg, lr0Added, addCount, |I|, J, if k < b then b else k + 1)
      ensures StampsOk(lr0Added, addCount) && Closing(cfg, lr0Added, addCount, I, J) && J0 <= J && ClosedAt(cfg, J, J0[k])
      ensures Unstamped(cfg, lr0Added, addCount) <= Unstamped(cfg, old(lr0Added), addCount)
      ensures added ==> Unstamped(cfg, lr0Added, addCount) != Unstamped(cfg, old(lr0Added), addCount)
      ensures !added ==> J == J0
    {
      hide Closing, Unstamped, CallsMade, MakingCalls;
      J, added := J0, false;
      ClosingItems(cfg, lr0Added, addCount, I, J);
      var after := LrAfter(cfg, J0[k]);
      AfterOrdered(cfg, J0[k]);
      VisitStarts(cfg, lr0Added, addCount, |I|, J, k, b, after);
      for x := 0 to |after|
        invariant MakingCalls(cfg, lr0Added, addCount, |I|, J, k, b, after, x)
        invariant StampsOk(lr0Added, addCount) && Closing(cfg, lr0Added, addCount, I, J) && J0 <= J
        invariant Unstamped(cfg, lr0Added, addCount) <= Unstamped(cfg, old(lr0Added), addCount)
        invariant added ==> Unstamped(cfg, lr0Added, addCount) != Unstamped(cfg, old(lr0Added), addCount)
        invariant !added ==> J == J0
        invariant forall y :: 0 <= y < x ==> Stamped(lr0Added, addCount, after[y])
      {
        if !Stamped(lr0Added, addCount, after[x]) {
          ClosingAdd(cfg, lr0Added, addCount, I, J, k, after[x]);
          VisitAdds(cfg, lr0Added, addCount, I, J, k, b, after, x);
          J := J + [Item(after[x], 0)];
          lr0Added := lr0Added[after[x] := addCount];
          added := true;
        } else {
          VisitPasses(cfg, lr0Added, addCount, |I|, J, k, b, after, x);
        }
      }
      AfterStamped(cfg, lr0Added, addCount, I, J, k, after);
      VisitEnds(cfg, lr0Added, addCount, |I|, J, k, b, after);
    }

    /** `lr0_closure(I)`: a fresh list that starts with I and grows while it is being read. */
    method Lr0Closure(I: seq<Item>) returns (J: seq<Item>)
      requires cfg.WellFormed() && StampsOk(lr0Added, addCount) && ValidItems(cfg, I)
      modifies this`addCount, this`lr0Added
      ensures StampsOk(lr0Added, addCount) && addCount == old(addCount) + 1
      ensures IsClosure(cfg, I, J)
    {
      ClosingStart(cfg, lr0Added, addCount, I);
      hide *;
      addCount := addCount + 1;
      J := I;
      var didAdd := true;
      ghost var b: nat := 0;
      NoCallsMade(cfg, lr0Added, addCount, I);
      while didAdd
        invariant CallsMade(cfg, lr0Added, addCount, |I|, J, b)
        invariant addCount == old(addCount) + 1
        invariant StampsOk(lr0Added, addCount) && Closing(cfg, lr0Added, addCount, I, J)
        invariant !didAdd ==> forall i :: 0 <= i < |J| ==> ClosedAt(cfg, J, J[i])
        modifies this`lr0Added
        decreases Unstamped(cfg, lr0Added, addCount), didAdd
      {
        J, didAdd := ClosurePass(I, J, b);
        b := |J|;
      }
      ClosingDone(cfg, lr0Added, addCount, I, J, b);
    }

    /** One pass over the list, which also visits the entries appended meanwhile. */
    method ClosurePass(ghost I: seq<Item>, J0: seq<Item>, ghost b0: nat) returns (J: seq<Item>, didAdd: bool)
      requires StampsOk(lr0Added, addCount) && Closing(cfg, lr0Added, addCount, I, J0)
      requires CallsMade(cfg, lr0Added, addCount, |I|, J0, b0)
      modifies this`lr0Added
      ensures StampsOk(lr0Added, addCount) && Closing(cfg, lr0Added, addCount, I, J)
      ensures forall i :: 0 <= i < |J| ==> ClosedAt(cfg, J, J[i])
      ensures CallsMade(cfg, lr0Added, addCount, |I|, J, |J|)
      ensures Unstamped(cfg, lr0Added, addCount) <= Unstamped(cfg, old(lr0Added), addCount)
      ensures didAdd ==> Unstamped(cfg, lr0Added, addCount) != Unstamped(cfg, old(lr0Added), addCount)
    {
      hide *;
      J, didAdd := J0, false;
      var k := 0;
      ghost var b := b0;
      CallsWithin(cfg, lr0Added, addCount, |I|, J, b);
      while k < |J|
        invariant k <= b <= |J| && CallsMade(cfg, lr0Added, addCount, |I|, J, b)
        invariant k <= |J| && StampsOk(lr0Added, addCount) && Closing(cfg, lr0Added, addCount, I, J)
        invariant Unstamped(cfg, lr0Added, addCount) <= Unstamped(cfg, old(lr0Added), addCount)
        invariant didAdd ==> Unstamped(cfg, lr0Added, addCount) != Unstamped(cfg, old(lr0Added), addCount)
        invariant forall i :: 0 <= i < k ==> ClosedAt(cfg, J, J[i])
        decreases Unstamped(cfg, lr0Added, addCount), |J| - k
      {
        ghost var J1 := J;
        var added: bool;
        J, added := AddAfter(I, J, k, b);
        ClosedMono(cfg, J1, J, k);
        b := if k < b then b else k + 1;
        didAdd := didAdd || added;
        k := k + 1;
      }
    }

    // ----- Goto sets -----

    /** The dictionary of a symbol in the goto cache, created when it is missing. A linked dictionary is never
        left empty, so only a missing one is falsy. */
    method Root(x: Symbol) returns (s: nat)
      requires Valid()
      modifies this`trie, this`roots, this`labels
      ensures Valid() && s < |trie| == |labels| && labels[s] == Label(x, [])
    {
      if x !in roots {
        AddRoot(cfg, trie, roots, labels, kernels, x);
        roots := roots[x := |trie|];
        trie := trie + [TrieNode(map[], Missing)];
        labels := labels + [Label(x, [])];
      }
      s := roots[x];
    }

    /** The dictionary one item further, created when it is missing. */
    method Child(s: nat, n: Item) returns (s1: nat)
      requires Valid() && s < |trie| == |labels|
      requires n.dot > 0 && DotBefore(cfg, Item(n.num, n.dot - 1), labels[s].sym)
      modifies this`trie, this`labels
      ensures Valid() && s1 < |trie| == |labels| && labels[s1] == Label(old(labels)[s].sym, old(labels)[s].path + [n])
    {
      assert NodeOk(cfg, trie, roots, labels, kernels, s);
      if n !in trie[s].children {
        AddChild(cfg, trie, roots, labels, kernels, s, n);
        labels := labels + [Label(labels[s].sym, labels[s].path + [n])];
        trie := trie[s := trie[s].(children := trie[s].children[n := |trie|])] + [TrieNode(map[], Missing)];
      }
      s1 := trie[s].children[n];
    }

    /** Walk the nested dictionaries along the kernel of goto(I, x), building the kernel. */
    method WalkKernel(i: nat, x: Symbol) returns (s: nat, gs: seq<Item>)
      requires Valid() && i < |objects|
      modifies this`trie, this`roots, this`labels
      ensures Valid() && s < |trie| == |labels| && labels[s] == Label(x, gs) && gs == Advance(cfg, objects[i], x)
    {
      hide Valid, NodeOk, TrieOk;
      s := Root(x);
      gs := [];
      var I := objects[i];
      for k := 0 to |I|
        invariant Valid() && s < |trie| == |labels| && labels[s] == Label(x, gs)
        invariant gs == Advance(cfg, I[..k], x)
      {
        AdvanceSnoc(cfg, I, k, x);
        if DotBefore(cfg, I[k], x) {
          s := Child(s, I[k].Next());
          gs := gs + [I[k].Next()];
        }
      }
      assert I[..|I|] == I;
    }

    /** `lr0_goto(I, x)`: the object of the goto kernel, the same one whenever the kernel is the same. */
    method Lr0Goto(i: nat, x: Symbol) returns (g: CacheEntry)
      requires Valid() && i < |objects|
      modifies this`addCount, this`lr0Added, this`objects, this`kernels, this`trie, this`roots, this`labels, this`gotoCache
      ensures Valid() && old(objects) <= objects && old(kernels) <= kernels && i < |objects| <= |old(objects)| + 1
      ensures Advance(cfg, objects[i], x) == [] ==> !g.Obj? && objects == old(objects) && kernels == old(kernels)
      ensures Advance(cfg, objects[i], x) != [] ==>
                g.Obj? && 0 < g.id < |objects| == |kernels| && kernels[g.id] == Advance(cfg, objects[i], x)
      ensures Advance(cfg, objects[i], x) in old(kernels) ==> objects == old(objects) && kernels == old(kernels)
    {
      if (i, x) in gotoCache && gotoCache[(i, x)].Obj? {
        g := gotoCache[(i, x)];
        assert CacheEntryOk(cfg, objects, kernels, (i, x), g.id);
        return;
      }
      var s, gs := WalkKernel(i, x);
      g := LeafOf(s, gs);
      gotoCache := gotoCache[(i, x) := g];
    }

    /** The list object stored in a dictionary, filled in when it is missing. */
    method LeafOf(s: nat, gs: seq<Item>) returns (g: CacheEntry)
      requires Valid() && s < |trie| == |labels| && labels[s].path == gs
      modifies this`addCount, this`lr0Added, this`objects, this`kernels, this`trie
      ensures Valid() && old(objects) <= objects && old(kernels) <= kernels && |objects| <= |old(objects)| + 1
      ensures gs == [] ==> !g.Obj? && objects == old(objects) && kernels == old(kernels)
      ensures gs != [] ==> g.Obj? && 0 < g.id < |objects| == |kernels| && kernels[g.id] == gs
      ensures gs in old(kernels) ==> objects == old(objects) && kernels == old(kernels)
    {
      assert NodeOk(cfg, trie, roots, labels, kernels, s);
      g := trie[s].end;
      if !g.Obj? {
        if gs != [] {
          g := NewObject(s, gs);
        } else {
          AddEmpty(cfg, trie, roots, labels, kernels, s);
          trie := trie[s := trie[s].(end := EmptyList)];
        }
      }
    }

    /** A new list object for a kernel, stored in its dictionary. */
    method NewObject(s: nat, gs: seq<Item>) returns (g: CacheEntry)
      requires Valid() && s < |trie| == |labels| && labels[s].path == gs && gs != [] && !trie[s].end.Obj?
      modifies this`addCount, this`lr0Added, this`objects, this`kernels, this`trie
      ensures Valid() && g == Obj(|old(objects)|)
      ensures gs !in old(kernels) && kernels == old(kernels) + [gs]
      ensures |objects| == |kernels| && objects[..|old(objects)|] == old(objects)
    {
      assert NodeOk(cfg, trie, roots, labels, kernels, s);
      assert PathOf(cfg, labels[s]);
      var J := Lr0Closure(gs);
      if gs in kernels {
        var id :| 0 <= id < |kernels| && kernels[id] == gs;
        UniqueObject(cfg, trie, roots, labels, kernels, s, id);
      }
      AddLeaf(cfg, trie, roots, labels, kernels, s);
      g := Obj(|objects|);
      objects := objects + [J];
      kernels := kernels + [gs];
      trie := trie[s := trie[s].(end := g)];
    }

    // ----- The collection -----

    /** The state of the generator when its list of item sets `C` is finished. */
    ghost predicate Collected(C: seq<nat>)
      reads this`addCount, this`lr0Added, this`objects, this`kernels, this`trie, this`roots, this`labels, this`gotoCache
      reads this`cidhash, this`delta
    {
      && Valid() && Numbered(C, cidhash, |objects|)
      && Collection(cfg, objects, kernels, delta)
    }

    /** `lr0_items()`: the list of item sets grows while it is being processed. */
    method Lr0Items() returns (C: seq<nat>)
      requires cfg.WellFormed()
      requires addCount == 0 && lr0Added == map[] && objects == [] && trie == [] && roots == map[]
      requires gotoCache == map[] && cidhash == map[] && labels == [] && kernels == [] && delta == map[]
      modifies this`addCount, this`lr0Added, this`objects, this`kernels, this`trie, this`roots, this`labels, this`gotoCache
      modifies this`cidhash, this`delta
      ensures Collected(C)
    {
      hide *;
      C := FirstState();
      var i := 0;
      while i < |C|
        invariant Valid() && Exploring(cfg, objects, kernels, C, cidhash, delta, i, AllUsed(cfg, objects, i))
        decreases Arrangements(AllItems(cfg)) - Elems(kernels), |C| - i
      {
        ghost var kernels0 := kernels;
        ExploringFacts(cfg, objects, kernels, C, cidhash, delta, i, AllUsed(cfg, objects, i));
        C := ExpandState(C, i);
        i := i + 1;
        Progress(kernels0, C, i);
      }
      Finished(C, i);
    }

    lemma Progress(kernels0: seq<seq<Item>>, C: seq<nat>, i: nat)
      requires Valid() && Exploring(cfg, objects, kernels, C, cidhash, delta, i, AllUsed(cfg, objects, i))
      requires kernels0 <= kernels
      ensures Elems(kernels0) <= Elems(kernels) <= Arrangements(AllItems(cfg))
      ensures |kernels0| < |kernels| ==> Elems(kernels0) != Elems(kernels)
    {
      hide Exploring;
      KernelsBounded(cfg, objects, kernels, C, cidhash, delta, i, AllUsed(cfg, objects, i));
      ValidStore();
      KernelsGrew(kernels0, kernels);
    }

    lemma Finished(C: seq<nat>, i: nat)
      requires Valid() && Exploring(cfg, objects, kernels, C, cidhash, delta, i, AllUsed(cfg, objects, i)) && i >= |C|
      ensures Collected(C)
    {
      hide Exploring, Valid;
      ValidStore();
      ExploringFacts(cfg, objects, kernels, C, cidhash, delta, i, AllUsed(cfg, objects, i));
      ExplorationDone(cfg, objects, kernels, C, cidhash, delta, i, AllUsed(cfg, objects, i));
    }

    /** The collection starts with the closure of the initial item of production 0. */
    method FirstState() returns (C: seq<nat>)
      requires cfg.WellFormed()
      requires addCount == 0 && lr0Added == map[] && objects == [] && trie == [] && roots == map[]
      requires gotoCache == map[] && cidhash == map[] && labels == [] && kernels == [] && delta == map[]
      modifies this`addCount, this`lr0Added, this`objects, this`kernels, this`trie, this`roots, this`labels, this`gotoCache
      modifies this`cidhash, this`delta
      ensures Valid() && Exploring(cfg, objects, kernels, C, cidhash, delta, 0, AllUsed(cfg, objects, 0))
    {
      var I := Lr0Closure([Item(0, 0)]);
      objects := [I];
      kernels := [[Item(0, 0)]];
      C := [0];
      cidhash := map[0 := 0];
      assert TrieOk(cfg, trie, roots, labels, kernels);
      ExplorationStart(cfg, objects, kernels, C, cidhash, delta);
    }

    /** One round of the outer loop: follow every symbol used in the items of state `i`. */
    method ExpandState(C0: seq<nat>, i: nat) returns (C: seq<nat>)
      requires i < |C0| && Valid() && Exploring(cfg, objects, kernels, C0, cidhash, delta, i, AllUsed(cfg, objects, i))
      modifies this`addCount, this`lr0Added, this`objects, this`kernels, this`trie, this`roots, this`labels, this`gotoCache
      modifies this`cidhash, this`delta
      ensures Valid() && Exploring(cfg, objects, kernels, C, cidhash, delta, i + 1, AllUsed(cfg, objects, i + 1))
      ensures old(kernels) <= kernels && |C0| <= |C| == |objects| == |kernels|
      ensures |C| == |C0| ==> kernels == old(kernels)
    {
      hide Valid, Exploring;
      ExploringFacts(cfg, objects, kernels, C0, cidhash, delta, i, AllUsed(cfg, objects, i));
      C := C0;
      var asyms := UsedSymbols(cfg, objects[C[i]]);
      while asyms != {}
        invariant Valid() && i < |C| && Exploring(cfg, objects, kernels, C, cidhash, delta, i, asyms)
        invariant old(kernels) <= kernels && |C0| <= |C| == |objects| == |kernels|
        invariant |C| == |C0| ==> kernels == old(kernels)
        decreases asyms
      {
        var x :| x in asyms;
        assert asyms - {x} + {x} == asyms;
        asyms := asyms - {x};
        C := FollowSymbol(C, i, x, asyms);
      }
      NextState(cfg, objects, kernels, C, cidhash, delta, i);
    }

    /** One goto set, appended to the collection if it is new. */
    method FollowSymbol(C0: seq<nat>, i: nat, x: Symbol, ghost todo: set<Symbol>) returns (C: seq<nat>)
      requires i < |C0| && Valid() && Exploring(cfg, objects, kernels, C0, cidhash, delta, i, todo + {x}) && x !in todo
      modifies this`addCount, this`lr0Added, this`objects, this`kernels, this`trie, this`roots, this`labels, this`gotoCache
      modifies this`cidhash, this`delta
      ensures Valid() && i < |C| && Exploring(cfg, objects, kernels, C, cidhash, delta, i, todo)
      ensures old(kernels) <= kernels && |C0| <= |C| == |objects| == |kernels|
      ensures |C| == |C0| ==> kernels == old(kernels)
    {
      hide Valid, Exploring;
      ExploringFacts(cfg, objects, kernels, C0, cidhash, delta, i, todo + {x});
      C := C0;
      ghost var objects0, kernels0 := objects, kernels;
      var g := Lr0Goto(C[i], x);
      if !g.Obj? {
        ExploreNothing(cfg, objects, kernels, C, cidhash, delta, i, x, todo);
        return;
      }
      ValidStore();
      if g.id in cidhash {
        assert kernels0[g.id] == kernels[g.id];
        ExploreKnown(cfg, objects, kernels, C, cidhash, delta, i, x, todo, g.id);
      } else {
        assert g.id == |C| == |kernels0|;
        ExploreAppend(cfg, objects0, kernels0, objects, kernels, C, cidhash, delta, i, x, todo + {x});
        cidhash := cidhash[g.id := |C|];
        C := C + [g.id];
        ExploreNew(cfg, objects, kernels, C, cidhash, delta, i, x, todo);
      }
      delta := delta[(i, x) := g.id];
    }

    lemma ValidStore()
      requires Valid()
      ensures |objects| == |kernels| && forall q :: 0 <= q < |objects| ==> IsClosure(cfg, kernels[q], objects[q])
      ensures forall q, r :: 0 <= q < r < |kernels| ==> kernels[q] != kernels[r]
    {
    }

    /** The number of the goto state, -1 when there is none. */
    method GotoState(C: seq<nat>, st: nat, x: Symbol) returns (j: int)
      requires Collected(C) && st < |C|
      modifies this`addCount, this`lr0Added, this`objects, this`kernels, this`trie, this`roots, this`labels, this`gotoCache
      ensures Collected(C) && objects == old(objects) && kernels == old(kernels)
      ensures j == if (st, x) in delta then delta[(st, x)] else -1
    {
      CollectedFacts(C);
      ghost var objects0, kernels0 := objects, kernels;
      hide *;
      var g := Lr0Goto(C[st], x);
      KnownGoto(C, objects0, kernels0, st, x, g);
      j := if g.Obj? && g.id in cidhash then cidhash[g.id] else -1;
    }

    lemma CollectedFacts(C: seq<nat>)
      requires Collected(C)
      ensures Valid() && cfg.WellFormed() && |C| == |objects| == |kernels| && Collection(cfg, objects, kernels, delta)
      ensures forall k :: 0 <= k < |C| ==> C[k] == k
    {
    }

    /** In a finished collection every goto is known already. */
    lemma KnownGoto(C: seq<nat>, objects0: seq<seq<Item>>, kernels0: seq<seq<Item>>, st: nat, x: Symbol, g: CacheEntry)
      requires Valid() && Numbered(C, cidhash, |objects0|) && Collection(cfg, objects0, kernels0, delta) && st < |objects0|
      requires objects0 <= objects && kernels0 <= kernels
      requires Advance(cfg, objects[st], x) == [] ==> !g.Obj? && objects == objects0 && kernels == kernels0
      requires Advance(cfg, objects[st], x) != [] ==>
                 g.Obj? && 0 < g.id < |objects| == |kernels| && kernels[g.id] == Advance(cfg, objects[st], x)
      requires Advance(cfg, objects[st], x) in kernels0 ==> objects == objects0 && kernels == kernels0
      ensures Collected(C) && objects == objects0 && kernels == kernels0
      ensures (st, x) in delta ==> g.Obj? && g.id in cidhash && cidhash[g.id] == delta[(st, x)]
      ensures (st, x) !in delta ==> !g.Obj?
    {
      assert objects[st] == objects0[st];
      if (st, x) in delta {
        var r := delta[(st, x)];
        assert kernels0[r] == Advance(cfg, objects[st], x);
        ValidStore();
      }
    }

    // ----- The relations of DeRemer and Pennello -----

    /** `compute_nullable_nonterminals()`: passes over the productions until the count stays the same. */
    method ComputeNullableNonterminals() returns (nullable: set<Symbol>)
      requires cfg.WellFormed()
      ensures NullableExact(cfg, nullable)
    {
      nullable := {};
      var numNullable := 0;
      while true
        invariant NullableSound(cfg, nullable) && numNullable == |nullable|
        decreases |cfg.nonterminals| - numNullable
      {
        nullable := NullablePass(cfg, nullable);
        if |nullable| == numNullable {
          break;
        }
        numNullable := |nullable|;
      }
    }

    /** `find_nonterminal_transitions(C)` */
    method FindNonterminalTransitions(C: seq<nat>) returns (trans: seq<Trans>)
      requires Collected(C)
      ensures TransKeys(cfg, delta, Elems(trans)) && forall i, j :: 0 <= i < j < |trans| ==> trans[i] != trans[j]
    {
      hide *;
      CollectedFacts(C);
      trans := [];
      for state := 0 to |C|
        invariant forall e: Trans :: e in trans <==> e.0 < state && TransitionAt(e)
        invariant forall i, j :: 0 <= i < j < |trans| ==> trans[i] != trans[j]
      {
        StateItemsValid(state);
        trans := TransitionsFrom(cfg, objects[C[state]], state, trans);
        TransitionsOf(state);
      }
      AllTransitions(C, trans);
    }

    ghost predicate TransitionAt(e: Trans)
      reads this`delta
    {
      IsTrans(cfg, delta, e)
    }

    lemma StateItemsValid(state: nat)
      requires Collection(cfg, objects, kernels, delta) && state < |objects|
      ensures ValidItems(cfg, objects[state])
    {
      assert IsClosure(cfg, kernels[state], objects[state]);
    }

    lemma TransitionsOf(state: nat)
      requires Collection(cfg, objects, kernels, delta) && state < |objects|
      ensures forall e: Trans :: e.0 == state ==>
                (TransitionAt(e) <==> e.1 in cfg.nonterminals && HasDotBefore(cfg, objects[state], e.1))
    {
      hide Collection, HasDotBefore;
      forall e: Trans | e.0 == state
        ensures TransitionAt(e) <==> e.1 in cfg.nonterminals && HasDotBefore(cfg, objects[state], e.1)
      {
        EdgeIffDot(cfg, objects, kernels, delta, state, e.1);
      }
    }

    lemma AllTransitions(C: seq<nat>, trans: seq<Trans>)
      requires Collection(cfg, objects, kernels, delta) && |C| == |objects|
      requires forall e: Trans :: e in trans <==> e.0 < |C| && TransitionAt(e)
      ensures TransKeys(cfg, delta, Elems(trans))
    {
      forall e ensures e in Elems(trans) <==> IsTrans(cfg, delta, e) {
        if IsTrans(cfg, delta, e) {
          StateBound(cfg, objects, kernels, delta, e.0, e.1);
        }
      }
    }

    /** Where a transition starts and leads, and what the lists there say about the next transitions. */
    lemma TransitionFacts(C: seq<nat>, e: Trans)
      requires Collected(C) && IsTrans(cfg, delta, e)
      ensures e in delta && e.0 < |C| == |objects| && 0 < delta[e] < |C| && C[e.0] == e.0 && ValidItems(cfg, objects[delta[e]])
      ensures forall x :: (delta[e], x) in delta <==> HasDotBefore(cfg, objects[delta[e]], x)
      ensures cfg.WellFormed()
    {
      hide Collection, HasDotBefore, Valid;
      CollectedFacts(C);
      StateBound(cfg, objects, kernels, delta, e.0, e.1);
      StateItemsValid(delta[e]);
      forall x ensures (delta[e], x) in delta <==> HasDotBefore(cfg, objects[delta[e]], x) {
        EdgeIffDot(cfg, objects, kernels, delta, delta[e], x);
      }
    }

    /** `dr_relation(C, trans, nullable)`: the terminals after the transition, and `$end` after the
        start symbol. */
    method DrRelation(C: seq<nat>, e: Trans) returns (terms: seq<Symbol>)
      requires Collected(C) && IsTrans(cfg, delta, e)
      modifies this`addCount, this`lr0Added, this`objects, this`kernels, this`trie, this`roots, this`labels, this`gotoCache
      ensures Collected(C) && objects == old(objects) && kernels == old(kernels)
      ensures forall a :: a in terms <==> DirectlyRead(cfg, delta, e, a)
    {
      hide *;
      TransitionFacts(C, e);
      StartBounds(cfg);
      var j := GotoState(C, e.0, e.1);
      terms := TerminalsAfterDots(cfg, objects[j]);
      ghost var shifted := terms;
      if e.0 == 0 && e.1 == cfg.productions[0].rhs[0] {
        terms := terms + [End];
      }
      ReadFacts(cfg, delta, e, shifted, terms);
    }

    /** `reads_relation(C, trans, empty)` */
    method ReadsRelation(C: seq<nat>, e: Trans, empty: set<Symbol>) returns (rel: seq<Trans>)
      requires Collected(C) && IsTrans(cfg, delta, e)
      modifies this`addCount, this`lr0Added, this`objects, this`kernels, this`trie, this`roots, this`labels, this`gotoCache
      ensures Collected(C) && objects == old(objects) && kernels == old(kernels)
      ensures forall r: Trans :: r in rel <==> r.0 == delta[e] && r.1 in empty && r in delta
    {
      hide *;
      TransitionFacts(C, e);
      var j := GotoState(C, e.0, e.1);
      rel := NullableAfterDots(cfg, objects[j], j, empty);
    }

    /** Run the state machine forward from `state` along the item, collecting the transitions on the
        way behind which the rest of the item is nullable. */
    method FollowItem(C: seq<nat>, state: nat, it: Item, dtrans: set<Trans>, nullable: set<Symbol>, includes0: seq<Trans>)
      returns (j: nat, includes: seq<Trans>)
      requires Collected(C) && state < |C| == |objects| && it in objects[state] && ValidItem(cfg, it)
      requires TransKeys(cfg, delta, dtrans) && nullable <= cfg.nonterminals
      modifies this`addCount, this`lr0Added, this`objects, this`kernels, this`trie, this`roots, this`labels, this`gotoCache
      ensures Collected(C) && objects == old(objects) && kernels == old(kernels)
      ensures Walk(delta, state, cfg.Rhs(it.num)[it.dot..]) == Some(j) && j < |C|
      ensures forall e: Trans :: e in includes <==> e in includes0 || IncludesUpTo(cfg, delta, nullable, state, it, |cfg.Rhs(it.num)|, e)
    {
      hide *;
      ItemBounds(cfg, it);
      CollectedFacts(C);
      var rhs := cfg.Rhs(it.num);
      var lrIndex := it.dot;
      j, includes := state, includes0;
      FollowStart(cfg, delta, nullable, state, it);
      while lrIndex < |rhs|
        invariant it.dot <= lrIndex <= |rhs| && Collected(C) && objects == old(objects) && kernels == old(kernels)
        invariant Walk(delta, state, rhs[it.dot..lrIndex]) == Some(j) && j < |C|
        invariant forall e: Trans :: e in includes <==> e in includes0 || IncludesUpTo(cfg, delta, nullable, state, it, lrIndex, e)
        modifies this`addCount, this`lr0Added, this`objects, this`kernels, this`trie, this`roots, this`labels, this`gotoCache
      {
        CollectedFacts(C);
        var t := rhs[lrIndex];
        ghost var before := includes;
        if (j, t) in dtrans {
          var yes := RestIsNullable(cfg, nullable, rhs, lrIndex + 1);
          if yes {
            includes := includes + [(j, t)];
          }
        }
        FollowStep(cfg, delta, dtrans, nullable, state, it, lrIndex, j, includes0, before, includes);
        WalkNext(cfg, objects, kernels, delta, state, it, lrIndex, j);
        var next := GotoState(C, j, t);
        j, lrIndex := next, lrIndex + 1;
      }
      assert rhs[it.dot..lrIndex] == rhs[it.dot..];
    }

    /** The body of the loop of `compute_lookback_includes` for one transition. */
    method LookbackIncludesOf(C: seq<nat>, t: Trans, dtrans: set<Trans>, nullable: set<Symbol>)
      returns (lookb: seq<(nat, Item)>, includes: seq<Trans>)
      requires Collected(C) && IsTrans(cfg, delta, t) && TransKeys(cfg, delta, dtrans) && nullable <= cfg.nonterminals
      modifies this`addCount, this`lr0Added, this`objects, this`kernels, this`trie, this`roots, this`labels, this`gotoCache
      ensures Collected(C) && objects == old(objects) && kernels == old(kernels)
      ensures forall x: (nat, Item) :: x in lookb <==> LooksBack(cfg, objects, delta, t, x.0, x.1)
      ensures forall e: Trans :: e in includes <==> IncludesFrom(cfg, objects, delta, nullable, t, e)
    {
      hide *;
      TransitionFacts(C, t);
      CollectedFacts(C);
      StateItemsValid(t.0);
      lookb, includes := [], [];
      var I := objects[C[t.0]];
      NoItems(cfg, objects, delta, nullable, t);
      for m := 0 to |I|
        invariant Collected(C) && objects == old(objects) && kernels == old(kernels)
        invariant forall x: (nat, Item) :: x in lookb <==> LooksAmong(cfg, objects, delta, objects[t.0][..m], t, x.0, x.1)
        invariant forall e: Trans :: e in includes <==> IncludesAmong(cfg, delta, nullable, objects[t.0][..m], t, e)
        modifies this`addCount, this`lr0Added, this`objects, this`kernels, this`trie, this`roots, this`labels, this`gotoCache
      {
        lookb, includes := VisitItem(C, t, m, dtrans, nullable, lookb, includes);
      }
      AllItemsSeen(cfg, objects, delta, nullable, t, lookb, includes);
    }

    /** The item at index `m` of the state that the transition starts in. */
    method VisitItem(C: seq<nat>, t: Trans, m: nat, dtrans: set<Trans>, nullable: set<Symbol>, lookb0: seq<(nat, Item)>, includes0: seq<Trans>)
      returns (lookb: seq<(nat, Item)>, includes: seq<Trans>)
      requires Collected(C) && t.0 < |objects| && m < |objects[t.0]| && TransKeys(cfg, delta, dtrans) && nullable <= cfg.nonterminals
      requires forall x: (nat, Item) :: x in lookb0 <==> LooksAmong(cfg, objects, delta, objects[t.0][..m], t, x.0, x.1)
      requires forall e: Trans :: e in includes0 <==> IncludesAmong(cfg, delta, nullable, objects[t.0][..m], t, e)
      modifies this`addCount, this`lr0Added, this`objects, this`kernels, this`trie, this`roots, this`labels, this`gotoCache
      ensures Collected(C) && objects == old(objects) && kernels == old(kernels)
      ensures forall x: (nat, Item) :: x in lookb <==> LooksAmong(cfg, objects, delta, objects[t.0][..m + 1], t, x.0, x.1)
      ensures forall e: Trans :: e in includes <==> IncludesAmong(cfg, delta, nullable, objects[t.0][..m + 1], t, e)
    {
      hide *;
      CollectedFacts(C);
      var p := objects[t.0][m];
      StateItems(cfg, objects, kernels, delta, t.0, p);
      ItemBounds(cfg, p);
      if cfg.productions[p.num].name != t.1 {
        lookb, includes := lookb0, includes0;
        OtherItem(cfg, objects, delta, nullable, m, t, lookb, includes);
      } else {
        var j: nat;
        j, includes := FollowItem(C, t.0, p, dtrans, nullable, includes0);
        IncludesItem(cfg, delta, nullable, objects[t.0], m, t, includes0, includes);
        CollectedFacts(C);
        StateItemsValid(j);
        lookb := MatchingItems(cfg, objects[C[j]], p, j, lookb0);
        LooksItem(cfg, objects, delta, m, t, j, lookb0, lookb);
      }
    }

    /** `compute_lookback_includes(C, trans, nullable)` */
    method ComputeLookbackIncludes(C: seq<nat>, trans: seq<Trans>, nullable: set<Symbol>)
      returns (lookdict: map<Trans, seq<(nat, Item)>>, includedict: map<Trans, seq<Trans>>)
      requires Collected(C) && TransKeys(cfg, delta, Elems(trans)) && nullable <= cfg.nonterminals
      modifies this`addCount, this`lr0Added, this`objects, this`kernels, this`trie, this`roots, this`labels, this`gotoCache
      ensures Collected(C) && objects == old(objects) && kernels == old(kernels)
      ensures lookdict.Keys == Elems(trans) && LookdictOk(cfg, objects, delta, lookdict)
      ensures IncludedictOk(cfg, objects, delta, nullable, Elems(trans), includedict)
    {
      hide *;
      lookdict, includedict := map[], map[];
      var dtrans := Elems(trans);
      NoTransitions(cfg, objects, delta, nullable, trans);
      for i := 0 to |trans|
        invariant Collected(C) && objects == old(objects) && kernels == old(kernels)
        invariant lookdict.Keys == Elems(trans[..i]) && LookdictOk(cfg, objects, delta, lookdict)
        invariant IncludedictOk(cfg, objects, delta, nullable, Elems(trans[..i]), includedict)
        modifies this`addCount, this`lr0Added, this`objects, this`kernels, this`trie, this`roots, this`labels, this`gotoCache
      {
        KeyIsTrans(cfg, delta, trans, i);
        var lookb, includes := LookbackIncludesOf(C, trans[i], dtrans, nullable);
        ghost var before := includedict;
        includedict := AddIncludes(includedict, includes, trans[i]);
        IncludedMore(cfg, objects, delta, nullable, trans, i, before, includes, includedict);
        LookdictMore(cfg, objects, delta, lookdict, trans[i], lookb);
        lookdict := lookdict[trans[i] := lookb];
        PrefixElems(trans, i);
      }
      assert trans[..|trans|] == trans;
    }

    // ----- Lookaheads -----

    /** `compute_read_sets(C, ntrans, nullable)`. The solver evaluates both relations once for each
        transition; here they are tabulated first. Each initial list is a fresh one. */
    method ComputeReadSets(C: seq<nat>, ntrans: seq<Trans>, nullable: set<Symbol>)
      returns (F: map<Trans, nat>, lists: seq<seq<Symbol>>, ghost R: map<Trans, seq<Trans>>, ghost dr: map<Trans, set<Symbol>>)
      requires Collected(C) && TransKeys(cfg, delta, Elems(ntrans)) && nullable <= cfg.nonterminals && |ntrans| < MAXINT
      modifies this`addCount, this`lr0Added, this`objects, this`kernels, this`trie, this`roots, this`labels, this`gotoCache
      ensures Collected(C) && objects == old(objects) && kernels == old(kernels)
      ensures F.Keys == Elems(ntrans) && forall e :: e in F ==> F[e] < |lists|
      ensures ReadSets(cfg, delta, nullable, R, dr, SetsOf(F, lists)) && SharedWithin(R, F)
    {
      hide *;
      var rel: map<Trans, seq<Trans>>, FP: map<Trans, nat>, lists0: seq<seq<Symbol>> := map[], map[], [];
      ReadsStart(cfg, delta, nullable);
      assert Elems(ntrans[..0]) == {} by {
        NoTransitions(cfg, objects, delta, nullable, ntrans);
      }
      for i := 0 to |ntrans|
        invariant Collected(C) && objects == old(objects) && kernels == old(kernels)
        invariant ReadsBuilt(cfg, delta, nullable, Elems(ntrans[..i]), rel, FP, lists0)
        modifies this`addCount, this`lr0Added, this`objects, this`kernels, this`trie, this`roots, this`labels, this`gotoCache
      {
        rel, FP, lists0 := TabulateReads(C, ntrans, i, nullable, rel, FP, lists0);
      }
      assert ntrans[..|ntrans|] == ntrans;
      ReadsClosed(cfg, delta, nullable, ntrans, rel, FP, lists0);
      F, lists := SolveDigraph(ntrans, rel, FP, lists0);
      ReadSetsSolved(cfg, delta, nullable, ntrans, rel, FP, lists0, F, lists);
      R, dr := rel, SetsOf(FP, lists0);
    }

    method TabulateReads(C: seq<nat>, ntrans: seq<Trans>, i: nat, nullable: set<Symbol>, R0: map<Trans, seq<Trans>>,
                         FP0: map<Trans, nat>, lists0: seq<seq<Symbol>>)
      returns (R: map<Trans, seq<Trans>>, FP: map<Trans, nat>, lists: seq<seq<Symbol>>)
      requires Collected(C) && TransKeys(cfg, delta, Elems(ntrans)) && i < |ntrans|
      requires ReadsBuilt(cfg, delta, nullable, Elems(ntrans[..i]), R0, FP0, lists0)
      modifies this`addCount, this`lr0Added, this`objects, this`kernels, this`trie, this`roots, this`labels, this`gotoCache
      ensures Collected(C) && objects == old(objects) && kernels == old(kernels)
      ensures ReadsBuilt(cfg, delta, nullable, Elems(ntrans[..i + 1]), R, FP, lists)
    {
      hide *;
      var x := ntrans[i];
      KeyIsTrans(cfg, delta, ntrans, i);
      TransitionFacts(C, x);
      var terms := DrRelation(C, x);
      var rel := ReadsRelation(C, x, nullable);
      ReadsEntry(cfg, delta, nullable, x, rel, terms);
      ReadsMore(cfg, delta, nullable, Elems(ntrans[..i]), R0, FP0, lists0, x, rel, terms);
      PrefixElems(ntrans, i);
      R, FP, lists := R0[x := rel], FP0[x := |lists0|], lists0 + [terms];
    }

    /** `compute_follow_sets(ntrans, readsets, inclsets)`: its initial lists are those of the read sets,
        which transitions on a reads cycle share. */
    method ComputeFollowSets(ntrans: seq<Trans>, readF: map<Trans, nat>, readLists: seq<seq<Symbol>>,
                             inclsets: map<Trans, seq<Trans>>, ghost nullable: set<Symbol>)
      returns (F: map<Trans, nat>, lists: seq<seq<Symbol>>)
      requires TransKeys(cfg, delta, Elems(ntrans)) && |ntrans| < MAXINT
      requires IncludedictOk(cfg, objects, delta, nullable, Elems(ntrans), inclsets)
      requires readF.Keys == Elems(ntrans) && forall e :: e in readF ==> readF[e] < |readLists|
      ensures F.Keys == Elems(ntrans) && forall e :: e in F ==> F[e] < |lists|
      ensures var R := Successors(Elems(ntrans), inclsets);
        FollowSets(cfg, objects, delta, nullable, R, WithSharing(R, readF, ntrans), SetsOf(readF, readLists), SetsOf(F, lists))
    {
      hide *;
      var R := Successors(Elems(ntrans), inclsets);
      SuccessorsOk(cfg, objects, delta, nullable, ntrans, inclsets);
      F, lists := SolveDigraph(ntrans, R, readF, readLists);
      FollowSetsSolved(cfg, objects, delta, nullable, ntrans, inclsets, readF, readLists, F, lists);
    }

    /** `add_lookaheads(lookbacks, followset)`; the dictionary is traversed in an arbitrary order. */
    method AddLookaheads(lookbacks: map<Trans, seq<(nat, Item)>>, F: map<Trans, nat>, lists: seq<seq<Symbol>>)
      requires lookaheads == map[] && lookbacks.Keys <= F.Keys && forall e :: e in F ==> F[e] < |lists|
      modifies this`lookaheads
      ensures Attached(lookbacks, F, lists, lookbacks.Keys, lookaheads) && OnceEach(lookaheads)
    {
      hide *;
      var todo := lookbacks.Keys;
      AttachedNothing(lookbacks, F, lists);
      assert lookbacks.Keys - todo == {};
      while todo != {}
        invariant todo <= lookbacks.Keys
        invariant Attached(lookbacks, F, lists, lookbacks.Keys - todo, lookaheads) && OnceEach(lookaheads)
        decreases todo
      {
        var t :| t in todo;
        assert lookbacks.Keys - (todo - {t}) == lookbacks.Keys - todo + {t};
        todo := todo - {t};
        ghost var la0 := lookaheads;
        lookaheads := AttachList(lookaheads, lookbacks[t], lists[F[t]]);
        AttachedTransition(lookbacks, F, lists, lookbacks.Keys - todo - {t}, t, la0, lookaheads);
      }
      assert lookbacks.Keys - todo == lookbacks.Keys;
    }

    /** `add_lalr_lookaheads(C)`. More transitions than a list can have entries exhaust the memory. */
    method AddLalrLookaheads(C: seq<nat>) returns (ok: bool, ghost fol: FollowMap)
      requires Collected(C) && lookaheads == map[]
      modifies this`addCount, this`lr0Added, this`objects, this`kernels, this`trie, this`roots, this`labels, this`gotoCache
      modifies this`lookaheads
      ensures Collected(C) && objects == old(objects) && kernels == old(kernels)
      ensures ok ==> Adequate(cfg, objects, delta, fol, CompletedLooks(cfg, lookaheads))
      ensures ok ==> LooksDefined(cfg, objects, CompletedLooks(cfg, lookaheads)) && OnlyRead(cfg, delta, CompletedLooks(cfg, lookaheads))
      ensures ok ==> Bounded(cfg, delta, CompletedLooks(cfg, lookaheads))
      ensures ok ==> LooksComputed(cfg, objects, delta, CompletedLooks(cfg, lookaheads))
      ensures ok <==> |Transitions(cfg, delta)| < MAXINT
      ensures ok ==> OnceEach(lookaheads)
    {
      hide *;
      fol := map[];
      CollectedFacts(C);
      var nullable := ComputeNullableNonterminals();
      NullableSymbolsOnly(cfg, nullable);
      var trans := FindNonterminalTransitions(C);
      TransitionCount(cfg, delta, trans);
      if |trans| >= MAXINT {
        return false, fol;
      }
      var readF, readLists, R, dr := ComputeReadSets(C, trans, nullable);
      var lookd, included := ComputeLookbackIncludes(C, trans, nullable);
      var F, lists := ComputeFollowSets(trans, readF, readLists, included, nullable);
      AddLookaheads(lookd, F, lists);
      ghost var rd, inc := SetsOf(readF, readLists), Successors(Elems(trans), included);
      CollectedFacts(C);
      LookdictIsFull(cfg, objects, delta, trans, lookd);
      LalrLookaheads(cfg, objects, kernels, delta, nullable, R, dr, rd, inc, WithSharing(inc, readF, trans), lookd, F, lists, lookaheads);
      SetsDefined(readF, readLists);
      LalrWithinFollow(cfg, objects, kernels, delta, nullable, R, dr, trans, readF, rd, inc, lookd, F, lists, lookaheads);
      LooksAreComputed(cfg, objects, kernels, delta, nullable, R, dr, trans, readF, rd, inc, lookd, F, lists, lookaheads);
      ok, fol := true, RequiredFollows(cfg, inc, rd);
    }

    // ----- The tables -----

    /** One item of the state: a completed one reduces on its lookaheads or accepts, another one shifts
        the terminal after its dot. */
    method VisitAction(C: seq<nat>, st: nat, m: nat, lalr: bool, follow: SetTable, ghost la: LookTable, row0: ActionRow, rowp0: map<Symbol, Item>)
      returns (ok: bool, row: ActionRow, rowp: map<Symbol, Item>)
      requires Collected(C) && st < |objects| && m < |objects[st]|
      requires LaheadsKnown(cfg, lalr, lookaheads, follow, la, st, objects[st][m])
      requires RowAgrees(cfg, delta, la, st, objects[st][..m], row0, rowp0)
      modifies this`addCount, this`lr0Added, this`objects, this`kernels, this`trie, this`roots, this`labels, this`gotoCache
      ensures Collected(C) && objects == old(objects) && kernels == old(kernels)
      ensures ok ==> RowAgrees(cfg, delta, la, st, objects[st][..m + 1], row, rowp)
      ensures !ok ==> exists a :: Settled(cfg, delta, la, st, a, objects[st]).Clash?
    {
      hide *;
      CollectedFacts(C);
      var p := objects[st][m];
      StateItems(cfg, objects, kernels, delta, st, p);
      ItemBounds(cfg, p);
      ItemKind(cfg, p);
      if p.dot == |cfg.Rhs(p.num)| {
        if p.num == 0 {
          ok, row, rowp := true, row0[End := Some(0)], rowp0[End := p];
          AcceptedRow(cfg, delta, la, st, objects[st], m, row0, rowp0);
        } else {
          LaheadsThere(cfg, lalr, lookaheads, follow, la, st, p);
          var laheads := LaheadsAt(cfg, lalr, lookaheads, follow, st, p).value;
          ok, row, rowp := ReduceSlots(cfg, row0, rowp0, laheads, p);
          if ok {
            ReducedRow(cfg, delta, la, st, objects[st], m, row0, rowp0, row, rowp, laheads);
          } else {
            ghost var a :| a in laheads && ReduceOn(cfg, a, Entry(row0, rowp0, a), p.num).Clash?;
            ReduceClash(cfg, delta, la, st, a, objects[st], m, row0, rowp0, laheads);
          }
        }
      } else {
        ok, row, rowp := VisitShift(C, st, m, la, row0, rowp0);
      }
    }

    method VisitShift(C: seq<nat>, st: nat, m: nat, ghost la: LookTable, row0: ActionRow, rowp0: map<Symbol, Item>)
      returns (ok: bool, row: ActionRow, rowp: map<Symbol, Item>)
      requires Collected(C) && st < |objects| && m < |objects[st]|
      requires objects[st][m].num < |cfg.productions| && objects[st][m].dot < |cfg.Rhs(objects[st][m].num)|
      requires RowAgrees(cfg, delta, la, st, objects[st][..m], row0, rowp0)
      modifies this`addCount, this`lr0Added, this`objects, this`kernels, this`trie, this`roots, this`labels, this`gotoCache
      ensures Collected(C) && objects == old(objects) && kernels == old(kernels)
      ensures ok ==> RowAgrees(cfg, delta, la, st, objects[st][..m + 1], row, rowp)
      ensures !ok ==> exists a :: Settled(cfg, delta, la, st, a, objects[st]).Clash?
    {
      hide *;
      CollectedFacts(C);
      var p := objects[st][m];
      var a := cfg.Rhs(p.num)[p.dot];
      DotThere(cfg, p, a);
      MoveItem(cfg, objects, kernels, delta, st, p, a);
      if a in cfg.terminals {
        var j := GotoState(C, st, a);
        if j >= 0 {
          ok, row, rowp := ShiftSlot(cfg, row0, rowp0, a, p, j);
          if ok {
            ShiftedRow(cfg, delta, la, st, objects[st], m, row0, rowp0, row, rowp, a);
          } else {
            ShiftClash(cfg, delta, la, st, a, objects[st], m, row0, rowp0);
          }
        }
      } else {
        ok, row, rowp := true, row0, rowp0;
        PassedRow(cfg, delta, la, st, objects[st], m, row, rowp, a);
      }
    }

    /** The loop over the items of state `st`. */
    method FillRow(C: seq<nat>, st: nat, lalr: bool, follow: SetTable, ghost la: LookTable) returns (ok: bool, row: ActionRow)
      requires Collected(C) && st < |objects|
      requires AllLaheadsKnown(cfg, lalr, lookaheads, follow, la, st, objects[st])
      modifies this`addCount, this`lr0Added, this`objects, this`kernels, this`trie, this`roots, this`labels, this`gotoCache
      ensures Collected(C) && objects == old(objects) && kernels == old(kernels)
      ensures ok ==> RowSettled(cfg, delta, la, st, objects[st], row)
      ensures ok <==> !AcceptClash(cfg, objects, la, st)
    {
      hide *;
      CollectedFacts(C);
      ClashIffAcceptClash(cfg, objects, kernels, delta, la, st);
      ok, row := true, map[];
      var rowp: map<Symbol, Item> := map[];
      BlankRow(cfg, delta, la, st, objects[st]);
      var n := |objects[st]|;
      for m := 0 to n
        invariant Collected(C) && objects == old(objects) && kernels == old(kernels)
        invariant ok && RowAgrees(cfg, delta, la, st, objects[st][..m], row, rowp)
        modifies this`addCount, this`lr0Added, this`objects, this`kernels, this`trie, this`roots, this`labels, this`gotoCache
      {
        OneLaheads(cfg, lalr, lookaheads, follow, la, st, objects[st], m);
        ok, row, rowp := VisitAction(C, st, m, lalr, follow, la, row, rowp);
        if !ok {
          return;
        }
      }
      FinishedRow(cfg, delta, la, st, objects[st], row, rowp);
      SettledNoClash(cfg, delta, la, st, objects[st], row);
    }

    /** The goto entries of state `st`, in an arbitrary order. */
    method FillGoto(C: seq<nat>, st: nat) returns (row: map<Symbol, nat>)
      requires Collected(C) && st < |objects|
      modifies this`addCount, this`lr0Added, this`objects, this`kernels, this`trie, this`roots, this`labels, this`gotoCache
      ensures Collected(C) && objects == old(objects) && kernels == old(kernels)
      ensures GotoRowOk(cfg, delta, st, row)
    {
      hide *;
      CollectedFacts(C);
      StateItemsValid(st);
      row := map[];
      var all := UsedSymbols(cfg, objects[st]);
      var nkeys := all;
      GotoNone(cfg, delta, st, all);
      while nkeys != {}
        invariant Collected(C) && objects == old(objects) && kernels == old(kernels)
        invariant nkeys <= all && GotoAgrees(cfg, delta, st, all - nkeys, row)
        modifies this`addCount, this`lr0Added, this`objects, this`kernels, this`trie, this`roots, this`labels, this`gotoCache
        decreases nkeys
      {
        CollectedFacts(C);
        var n :| n in nkeys;
        GotoMore(cfg, delta, st, all, nkeys, n, row);
        nkeys := nkeys - {n};
        if n in cfg.nonterminals {
          var j := GotoState(C, st, n);
          if j >= 0 {
            row := row[n := j];
          }
        }
      }
      CollectedFacts(C);
      assert all - nkeys == all;
      GotoDone(cfg, objects, kernels, delta, st, row);
    }

    /** The loop over all states. */
    method FillRows(C: seq<nat>, lalr: bool, follow: SetTable, ghost la: LookTable) returns (ok: bool, T: Tables, ghost clash: nat)
      requires Collected(C)
      requires forall q :: 0 <= q < |objects| ==> AllLaheadsKnown(cfg, lalr, lookaheads, follow, la, q, objects[q])
      modifies this`addCount, this`lr0Added, this`objects, this`kernels, this`trie, this`roots, this`labels, this`gotoCache
      ensures Collected(C) && objects == old(objects) && kernels == old(kernels)
      ensures ok ==> T.productions == cfg.productions && Rows(T.action, T.goto, |objects|)
      ensures ok ==> forall q :: 0 <= q < |objects| ==> StateFilled(cfg, objects, delta, la, T.action, T.goto, q)
      ensures !ok ==> clash < |objects| && AcceptClash(cfg, objects, la, clash)
    {
      hide *;
      CollectedFacts(C);
      ok, clash := true, 0;
      var action: map<nat, ActionRow>, goto: map<nat, map<Symbol, nat>> := map[], map[];
      var n := |C|;
      NoRows();
      for st := 0 to n
        invariant Collected(C) && objects == old(objects) && kernels == old(kernels)
        invariant ok && Rows(action, goto, st)
        invariant forall q :: 0 <= q < st ==> StateFilled(cfg, objects, delta, la, action, goto, q)
        modifies this`addCount, this`lr0Added, this`objects, this`kernels, this`trie, this`roots, this`labels, this`gotoCache
      {
        var row: ActionRow;
        ok, row := FillRow(C, st, lalr, follow, la);
        if !ok {
          T, clash := Tables(map[], map[], []), st;
          return;
        }
        var gotos := FillGoto(C, st);
        StatesFilled(cfg, objects, delta, la, action, goto, st, row, gotos);
        action, goto := action[st := row], goto[st := gotos];
      }
      T := Tables(action, goto, cfg.productions);
    }

    /** `lr_parse_table()`, for the method LALR or SLR. */
    method LrParseTable(lalr: bool, follow: SetTable) returns (status: TableStatus, T: Tables, ghost la: LookTable, ghost fol: FollowMap)
      requires cfg.WellFormed() && follow.Keys == cfg.nonterminals && forall n :: n in follow ==> NoDuplicates(follow[n])
      requires addCount == 0 && lr0Added == map[] && objects == [] && trie == [] && roots == map[]
      requires gotoCache == map[] && cidhash == map[] && labels == [] && kernels == [] && delta == map[] && lookaheads == map[]
      modifies this
      ensures Collection(cfg, objects, kernels, delta)
      ensures status == TablesReady ==>
                && Filled(cfg, objects, delta, la, T)
                && forall q :: 0 <= q < |objects| ==> RowSettled(cfg, delta, la, q, objects[q], T.action[q])
      ensures status == TablesReady ==> forall q :: 0 <= q < |objects| ==> !AcceptClash(cfg, objects, la, q)
      ensures status == LalrError ==> exists q: nat :: q < |objects| && AcceptClash(cfg, objects, la, q)
      ensures status == OutOfMemory <==> lalr && |Transitions(cfg, delta)| >= MAXINT
      ensures lalr && status != OutOfMemory ==> Adequate(cfg, objects, delta, fol, la) && LooksDefined(cfg, objects, la) && OnlyRead(cfg, delta, la)
      ensures lalr && status != OutOfMemory ==> Bounded(cfg, delta, la) && LooksComputed(cfg, objects, delta, la)
      ensures !lalr ==> la == SlrLooks(cfg, objects, follow)
    {
      hide *;
      la, fol, T := map[], map[], Tables(map[], map[], []);
      var C := Lr0Items();
      CollectedFacts(C);
      if lalr {
        var ok;
        ok, fol := AddLalrLookaheads(C);
        CollectedFacts(C);
        if !ok {
          status := OutOfMemory;
          return;
        }
        la := CompletedLooks(cfg, lookaheads);
        LalrLaheads(cfg, objects, lookaheads, follow);
      } else {
        la := SlrLooks(cfg, objects, follow);
        SlrLaheads(cfg, objects, lookaheads, follow);
      }
      var ok: bool;
      ghost var clash: nat;
      ok, T, clash := FillRows(C, lalr, follow, la);
      CollectedFacts(C);
      if ok {
        TablesFilled(cfg, objects, kernels, delta, la, T);
      }
      status := if ok then TablesReady else LalrError;
    }
  }

  datatype TableStatus = TablesReady | LalrError | OutOfMemory

  /** There are rows for the states below `n`. */
  ghost predicate Rows(action: map<nat, ActionRow>, goto: map<nat, map<Symbol, nat>>, n: nat) {
    && (forall q: nat :: q in action <==> q < n)
    && (forall q: nat :: q in goto <==> q < n)
  }

  lemma NoRows()
    ensures Rows(map[], map[], 0)
  {
  }

  /** State `q` has its two rows. */
  ghost predicate StateFilled(g: Cfg, C: seq<seq<Item>>, d: Delta, la: LookTable, action: map<nat, ActionRow>,
                              goto: map<nat, map<Symbol, nat>>, q: nat) {
    && q in action && q in goto && q < |C|
    && RowSettled(g, d, la, q, C[q], action[q]) && !AcceptClash(g, C, la, q) && GotoRowOk(g, d, q, goto[q])
  }

  lemma StatesFilled(g: Cfg, C: seq<seq<Item>>, d: Delta, la: LookTable, action: map<nat, ActionRow>, goto: map<nat, map<Symbol, nat>>, st: nat,
                     row: ActionRow, gotos: map<Symbol, nat>)
    requires Rows(action, goto, st) && st < |C| && RowSettled(g, d, la, st, C[st], row) && GotoRowOk(g, d, st, gotos)
    requires !AcceptClash(g, C, la, st)
    requires forall q :: 0 <= q < st ==> StateFilled(g, C, d, la, action, goto, q)
    ensures var action', goto' := action[st := row], goto[st := gotos];
      Rows(action', goto', st + 1) && forall q :: 0 <= q < st + 1 ==> StateFilled(g, C, d, la, action', goto', q)
  {
    hide RowSettled, GotoRowOk, AcceptClash;
    var action', goto' := action[st := row], goto[st := gotos];
    forall q | 0 <= q < st + 1 ensures StateFilled(g, C, d, la, action', goto', q) {
      assert q < st ==> StateFilled(g, C, d, la, action, goto, q);
    }
  }

  lemma TablesFilled(g: Cfg, C: seq<seq<Item>>, K: seq<seq<Item>>, d: Delta, la: LookTable, T: Tables)
    requires g.WellFormed() && Collection(g, C, K, d) && T.productions == g.productions && Rows(T.action, T.goto, |C|)
    requires forall q :: 0 <= q < |C| ==> StateFilled(g, C, d, la, T.action, T.goto, q)
    ensures Filled(g, C, d, la, T)
    ensures forall q :: 0 <= q < |C| ==> RowSettled(g, d, la, q, C[q], T.action[q])
    ensures forall q :: 0 <= q < |C| ==> !AcceptClash(g, C, la, q)
  {
    hide Collection, RowSettled, RowOk, GotoRowOk, AcceptClash;
    forall q | 0 <= q < |C|
      ensures RowSettled(g, d, la, q, C[q], T.action[q]) && RowOk(g, C, d, la, q, T.action[q]) && GotoRowOk(g, d, q, T.goto[q])
      ensures !AcceptClash(g, C, la, q)
    {
      assert StateFilled(g, C, d, la, T.action, T.goto, q);
      SettledRowOk(g, C, K, d, la, q, T.action[q]);
    }
  }

  lemma LalrLaheads(g: Cfg, C: seq<seq<Item>>, lookaheads: LookDict, follow: SetTable)
    requires LooksDefined(g, C, CompletedLooks(g, lookaheads)) && OnceEach(lookaheads)
    ensures forall q :: 0 <= q < |C| ==> AllLaheadsKnown(g, true, lookaheads, follow, CompletedLooks(g, lookaheads), q, C[q])
  {
    hide CompletedLooks;
    var la := CompletedLooks(g, lookaheads);
    forall q, m | 0 <= q < |C| && 0 <= m < |C[q]| ensures LaheadsKnown(g, true, lookaheads, follow, la, q, C[q][m]) {
      var it := C[q][m];
      if ValidItem(g, it) && Complete(g, it) && it.num > 0 {
        assert it == Item(it.num, |g.Rhs(it.num)|) && it in C[q];
        CompletedLook(g, lookaheads, q, it.num);
      }
    }
  }

  lemma SlrLaheads(g: Cfg, C: seq<seq<Item>>, lookaheads: LookDict, follow: SetTable)
    requires g.WellFormed() && follow.Keys == g.nonterminals && forall n :: n in follow ==> NoDuplicates(follow[n])
    ensures forall q :: 0 <= q < |C| ==> AllLaheadsKnown(g, false, lookaheads, follow, SlrLooks(g, C, follow), q, C[q])
  {
  }

  /** The generator as a whole: FIRST and FOLLOW, then the tables. FOLLOW is computed without naming a
      start symbol. */
  method GenerateTables(grammar: Grammar, lalr: bool)
    returns (status: TableStatus, T: Tables, table: LRGeneratedTable, ghost la: LookTable, ghost fol: FollowMap)
    requires grammar.cfg.WellFormed() && grammar.First == map[] && grammar.Follow == map[]
    modifies grammar
    ensures fresh(table) && table.cfg == grammar.cfg && Collection(table.cfg, table.objects, table.kernels, table.delta)
    ensures FirstExact(grammar.cfg, grammar.First) && FollowExact(grammar.cfg, grammar.cfg.productions[1].name, grammar.Follow)
    ensures status == TablesReady ==>
              && Filled(table.cfg, table.objects, table.delta, la, T)
              && forall q :: 0 <= q < |table.objects| ==> RowSettled(table.cfg, table.delta, la, q, table.objects[q], T.action[q])
    ensures status == TablesReady ==> forall q :: 0 <= q < |table.objects| ==> !AcceptClash(table.cfg, table.objects, la, q)
    ensures status == LalrError ==> exists q: nat :: q < |table.objects| && AcceptClash(table.cfg, table.objects, la, q)
    ensures status == OutOfMemory <==> lalr && |Transitions(table.cfg, table.delta)| >= MAXINT
    ensures lalr && status != OutOfMemory ==> Adequate(table.cfg, table.objects, table.delta, fol, la)
    ensures lalr && status != OutOfMemory ==> LooksDefined(table.cfg, table.objects, la) && OnlyRead(table.cfg, table.delta, la)
    ensures lalr && status != OutOfMemory ==> Bounded(table.cfg, table.delta, la) && LooksComputed(table.cfg, table.objects, table.delta, la)
    ensures SetsClosed(grammar.cfg, grammar.cfg.productions[1].name, grammar.First, grammar.Follow)
    ensures !lalr ==> la == SlrLooks(table.cfg, table.objects, grammar.Follow)
  {
    hide *;
    StartBounds(grammar.cfg);
    FreshGrammar(grammar);
    grammar.ComputeFirst();
    FreshGrammar(grammar);
    grammar.ComputeFollow(None);
    FollowTable(grammar.cfg, grammar.cfg.productions[1].name, grammar.Follow);
    table := new LRGeneratedTable(grammar.cfg);
    status, T, la, fol := table.LrParseTable(lalr, grammar.Follow);
  }

  lemma FreshGrammar(grammar: Grammar)
    requires grammar.Follow == map[]
    ensures grammar.FollowReady() && (grammar.First == map[] ==> grammar.FirstReady())
    ensures FirstSound(grammar.cfg, grammar.First) && FirstClosed(grammar.cfg, grammar.First) ==> grammar.FirstReady()
  {
  }

  lemma FollowTable(g: Cfg, start: Symbol, T: SetTable)
    requires FollowExact(g, start, T)
    ensures T.Keys == g.nonterminals
  {
  }

  /** The lookahead list of a completed item: its own for the state, or FOLLOW of its name. */
  function LaheadsAt(g: Cfg, lalr: bool, lookaheads: LookDict, follow: SetTable, st: nat, it: Item): Option<seq<Symbol>>
    requires it.num < |g.productions|
  {
    if lalr then if (it, st) in lookaheads then Some(lookaheads[(it, st)]) else None
    else if g.productions[it.num].name in follow then Some(follow[g.productions[it.num].name]) else None
  }

  /** The lookahead list of a completed item exists and is what `la` says. */
  ghost predicate LaheadsKnown(g: Cfg, lalr: bool, lookaheads: LookDict, follow: SetTable, la: LookTable, st: nat, it: Item) {
    ValidItem(g, it) && Complete(g, it) && it.num > 0 ==>
      && (st, it.num) in la && LaheadsAt(g, lalr, lookaheads, follow, st, it).Some?
      && var l := LaheadsAt(g, lalr, lookaheads, follow, st, it).value; la[(st, it.num)] == Elems(l) && NoDuplicates(l)
  }

  ghost predicate AllLaheadsKnown(g: Cfg, lalr: bool, lookaheads: LookDict, follow: SetTable, la: LookTable, st: nat, I: seq<Item>) {
    forall m :: 0 <= m < |I| ==> LaheadsKnown(g, lalr, lookaheads, follow, la, st, I[m])
  }

  lemma OneLaheads(g: Cfg, lalr: bool, lookaheads: LookDict, follow: SetTable, la: LookTable, st: nat, I: seq<Item>, m: nat)
    requires m < |I| && AllLaheadsKnown(g, lalr, lookaheads, follow, la, st, I)
    ensures LaheadsKnown(g, lalr, lookaheads, follow, la, st, I[m])
  {
  }

  lemma LaheadsThere(g: Cfg, lalr: bool, lookaheads: LookDict, follow: SetTable, la: LookTable, st: nat, it: Item)
    requires ValidItem(g, it) && Complete(g, it) && it.num > 0 && LaheadsKnown(g, lalr, lookaheads, follow, la, st, it)
    ensures it.num < |g.productions| && (st, it.num) in la && LaheadsAt(g, lalr, lookaheads, follow, st, it).Some?
    ensures var l := LaheadsAt(g, lalr, lookaheads, follow, st, it).value; la[(st, it.num)] == Elems(l) && NoDuplicates(l)
  {
  }

  lemma ItemKind(g: Cfg, it: Item)
    requires ValidItem(g, it)
    ensures it.dot == |g.Rhs(it.num)| <==> Complete(g, it)
  {
  }

  lemma DotThere(g: Cfg, it: Item, a: Symbol)
    requires it.num < |g.productions| && it.dot < |g.Rhs(it.num)| && g.Rhs(it.num)[it.dot] == a
    ensures DotBefore(g, it, a)
  {
  }

  lemma ReduceClash(g: Cfg, d: Delta, la: LookTable, q: nat, a: Symbol, I: seq<Item>, m: nat, row0: ActionRow, rowp0: map<Symbol, Item>,
                    laheads: seq<Symbol>)
    requires m < |I| && RowAgrees(g, d, la, q, I[..m], row0, rowp0) && Complete(g, I[m]) && I[m].num > 0
    requires (q, I[m].num) in la && la[(q, I[m].num)] == Elems(laheads) && a in laheads
    requires ReduceOn(g, a, Entry(row0, rowp0, a), I[m].num).Clash?
    ensures Settled(g, d, la, q, a, I).Clash?
  {
    hide ReduceOn, Settled;
    assert EntryAgrees(g, d, la, q, I[..m], row0, rowp0, a);
    ClashAt(g, d, la, q, a, I, m, Entry(row0, rowp0, a));
  }

  lemma ShiftClash(g: Cfg, d: Delta, la: LookTable, q: nat, a: Symbol, I: seq<Item>, m: nat, row0: ActionRow, rowp0: map<Symbol, Item>)
    requires m < |I| && RowAgrees(g, d, la, q, I[..m], row0, rowp0) && DotBefore(g, I[m], a) && a in g.terminals && (q, a) in d
    requires ShiftOn(g, a, Entry(row0, rowp0, a), I[m].num, d[(q, a)]).Clash?
    ensures Settled(g, d, la, q, a, I).Clash?
  {
    hide ShiftOn, Settled;
    assert EntryAgrees(g, d, la, q, I[..m], row0, rowp0, a);
    ClashAt(g, d, la, q, a, I, m, Entry(row0, rowp0, a));
  }

  lemma SettledNoClash(g: Cfg, d: Delta, la: LookTable, q: nat, I: seq<Item>, row: ActionRow)
    requires RowSettled(g, d, la, q, I, row)
    ensures !exists a :: Settled(g, d, la, q, a, I).Clash?
  {
    forall a ensures !Settled(g, d, la, q, a, I).Clash? {
      assert SlotSettled(g, d, la, q, I, row, a);
    }
  }

  // ----- Exploring the collection -----

  /** Item sets are numbered in the order in which their lists were created. */
  ghost predicate Numbered(C: seq<nat>, cidhash: map<nat, nat>, n: nat) {
    && |C| == n
    && (forall k :: 0 <= k < n ==> C[k] == k)
    && (forall k: nat :: k in cidhash <==> k < n)
    && (forall k :: k in cidhash ==> cidhash[k] == k)
  }

  ghost predicate EdgeOk(g: Cfg, objects: seq<seq<Item>>, kernels: seq<seq<Item>>, d: Delta, i: nat,
                         todo: set<Symbol>, e: (nat, Symbol))
  {
    && e in d && e.0 <= i && (e.0 == i ==> e.1 !in todo) && e.0 < |objects| && 0 < d[e] < |kernels|
    && kernels[d[e]] == Advance(g, objects[e.0], e.1) && kernels[d[e]] != []
  }

  /** States before `i` have all their gotos, state `i` has those of the symbols not in `todo`. */
  ghost predicate Exploring(g: Cfg, objects: seq<seq<Item>>, kernels: seq<seq<Item>>, C: seq<nat>,
                            cidhash: map<nat, nat>, d: Delta, i: nat, todo: set<Symbol>)
  {
    && 0 < |objects| == |kernels| && kernels[0] == [Item(0, 0)] && Numbered(C, cidhash, |objects|) && i <= |objects|
    && (forall q :: 0 <= q < |objects| ==> KernelShape(g, kernels[q]))
    && (forall q :: 0 <= q < |objects| ==> IsClosure(g, kernels[q], objects[q]))
    && (forall e :: e in d ==> EdgeOk(g, objects, kernels, d, i, todo, e))
    && (forall q, x :: 0 <= q < i && Advance(g, objects[q], x) != [] ==> (q, x) in d)
    && (i < |objects| ==> forall x :: x !in todo && Advance(g, objects[i], x) != [] ==> (i, x) in d)
    && (forall r :: 0 < r < |objects| ==> Reached(d, r))
  }

  ghost function AllUsed(g: Cfg, objects: seq<seq<Item>>, i: nat): set<Symbol> {
    if i < |objects| && ValidItems(g, objects[i]) then UsedSymbols(g, objects[i]) else {}
  }

  lemma ExploringFacts(g: Cfg, objects: seq<seq<Item>>, kernels: seq<seq<Item>>, C: seq<nat>,
                       cidhash: map<nat, nat>, d: Delta, i: nat, todo: set<Symbol>)
    requires Exploring(g, objects, kernels, C, cidhash, d, i, todo)
    ensures |objects| == |kernels| && Numbered(C, cidhash, |objects|) && i <= |objects|
    ensures forall q :: 0 <= q < |objects| ==> ValidItems(g, objects[q])
  {
    forall q | 0 <= q < |objects| ensures ValidItems(g, objects[q]) {
      assert IsClosure(g, kernels[q], objects[q]);
    }
  }

  lemma ExplorationStart(g: Cfg, objects: seq<seq<Item>>, kernels: seq<seq<Item>>, C: seq<nat>, cidhash: map<nat, nat>, d: Delta)
    requires g.WellFormed() && |objects| == 1 && kernels == [[Item(0, 0)]] && IsClosure(g, kernels[0], objects[0])
    requires C == [0] && cidhash == map[0 := 0] && d == map[]
    ensures Exploring(g, objects, kernels, C, cidhash, d, 0, AllUsed(g, objects, 0))
  {
    assert ValidItem(g, Item(0, 0));
    UnusedSymbols(g, objects, 0);
  }

  lemma NextState(g: Cfg, objects: seq<seq<Item>>, kernels: seq<seq<Item>>, C: seq<nat>,
                  cidhash: map<nat, nat>, d: Delta, i: nat)
    requires Exploring(g, objects, kernels, C, cidhash, d, i, {}) && i < |objects|
    ensures Exploring(g, objects, kernels, C, cidhash, d, i + 1, AllUsed(g, objects, i + 1))
  {
    var todo := AllUsed(g, objects, i + 1);
    NextEdges(g, objects, kernels, d, i, todo);
    assert forall q :: q == i + 1 < |objects| ==> IsClosure(g, kernels[q], objects[q]);
    UnusedSymbols(g, objects, i + 1);
    NextGotos(g, objects, d, i);
  }

  lemma NextGotos(g: Cfg, objects: seq<seq<Item>>, d: Delta, i: nat)
    requires i < |objects|
    requires forall q, x :: 0 <= q < i && Advance(g, objects[q], x) != [] ==> (q, x) in d
    requires forall x :: Advance(g, objects[i], x) != [] ==> (i, x) in d
    ensures forall q, x :: 0 <= q < i + 1 && Advance(g, objects[q], x) != [] ==> (q, x) in d
  {
  }

  lemma NextEdges(g: Cfg, objects: seq<seq<Item>>, kernels: seq<seq<Item>>, d: Delta, i: nat, todo: set<Symbol>)
    requires forall e :: e in d ==> EdgeOk(g, objects, kernels, d, i, {}, e)
    ensures forall e :: e in d ==> EdgeOk(g, objects, kernels, d, i + 1, todo, e)
  {
    forall e | e in d ensures EdgeOk(g, objects, kernels, d, i + 1, todo, e) {
      assert EdgeOk(g, objects, kernels, d, i, {}, e);
    }
  }

  lemma UnusedSymbols(g: Cfg, objects: seq<seq<Item>>, i: nat)
    requires i < |objects| ==> ValidItems(g, objects[i])
    ensures i < |objects| ==> forall x :: x !in AllUsed(g, objects, i) ==> Advance(g, objects[i], x) == []
  {
    if i < |objects| {
      forall x | x !in AllUsed(g, objects, i) ensures Advance(g, objects[i], x) == [] {
        UnusedGoto(g, objects[i], x);
      }
    }
  }

  lemma ExploreNothing(g: Cfg, objects: seq<seq<Item>>, kernels: seq<seq<Item>>, C: seq<nat>,
                       cidhash: map<nat, nat>, d: Delta, i: nat, x: Symbol, todo: set<Symbol>)
    requires Exploring(g, objects, kernels, C, cidhash, d, i, todo + {x}) && i < |objects|
    requires Advance(g, objects[i], x) == []
    ensures Exploring(g, objects, kernels, C, cidhash, d, i, todo)
  {
    forall e | e in d ensures EdgeOk(g, objects, kernels, d, i, todo, e) {
      assert EdgeOk(g, objects, kernels, d, i, todo + {x}, e);
    }
  }

  /** The goto set is one of the states: record the transition. */
  lemma ExploreKnown(g: Cfg, objects: seq<seq<Item>>, kernels: seq<seq<Item>>, C: seq<nat>, cidhash: map<nat, nat>,
                     d: Delta, i: nat, x: Symbol, todo: set<Symbol>, id: nat)
    requires Exploring(g, objects, kernels, C, cidhash, d, i, todo + {x}) && i < |objects| && x !in todo
    requires 0 < id < |kernels| && kernels[id] == Advance(g, objects[i], x) && kernels[id] != []
    ensures Exploring(g, objects, kernels, C, cidhash, d[(i, x) := id], i, todo)
  {
    var d' := d[(i, x) := id];
    forall e | e in d' ensures EdgeOk(g, objects, kernels, d', i, todo, e) {
      assert e in d ==> EdgeOk(g, objects, kernels, d, i, todo + {x}, e);
    }
    forall r | 0 < r < |objects| ensures Reached(d', r) {
      assert Reached(d, r);
      var e :| e in d && e.0 < r && d[e] == r;
      assert EdgeOk(g, objects, kernels, d, i, todo + {x}, e);
      assert e in d' && d'[e] == r;
    }
  }

  /** Everything in `Exploring` but the claim that the last state has been reached. */
  ghost predicate ExploringLast(g: Cfg, objects: seq<seq<Item>>, kernels: seq<seq<Item>>, C: seq<nat>,
                                cidhash: map<nat, nat>, d: Delta, i: nat, todo: set<Symbol>)
  {
    && 0 < |objects| == |kernels| && kernels[0] == [Item(0, 0)] && Numbered(C, cidhash, |objects|) && i + 1 < |objects|
    && (forall q :: 0 <= q < |objects| ==> KernelShape(g, kernels[q]))
    && (forall q :: 0 <= q < |objects| ==> IsClosure(g, kernels[q], objects[q]))
    && (forall e :: e in d ==> EdgeOk(g, objects, kernels, d, i, todo, e))
    && (forall q, x :: 0 <= q < i && Advance(g, objects[q], x) != [] ==> (q, x) in d)
    && (forall x :: x !in todo && Advance(g, objects[i], x) != [] ==> (i, x) in d)
    && (forall r :: 0 < r < |objects| - 1 ==> Reached(d, r))
  }

  /** The goto set is a new state: append it. */
  lemma ExploreAppend(g: Cfg, objects0: seq<seq<Item>>, kernels0: seq<seq<Item>>, objects: seq<seq<Item>>, kernels: seq<seq<Item>>,
                      C: seq<nat>, cidhash: map<nat, nat>, d: Delta, i: nat, x: Symbol, todo: set<Symbol>)
    requires Exploring(g, objects0, kernels0, C, cidhash, d, i, todo) && i < |objects0|
    requires objects0 <= objects && kernels0 <= kernels && |objects| == |kernels| == |kernels0| + 1
    requires kernels[|C|] == Advance(g, objects[i], x)
    requires IsClosure(g, kernels[|C|], objects[|C|])
    ensures ExploringLast(g, objects, kernels, C + [|C|], cidhash[|C| := |C|], d, i, todo)
  {
    assert forall q :: 0 <= q < |objects0| ==> objects[q] == objects0[q] && kernels[q] == kernels0[q];
    AdvanceShape(g, kernels0[i], objects0[i], x);
    forall e | e in d ensures EdgeOk(g, objects, kernels, d, i, todo, e) {
      assert EdgeOk(g, objects0, kernels0, d, i, todo, e);
    }
  }

  /** Record the transition to the appended state. */
  lemma ExploreNew(g: Cfg, objects: seq<seq<Item>>, kernels: seq<seq<Item>>, C: seq<nat>, cidhash: map<nat, nat>,
                   d: Delta, i: nat, x: Symbol, todo: set<Symbol>)
    requires ExploringLast(g, objects, kernels, C, cidhash, d, i, todo + {x}) && x !in todo
    requires kernels[|objects| - 1] == Advance(g, objects[i], x) && kernels[|objects| - 1] != []
    ensures Exploring(g, objects, kernels, C, cidhash, d[(i, x) := |objects| - 1], i, todo)
  {
    var d' := d[(i, x) := |objects| - 1];
    forall e | e in d' ensures EdgeOk(g, objects, kernels, d', i, todo, e) {
      assert e in d ==> EdgeOk(g, objects, kernels, d, i, todo + {x}, e);
    }
    forall r | 0 < r < |objects| ensures Reached(d', r) {
      if r < |objects| - 1 {
        assert Reached(d, r);
        var e :| e in d && e.0 < r && d[e] == r;
        assert EdgeOk(g, objects, kernels, d, i, todo + {x}, e);
        assert e in d' && d'[e] == r;
      } else {
        assert (i, x) in d' && d'[(i, x)] == r;
      }
    }
  }

  lemma KernelsGrew(before: seq<seq<Item>>, after: seq<seq<Item>>)
    requires before <= after && forall q, r :: 0 <= q < r < |after| ==> after[q] != after[r]
    ensures Elems(before) <= Elems(after) && (|before| < |after| ==> Elems(before) != Elems(after))
  {
    if |before| < |after| {
      assert after[|before|] in Elems(after) && after[|before|] !in before;
    }
  }

  lemma KernelsBounded(g: Cfg, objects: seq<seq<Item>>, kernels: seq<seq<Item>>, C: seq<nat>,
                       cidhash: map<nat, nat>, d: Delta, i: nat, todo: set<Symbol>)
    requires Exploring(g, objects, kernels, C, cidhash, d, i, todo)
    ensures Elems(kernels) <= Arrangements(AllItems(g))
  {
    forall K | K in kernels ensures K in Arrangements(AllItems(g)) {
      var q :| 0 <= q < |kernels| && kernels[q] == K;
      KernelInUniverse(g, kernels[q]);
    }
  }

  lemma ExplorationDone(g: Cfg, objects: seq<seq<Item>>, kernels: seq<seq<Item>>, C: seq<nat>,
                        cidhash: map<nat, nat>, d: Delta, i: nat, todo: set<Symbol>)
    requires Exploring(g, objects, kernels, C, cidhash, d, i, todo) && i == |objects|
    requires forall q, r :: 0 <= q < r < |kernels| ==> kernels[q] != kernels[r]
    ensures Collection(g, objects, kernels, d)
  {
    forall q, x | 0 <= q < |objects| ensures (q, x) in d <==> Advance(g, objects[q], x) != [] {
      if (q, x) in d {
        assert EdgeOk(g, objects, kernels, d, i, todo, (q, x));
      }
    }
    forall e | e in d ensures e.0 < |objects| && 0 < d[e] < |objects| && kernels[d[e]] == Advance(g, objects[e.0], e.1) {
      assert EdgeOk(g, objects, kernels, d, i, todo, e);
    }
  }

  lemma AdvanceSnoc(g: Cfg, I: seq<Item>, k: nat, x: Symbol)
    requires k < |I|
    ensures Advance(g, I[..k + 1], x) == Advance(g, I[..k], x) + if DotBefore(g, I[k], x) then [I[k].Next()] else []
  {
    assert I[..k + 1][..k] == I[..k];
  }

  // ----- The state of a closure in progress -----

  /** No production carries a stamp from the future. */
  ghost predicate StampsOk(stamps: map<nat, nat>, epoch: nat) {
    forall p :: p in stamps ==> stamps[p] <= epoch
  }

  /** A new epoch starts with nothing stamped. */
  lemma ClosingStart(g: Cfg, stamps: map<nat, nat>, epoch: nat, I: seq<Item>)
    requires StampsOk(stamps, epoch) && ValidItems(g, I)
    ensures StampsOk(stamps, epoch + 1) && Closing(g, stamps, epoch + 1, I, I)
  {
  }

  predicate Stamped(stamps: map<nat, nat>, epoch: nat, p: nat) {
    p in stamps && stamps[p] == epoch
  }

  /** Everything after the kernel is a justified initial item of a stamped production, and every
      stamped production has its initial item. */
  ghost predicate Closing(g: Cfg, stamps: map<nat, nat>, epoch: nat, I: seq<Item>, J: seq<Item>) {
    && I <= J && ValidItems(g, J)
    && (forall i :: |I| <= i < |J| ==> Justified(g, J, i) && Stamped(stamps, epoch, J[i].num))
    && (forall i, j :: |I| <= i < j < |J| ==> J[i] != J[j])
    && (forall p: nat :: Stamped(stamps, epoch, p) ==> 1 <= p < |g.productions| && Item(p, 0) in J)
  }

  ghost function Unstamped(g: Cfg, stamps: map<nat, nat>, epoch: nat): set<nat> {
    set p | p in Numbers(|g.productions|) && !Stamped(stamps, epoch, p)
  }

  lemma ClosingItems(g: Cfg, stamps: map<nat, nat>, epoch: nat, I: seq<Item>, J: seq<Item>)
    requires Closing(g, stamps, epoch, I, J)
    ensures forall i :: 0 <= i < |J| ==> ValidItem(g, J[i])
  {
  }

  /** Appending the initial item of a production and stamping it. */
  lemma ClosingAdd(g: Cfg, stamps: map<nat, nat>, epoch: nat, I: seq<Item>, J: seq<Item>, k: nat, p: nat)
    requires Closing(g, stamps, epoch, I, J) && k < |J| && 1 <= p < |g.productions|
    requires DotBefore(g, J[k], g.productions[p].name) && !Stamped(stamps, epoch, p)
    ensures Closing(g, stamps[p := epoch], epoch, I, J + [Item(p, 0)])
    ensures Unstamped(g, stamps[p := epoch], epoch) < Unstamped(g, stamps, epoch)
  {
    hide Justified, Unstamped;
    var J', stamps' := J + [Item(p, 0)], stamps[p := epoch];
    forall i | |I| <= i < |J'| ensures Justified(g, J', i) {
      AppendJustified(g, J, k, p, i);
    }
    assert Item(p, 0) in J';
    StampLess(g, stamps, epoch, p);
  }

  lemma AppendJustified(g: Cfg, J: seq<Item>, k: nat, p: nat, i: nat)
    requires k < |J| && 1 <= p < |g.productions| && DotBefore(g, J[k], g.productions[p].name) && i <= |J|
    requires i < |J| ==> Justified(g, J, i)
    ensures Justified(g, J + [Item(p, 0)], i)
  {
    var J' := J + [Item(p, 0)];
    if i < |J| {
      var m :| 0 <= m < i && DotBefore(g, J[m], g.productions[J[i].num].name);
      assert J'[m] == J[m];
    } else {
      assert J'[k] == J[k];
    }
  }

  lemma StampLess(g: Cfg, stamps: map<nat, nat>, epoch: nat, p: nat)
    requires p < |g.productions| && !Stamped(stamps, epoch, p)
    ensures Unstamped(g, stamps[p := epoch], epoch) < Unstamped(g, stamps, epoch)
  {
    assert p in Unstamped(g, stamps, epoch) && p !in Unstamped(g, stamps[p := epoch], epoch);
  }

  lemma AfterStamped(g: Cfg, stamps: map<nat, nat>, epoch: nat, I: seq<Item>, J: seq<Item>, k: nat, after: seq<nat>)
    requires Closing(g, stamps, epoch, I, J) && k < |J| && ValidItem(g, J[k]) && after == LrAfter(g, J[k])
    requires forall y :: 0 <= y < |after| ==> Stamped(stamps, epoch, after[y])
    ensures ClosedAt(g, J, J[k])
  {
    forall p | 1 <= p < |g.productions| && DotBefore(g, J[k], g.productions[p].name) ensures Item(p, 0) in J {
      assert p in after;
    }
  }

  lemma ClosingDone(g: Cfg, stamps: map<nat, nat>, epoch: nat, I: seq<Item>, J: seq<Item>, b: nat)
    requires Closing(g, stamps, epoch, I, J) && forall i :: 0 <= i < |J| ==> ClosedAt(g, J, J[i])
    requires CallsMade(g, stamps, epoch, |I|, J, b)
    ensures IsClosure(g, I, J)
  {
    hide Justified, ClosedAt, InCallOrder, Stamped;
  }

  /** The entries before index `b` have been visited: what they call for is stamped, and nothing else
      has been appended. */
  ghost predicate CallsMade(g: Cfg, stamps: map<nat, nat>, epoch: nat, n: nat, J: seq<Item>, b: nat) {
    && b <= |J| && InCallOrder(g, n, J)
    && (forall m: nat, p: nat :: m < b && Calls(g, J, m, p) ==> Stamped(stamps, epoch, p))
    && (forall i, m: nat :: n <= i < |J| && FirstCall(g, J, m, J[i].num) ==> m < b)
  }

  /** The same while the entry at index `k` is visited, up to its call at index `x`. */
  ghost predicate MakingCalls(g: Cfg, stamps: map<nat, nat>, epoch: nat, n: nat, J: seq<Item>, k: nat, b: nat, after: seq<nat>, x: nat) {
    if k < b then CallsMade(g, stamps, epoch, n, J, b)
    else
      && k < |J| && x <= |after| && InCallOrder(g, n, J)
      && (forall m: nat, p: nat :: m < k && Calls(g, J, m, p) ==> Stamped(stamps, epoch, p))
      && (forall i, m: nat :: n <= i < |J| && FirstCall(g, J, m, J[i].num) ==> m < k || (m == k && J[i].num in after[..x]))
  }

  lemma NoCallsMade(g: Cfg, stamps: map<nat, nat>, epoch: nat, I: seq<Item>)
    ensures CallsMade(g, stamps, epoch, |I|, I, 0)
  {
  }

  lemma CallsWithin(g: Cfg, stamps: map<nat, nat>, epoch: nat, n: nat, J: seq<Item>, b: nat)
    requires CallsMade(g, stamps, epoch, n, J, b)
    ensures b <= |J|
  {
  }

  ghost predicate Ascending(ps: seq<nat>) {
    forall i, j :: 0 <= i < j < |ps| ==> ps[i] < ps[j]
  }

  /** The rules of a name are listed in the order of their numbers. */
  lemma {:induction false} ProdnamesOrdered(g: Cfg, s: Symbol, k: nat)
    requires k <= |g.productions|
    ensures Ascending(g.ProdnamesUpTo(s, k))
  {
    if k > 1 {
      var ps := g.ProdnamesUpTo(s, k - 1);
      ProdnamesOrdered(g, s, k - 1);
      assert g.ProdnamesUpTo(s, k) == ps || g.ProdnamesUpTo(s, k) == ps + [k - 1];
    }
  }

  lemma AfterOrdered(g: Cfg, it: Item)
    requires ValidItem(g, it)
    ensures Ascending(LrAfter(g, it))
  {
    if it.dot < |g.Rhs(it.num)| {
      ProdnamesOrdered(g, g.Rhs(it.num)[it.dot], |g.productions|);
    }
  }

  lemma VisitStarts(g: Cfg, stamps: map<nat, nat>, epoch: nat, n: nat, J: seq<Item>, k: nat, b: nat, after: seq<nat>)
    requires CallsMade(g, stamps, epoch, n, J, b) && k <= b && k < |J|
    ensures MakingCalls(g, stamps, epoch, n, J, k, b, after, 0)
  {
    hide InCallOrder, FirstCall, Calls, Stamped;
  }

  lemma VisitPasses(g: Cfg, stamps: map<nat, nat>, epoch: nat, n: nat, J: seq<Item>, k: nat, b: nat, after: seq<nat>, x: nat)
    requires MakingCalls(g, stamps, epoch, n, J, k, b, after, x) && x < |after|
    ensures MakingCalls(g, stamps, epoch, n, J, k, b, after, x + 1)
  {
    hide InCallOrder, FirstCall, Calls, Stamped;
    assert after[..x + 1] == after[..x] + [after[x]];
  }

  lemma VisitEnds(g: Cfg, stamps: map<nat, nat>, epoch: nat, n: nat, J: seq<Item>, k: nat, b: nat, after: seq<nat>)
    requires MakingCalls(g, stamps, epoch, n, J, k, b, after, |after|) && k <= b && k < |J|
    requires ValidItem(g, J[k]) && after == LrAfter(g, J[k]) && forall y :: 0 <= y < |after| ==> Stamped(stamps, epoch, after[y])
    ensures CallsMade(g, stamps, epoch, n, J, if k < b then b else k + 1)
  {
    hide InCallOrder, FirstCall, Stamped;
    forall p: nat | Calls(g, J, k, p) ensures Stamped(stamps, epoch, p) {
      assert p in after;
    }
  }

  lemma VisitAdds(g: Cfg, stamps: map<nat, nat>, epoch: nat, I: seq<Item>, J: seq<Item>, k: nat, b: nat, after: seq<nat>, x: nat)
    requires Closing(g, stamps, epoch, I, J) && MakingCalls(g, stamps, epoch, |I|, J, k, b, after, x) && x < |after| && k < |J|
    requires ValidItem(g, J[k]) && after == LrAfter(g, J[k]) && !Stamped(stamps, epoch, after[x])
    requires Ascending(after)
    ensures MakingCalls(g, stamps[after[x] := epoch], epoch, |I|, J + [Item(after[x], 0)], k, b, after, x + 1)
  {
    hide Closing, InCallOrder, FirstCall, Calls, Stamped;
    var p := after[x];
    CallsAfter(g, J, k, after, x);
    if k >= b {
      var J', stamps' := J + [Item(p, 0)], stamps[p := epoch];
      forall m: nat, r: nat | m < k && Calls(g, J', m, r) ensures Stamped(stamps', epoch, r) {
        CallsAppend(g, J, p, m, r);
        StampStays(stamps, epoch, p, r);
      }
      forall i, m: nat | |I| <= i < |J'| && FirstCall(g, J', m, J'[i].num)
        ensures m < k || (m == k && J'[i].num in after[..x + 1])
      {
        assert after[..x + 1] == after[..x] + [p];
        if i < |J| {
          OldCall(g, stamps, epoch, I, J, p, i, m);
        } else {
          NewCall(g, stamps, epoch, J, k, p, m);
        }
      }
      AppendOrdered(g, stamps, epoch, I, J, k, after, x);
    }
  }

  lemma CallsAfter(g: Cfg, J: seq<Item>, k: nat, after: seq<nat>, x: nat)
    requires k < |J| && ValidItem(g, J[k]) && after == LrAfter(g, J[k]) && x < |after|
    ensures Calls(g, J, k, after[x])
  {
  }

  lemma CallsAppend(g: Cfg, J: seq<Item>, p: nat, m: nat, r: nat)
    requires m < |J|
    ensures Calls(g, J + [Item(p, 0)], m, r) <==> Calls(g, J, m, r)
  {
  }

  lemma StampStays(stamps: map<nat, nat>, epoch: nat, p: nat, r: nat)
    ensures Stamped(stamps[p := epoch], epoch, r) <==> r == p || Stamped(stamps, epoch, r)
  {
  }

  /** An entry that was there before was called for before. */
  lemma OldCall(g: Cfg, stamps: map<nat, nat>, epoch: nat, I: seq<Item>, J: seq<Item>, p: nat, i: nat, m: nat)
    requires Closing(g, stamps, epoch, I, J) && |I| <= i < |J| && FirstCall(g, J + [Item(p, 0)], m, J[i].num)
    ensures m < i && FirstCall(g, J, m, J[i].num)
  {
    assert Justified(g, J, i);
    var c :| 0 <= c < i && DotBefore(g, J[c], g.productions[J[i].num].name);
    assert Calls(g, J, c, J[i].num);
    forall r: nat | r < |J| ensures Calls(g, J + [Item(p, 0)], r, J[i].num) <==> Calls(g, J, r, J[i].num) {
      CallsAppend(g, J, p, r, J[i].num);
    }
  }

  /** The new entry is called for by the visited one first: what earlier ones call for is stamped. */
  lemma NewCall(g: Cfg, stamps: map<nat, nat>, epoch: nat, J: seq<Item>, k: nat, p: nat, m: nat)
    requires Calls(g, J, k, p) && !Stamped(stamps, epoch, p) && FirstCall(g, J + [Item(p, 0)], m, p)
    requires forall m: nat, r: nat :: m < k && Calls(g, J, m, r) ==> Stamped(stamps, epoch, r)
    ensures m == k
  {
    CallsAppend(g, J, p, k, p);
    if m < k {
      CallsAppend(g, J, p, m, p);
    }
  }

  lemma AppendOrdered(g: Cfg, stamps: map<nat, nat>, epoch: nat, I: seq<Item>, J: seq<Item>, k: nat, after: seq<nat>, x: nat)
    requires Closing(g, stamps, epoch, I, J) && InCallOrder(g, |I|, J) && x < |after|
    requires Calls(g, J, k, after[x]) && !Stamped(stamps, epoch, after[x])
    requires Ascending(after)
    requires forall m: nat, r: nat :: m < k && Calls(g, J, m, r) ==> Stamped(stamps, epoch, r)
    requires forall i, m: nat :: |I| <= i < |J| && FirstCall(g, J, m, J[i].num) ==> m < k || (m == k && J[i].num in after[..x])
    ensures InCallOrder(g, |I|, J + [Item(after[x], 0)])
  {
    hide Closing, FirstCall, Calls, Stamped, InCallOrder;
    var p := after[x];
    var J' := J + [Item(p, 0)];
    forall i, j, m: nat, r: nat | |I| <= i < j < |J'| && FirstCall(g, J', m, J'[i].num) && FirstCall(g, J', r, J'[j].num)
      ensures m < r || (m == r && J'[i].num < J'[j].num)
    {
      OldCall(g, stamps, epoch, I, J, p, i, m);
      if j < |J| {
        OldCall(g, stamps, epoch, I, J, p, j, r);
        CallsOrdered(g, |I|, J, i, j, m, r);
      } else {
        NewCall(g, stamps, epoch, J, k, p, r);
      }
    }
    OrderedFrom(g, |I|, J');
  }

  lemma OrderedFrom(g: Cfg, n: nat, J: seq<Item>)
    requires forall i, j, m: nat, r: nat :: n <= i < j < |J| && FirstCall(g, J, m, J[i].num) && FirstCall(g, J, r, J[j].num) ==>
      m < r || (m == r && J[i].num < J[j].num)
    ensures InCallOrder(g, n, J)
  {
  }

  lemma ClosedMono(g: Cfg, J: seq<Item>, J': seq<Item>, k: nat)
    requires J <= J' && k <= |J|
    requires forall i :: 0 <= i < k ==> ClosedAt(g, J, J[i])
    ensures forall i :: 0 <= i < k ==> ClosedAt(g, J', J'[i])
  {
    forall i | 0 <= i < k ensures ClosedAt(g, J', J'[i]) {
      assert ClosedAt(g, J, J[i]);
    }
  }

  /** A cached goto: the kernel of the cached object is the goto kernel of the list and symbol. */
  ghost predicate CacheEntryOk(g: Cfg, objects: seq<seq<Item>>, kernels: seq<seq<Item>>, k: (nat, Symbol), id: nat) {
    k.0 < |objects| && 0 < id < |kernels| && kernels[id] == Advance(g, objects[k.0], k.1) && kernels[id] != []
  }
}
