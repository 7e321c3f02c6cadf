/** LR(0) items, closures of item lists, and collections of item sets with their transitions. */
module Items {
  import opened Lists
  import opened Grammars

  /** An LR item object: there is exactly one for each production and dot position. */
  datatype Item = Item(num: nat, dot: nat)
  {
    function Next(): Item {
      Item(num, dot + 1)
    }
  }

  predicate ValidItem(g: Cfg, it: Item) {
    it.num < |g.productions| && it.dot <= |g.Rhs(it.num)|
  }

  /** The dot is right before the symbol `x`. */
  predicate DotBefore(g: Cfg, it: Item, x: Symbol) {
    ValidItem(g, it) && it.dot < |g.Rhs(it.num)| && g.Rhs(it.num)[it.dot] == x
  }

  predicate Complete(g: Cfg, it: Item) {
    ValidItem(g, it) && it.dot == |g.Rhs(it.num)|
  }

  /** `lr_after`: the productions of the symbol after the dot, none for a terminal or at the end. */
  function LrAfter(g: Cfg, it: Item): (ps: seq<nat>)
    requires ValidItem(g, it)
    ensures forall j :: 0 <= j < |ps| ==> 1 <= ps[j] < |g.productions| && DotBefore(g, it, g.productions[ps[j]].name)
    ensures forall p :: 1 <= p < |g.productions| && DotBefore(g, it, g.productions[p].name) ==> p in ps
  {
    if it.dot < |g.Rhs(it.num)| then g.Prodnames(g.Rhs(it.num)[it.dot]) else []
  }

  // ----- Closures -----

  ghost predicate ValidItems(g: Cfg, I: seq<Item>) {
    forall i :: 0 <= i < |I| ==> ValidItem(g, I[i])
  }

  /** The entry at index `i` is an initial item called for by an earlier entry. */
  ghost predicate Justified(g: Cfg, J: seq<Item>, i: nat) {
    && i < |J| && J[i].dot == 0 && 1 <= J[i].num < |g.productions|
    && exists m :: 0 <= m < i && DotBefore(g, J[m], g.productions[J[i].num].name)
  }

  /** Every production called for by `it` has its initial item in `J`. */
  ghost predicate ClosedAt(g: Cfg, J: seq<Item>, it: Item) {
    forall p :: 1 <= p < |g.productions| && DotBefore(g, it, g.productions[p].name) ==> Item(p, 0) in J
  }

  /** The entry at index `m` calls for production `p`. */
  ghost predicate Calls(g: Cfg, J: seq<Item>, m: nat, p: nat) {
    m < |J| && 1 <= p < |g.productions| && DotBefore(g, J[m], g.productions[p].name)
  }

  /** Production `p` is first called for at index `m`. */
  ghost predicate FirstCall(g: Cfg, J: seq<Item>, m: nat, p: nat) {
    Calls(g, J, m, p) && forall k: nat :: k < m ==> !Calls(g, J, k, p)
  }

  /** The entries from index `n` on stand in the order in which they were called for, those called for
      by one entry in the order of the rules. */
  ghost predicate InCallOrder(g: Cfg, n: nat, J: seq<Item>) {
    forall i, j, m: nat, k: nat :: n <= i < j < |J| && FirstCall(g, J, m, J[i].num) && FirstCall(g, J, k, J[j].num) ==>
      m < k || (m == k && J[i].num < J[j].num)
  }

  /** `J` extends the kernel `K` by justified items only, each once and in the order of the calls, and
      calls for nothing more. */
  ghost predicate IsClosure(g: Cfg, K: seq<Item>, J: seq<Item>) {
    && K <= J && ValidItems(g, J)
    && (forall i :: |K| <= i < |J| ==> Justified(g, J, i))
    && (forall i, j :: |K| <= i < j < |J| ==> J[i] != J[j])
    && (forall i :: 0 <= i < |J| ==> ClosedAt(g, J, J[i]))
    && InCallOrder(g, |K|, J)
  }

  /** A set of items from which no production is missing. */
  ghost predicate ClosedSet(g: Cfg, S: set<Item>) {
    forall it, p :: it in S && 1 <= p < |g.productions| && DotBefore(g, it, g.productions[p].name) ==> Item(p, 0) in S
  }

  /** A closure is the least closed superset of its kernel. */
  lemma ClosureIsLeast(g: Cfg, K: seq<Item>, J: seq<Item>)
    requires IsClosure(g, K, J)
    ensures Elems(K) <= Elems(J) && ClosedSet(g, Elems(J))
    ensures forall S :: Elems(K) <= S && ClosedSet(g, S) ==> Elems(J) <= S
  {
    forall it | it in J ensures ClosedAt(g, J, it) {}
    forall S | Elems(K) <= S && ClosedSet(g, S) ensures Elems(J) <= S {
      forall it | it in J ensures it in S {
        var i :| 0 <= i < |J| && J[i] == it;
        ClosureWithin(g, K, J, S, i);
      }
    }
  }

  lemma {:induction false} ClosureWithin(g: Cfg, K: seq<Item>, J: seq<Item>, S: set<Item>, i: nat)
    requires IsClosure(g, K, J) && Elems(K) <= S && ClosedSet(g, S) && i < |J|
    ensures J[i] in S
    decreases i
  {
    if i < |K| {
      assert K[i] in Elems(K);
    } else {
      assert Justified(g, J, i);
      var m :| 0 <= m < i && DotBefore(g, J[m], g.productions[J[i].num].name);
      ClosureWithin(g, K, J, S, m);
      assert J[i] == Item(J[i].num, 0);
    }
  }

  /** A kernel without repeated items whose dots have moved has a closure without repetitions. */
  lemma ClosureDistinct(g: Cfg, K: seq<Item>, J: seq<Item>)
    requires IsClosure(g, K, J)
    requires forall i, j :: 0 <= i < j < |K| ==> K[i] != K[j]
    requires forall i :: 0 <= i < |K| ==> K[i].dot > 0 || K[i].num == 0
    ensures forall i, j :: 0 <= i < j < |J| ==> J[i] != J[j]
  {
    forall i, j | 0 <= i < j < |J| ensures J[i] != J[j] {
      if i < |K| {
        assert J[i] == K[i];
        if j < |K| {
          assert J[j] == K[j];
        } else {
          assert Justified(g, J, j);
        }
      }
    }
  }

  lemma {:induction false} FirstCallOf(g: Cfg, J: seq<Item>, m: nat, p: nat) returns (k: nat)
    requires Calls(g, J, m, p)
    ensures k <= m && FirstCall(g, J, k, p)
  {
    k := m;
    if i: nat :| i < m && Calls(g, J, i, p) {
      k := FirstCallOf(g, J, i, p);
    }
  }

  lemma FirstCallShared(g: Cfg, J: seq<Item>, J': seq<Item>, n: nat, m: nat, p: nat)
    requires m < n <= |J| && n <= |J'| && J[..n] == J'[..n] && FirstCall(g, J, m, p)
    ensures FirstCall(g, J', m, p)
  {
    forall k: nat | k <= m ensures Calls(g, J', k, p) <==> Calls(g, J, k, p) {
      assert J[..n][k] == J'[..n][k];
    }
  }

  /** A kernel of moved items has only one closure: also the order of its entries is determined. */
  lemma ClosureUnique(g: Cfg, K: seq<Item>, J: seq<Item>, J': seq<Item>)
    requires IsClosure(g, K, J) && IsClosure(g, K, J')
    requires forall i :: 0 <= i < |K| ==> K[i].dot > 0 || K[i].num == 0
    ensures J == J'
  {
    hide *;
    ClosuresAgree(g, K, J, J', |J|);
    ClosuresAgree(g, K, J', J, |J'|);
  }

  lemma {:induction false} ClosuresAgree(g: Cfg, K: seq<Item>, J: seq<Item>, J': seq<Item>, n: nat)
    requires IsClosure(g, K, J) && IsClosure(g, K, J') && n <= |J|
    requires forall i :: 0 <= i < |K| ==> K[i].dot > 0 || K[i].num == 0
    ensures n <= |J'| && J[..n] == J'[..n]
  {
    hide Justified, InCallOrder, FirstCall, Calls, ClosedAt;
    if n <= |K| {
      assert J[..n] == K[..n] == J'[..n];
    } else {
      ClosuresAgree(g, K, J, J', n - 1);
      var m := EntryCall(g, K, J, n - 1);
      var i := EntryLater(g, K, J, J', n - 1, m);
      if i > n - 1 {
        var m' := EntryCall(g, K, J', n - 1);
        var i' := EntryLater(g, K, J', J, n - 1, m');
        FirstCallShared(g, J, J', n - 1, m, J[n - 1].num);
        FirstCallShared(g, J', J, n - 1, m', J'[n - 1].num);
        CallsOrdered(g, |K|, J, n - 1, i', m, m');
        CallsOrdered(g, |K|, J', n - 1, i, m', m);
        assert false;
      }
      assert J[..n] == J[..n - 1] + [J[n - 1]] && J'[..n] == J'[..n - 1] + [J'[n - 1]];
    }
  }

  lemma CallsOrdered(g: Cfg, n: nat, J: seq<Item>, i: nat, j: nat, m: nat, k: nat)
    requires InCallOrder(g, n, J) && n <= i <= j < |J| && FirstCall(g, J, m, J[i].num) && FirstCall(g, J, k, J[j].num)
    ensures i == j || m < k || (m == k && J[i].num < J[j].num)
  {
  }

  lemma EntryCall(g: Cfg, K: seq<Item>, J: seq<Item>, i: nat) returns (m: nat)
    requires IsClosure(g, K, J) && |K| <= i < |J|
    ensures m < i && FirstCall(g, J, m, J[i].num) && J[i] == Item(J[i].num, 0)
  {
    assert Justified(g, J, i);
    var c :| 0 <= c < i && DotBefore(g, J[c], g.productions[J[i].num].name);
    m := FirstCallOf(g, J, c, J[i].num);
  }

  /** The next entry of one closure occurs in any other with the same beginning, there or later. */
  lemma EntryLater(g: Cfg, K: seq<Item>, J: seq<Item>, J': seq<Item>, n: nat, m: nat) returns (i: nat)
    requires IsClosure(g, K, J) && IsClosure(g, K, J') && |K| <= n < |J| && n <= |J'| && J[..n] == J'[..n]
    requires forall i :: 0 <= i < |K| ==> K[i].dot > 0 || K[i].num == 0
    requires m < n && FirstCall(g, J, m, J[n].num)
    ensures n <= i < |J'| && J'[i] == J[n]
  {
    assert Justified(g, J, n) && J[n] == Item(J[n].num, 0);
    forall k | 0 <= k < n ensures J'[k] == J[k] && (k < |K| ==> J[k] == K[k]) {
      assert J[..n][k] == J'[..n][k];
    }
    assert ClosedAt(g, J', J'[m]);
    i :| 0 <= i < |J'| && J'[i] == J[n];
  }

  // ----- Kernels of goto sets -----

  /** The kernel of goto(I, x), in the order of I. */
  function Advance(g: Cfg, I: seq<Item>, x: Symbol): seq<Item> {
    if I == [] then []
    else
      var K := Advance(g, I[..|I| - 1], x);
      if DotBefore(g, I[|I| - 1], x) then K + [I[|I| - 1].Next()] else K
  }

  /** `it` is an item of I that has been moved over x. */
  ghost predicate Moved(g: Cfg, I: seq<Item>, x: Symbol, it: Item) {
    it.dot > 0 && DotBefore(g, Item(it.num, it.dot - 1), x) && Item(it.num, it.dot - 1) in I
  }

  /** The entries of a goto kernel are the items of I before x, moved over x. */
  lemma {:induction false} AdvanceItems(g: Cfg, I: seq<Item>, x: Symbol)
    ensures forall i :: 0 <= i < |Advance(g, I, x)| ==> Moved(g, I, x, Advance(g, I, x)[i])
    ensures forall it :: it in I && DotBefore(g, it, x) ==> it.Next() in Advance(g, I, x)
  {
    if I != [] {
      AdvanceItems(g, I[..|I| - 1], x);
      assert I == I[..|I| - 1] + [I[|I| - 1]];
    }
  }

  lemma {:induction false} AdvanceDistinct(g: Cfg, I: seq<Item>, x: Symbol)
    requires forall i, j :: 0 <= i < j < |I| ==> I[i] != I[j]
    ensures forall i, j :: 0 <= i < j < |Advance(g, I, x)| ==> Advance(g, I, x)[i] != Advance(g, I, x)[j]
  {
    if I != [] {
      var I', last := I[..|I| - 1], I[|I| - 1];
      AdvanceDistinct(g, I', x);
      if DotBefore(g, last, x) {
        AdvanceLast(g, I', x, last);
      }
    }
  }

  lemma AdvanceLast(g: Cfg, I: seq<Item>, x: Symbol, last: Item)
    requires last !in I
    ensures last.Next() !in Advance(g, I, x)
  {
    AdvanceItems(g, I, x);
    forall i | 0 <= i < |Advance(g, I, x)| ensures Advance(g, I, x)[i] != last.Next() {
      assert Moved(g, I, x, Advance(g, I, x)[i]);
    }
  }

  // ----- Collections -----

  /** The transitions: the state reached from a state over a symbol. */
  type Delta = map<(nat, Symbol), nat>

  /** `C` is the LR(0) collection with kernels `K` and transitions `d`: it starts from the initial
      item, has exactly the nonempty gotos, never goes back to state 0, and holds only states that
      some earlier state leads to. */
  ghost predicate Collection(g: Cfg, C: seq<seq<Item>>, K: seq<seq<Item>>, d: Delta) {
    && 0 < |C| == |K|
    && K[0] == [Item(0, 0)]
    && (forall q :: 0 <= q < |C| ==> IsClosure(g, K[q], C[q]))
    && (forall q, r :: 0 <= q < r < |K| ==> K[q] != K[r])
    && (forall q, x :: 0 <= q < |C| ==> ((q, x) in d <==> Advance(g, C[q], x) != []))
    && (forall e :: e in d ==> e.0 < |C| && 0 < d[e] < |C| && K[d[e]] == Advance(g, C[e.0], e.1))
    && (forall r :: 0 < r < |C| ==> Reached(d, r))
  }

  ghost predicate Reached(d: Delta, r: nat) {
    exists e :: e in d && e.0 < r && d[e] == r
  }

  lemma MoveItem(g: Cfg, C: seq<seq<Item>>, K: seq<seq<Item>>, d: Delta, q: nat, it: Item, x: Symbol)
    requires Collection(g, C, K, d) && q < |C| && it in C[q] && DotBefore(g, it, x)
    ensures (q, x) in d && it.Next() in C[d[(q, x)]]
  {
    AdvanceItems(g, C[q], x);
    var r := d[(q, x)];
    assert IsClosure(g, K[r], C[r]);
  }

  /** A transition is there because of an item with its dot before the symbol. */
  lemma EdgeItem(g: Cfg, C: seq<seq<Item>>, K: seq<seq<Item>>, d: Delta, q: nat, x: Symbol) returns (it: Item)
    requires Collection(g, C, K, d) && (q, x) in d
    ensures q < |C| && it in C[q] && DotBefore(g, it, x)
  {
    var A := Advance(g, C[q], x);
    AdvanceItems(g, C[q], x);
    assert Moved(g, C[q], x, A[0]);
    it := Item(A[0].num, A[0].dot - 1);
  }

  /** An item whose dot has moved came over the last transition from the item with the dot one back. */
  lemma UnmoveItem(g: Cfg, C: seq<seq<Item>>, K: seq<seq<Item>>, d: Delta, q: nat, x: Symbol, it: Item)
    requires Collection(g, C, K, d) && (q, x) in d && it in C[d[(q, x)]] && it.dot > 0
    ensures q < |C| && Item(it.num, it.dot - 1) in C[q] && DotBefore(g, Item(it.num, it.dot - 1), x)
  {
    var r := d[(q, x)];
    assert r < |C| && K[r] == Advance(g, C[q], x);
    KernelMember(g, K[r], C[r], it);
    AdvanceItems(g, C[q], x);
  }

  lemma KernelMember(g: Cfg, K: seq<Item>, J: seq<Item>, it: Item)
    requires IsClosure(g, K, J) && it in J && it.dot > 0
    ensures it in K
  {
    var i :| 0 <= i < |J| && J[i] == it;
    assert i >= |K| ==> Justified(g, J, i);
  }

  /** Initial items are called for by another item of the state, except the one of production 0. */
  lemma InitialItem(g: Cfg, C: seq<seq<Item>>, K: seq<seq<Item>>, d: Delta, q: nat, it: Item) returns (caller: Item)
    requires Collection(g, C, K, d) && q < |C| && it in C[q] && it.dot == 0 && it != Item(0, 0)
    ensures it.num > 0 && ValidItem(g, it) && caller in C[q] && DotBefore(g, caller, g.productions[it.num].name)
  {
    assert IsClosure(g, K[q], C[q]);
    var i :| 0 <= i < |C[q]| && C[q][i] == it;
    if i < |K[q]| {
      KernelItem(g, C, K, d, q, i);
    }
    assert Justified(g, C[q], i);
    var m :| 0 <= m < i && DotBefore(g, C[q][m], g.productions[C[q][i].num].name);
    caller := C[q][m];
  }

  /** Kernel items have their dot moved, except the initial item in state 0. */
  lemma KernelItem(g: Cfg, C: seq<seq<Item>>, K: seq<seq<Item>>, d: Delta, q: nat, i: nat)
    requires Collection(g, C, K, d) && q < |C| && i < |K[q]|
    ensures if q == 0 then K[q][i] == Item(0, 0) else K[q][i].dot > 0
  {
    if q > 0 {
      assert Reached(d, q);
      var e :| e in d && e.0 < q && d[e] == q;
      AdvanceItems(g, C[e.0], e.1);
    }
  }

  /** No item of state 0 has its dot moved. */
  lemma StateZero(g: Cfg, C: seq<seq<Item>>, K: seq<seq<Item>>, d: Delta, it: Item)
    requires Collection(g, C, K, d) && it in C[0]
    ensures it.dot == 0
  {
    assert IsClosure(g, K[0], C[0]);
    var i :| 0 <= i < |C[0]| && C[0][i] == it;
    assert i >= |K[0]| ==> Justified(g, C[0], i);
  }

  /** Production 0 is only ever started in state 0. */
  lemma StartItem(g: Cfg, C: seq<seq<Item>>, K: seq<seq<Item>>, d: Delta, q: nat)
    requires Collection(g, C, K, d) && q < |C|
    ensures Item(0, 0) in C[q] <==> q == 0
  {
    assert IsClosure(g, K[q], C[q]);
    if Item(0, 0) in C[q] {
      var i :| 0 <= i < |C[q]| && C[q][i] == Item(0, 0);
      assert i >= |K[q]| ==> Justified(g, C[q], i);
      KernelItem(g, C, K, d, q, i);
    }
    assert q == 0 ==> C[q][0] == K[q][0];
  }

  lemma CloseItem(g: Cfg, C: seq<seq<Item>>, K: seq<seq<Item>>, d: Delta, q: nat, it: Item, p: nat)
    requires Collection(g, C, K, d) && q < |C| && it in C[q] && 1 <= p < |g.productions|
    requires DotBefore(g, it, g.productions[p].name)
    ensures Item(p, 0) in C[q]
  {
    assert IsClosure(g, K[q], C[q]);
    var i :| 0 <= i < |C[q]| && C[q][i] == it;
    assert ClosedAt(g, C[q], C[q][i]);
  }

  lemma StateItems(g: Cfg, C: seq<seq<Item>>, K: seq<seq<Item>>, d: Delta, q: nat, it: Item)
    requires Collection(g, C, K, d) && q < |C| && it in C[q]
    ensures ValidItem(g, it)
  {
    assert IsClosure(g, K[q], C[q]);
  }

  lemma StateBound(g: Cfg, C: seq<seq<Item>>, K: seq<seq<Item>>, d: Delta, q: nat, x: Symbol)
    requires Collection(g, C, K, d)
    ensures (q, x) in d ==> q < |C| && 0 < d[(q, x)] < |C|
  {
  }

  lemma KernelFirst(g: Cfg, C: seq<seq<Item>>, K: seq<seq<Item>>, d: Delta, q: nat, m: nat)
    requires Collection(g, C, K, d) && q < |C| && m < |K[q]|
    ensures m < |C[q]| && C[q][m] == K[q][m]
  {
    assert IsClosure(g, K[q], C[q]);
  }

  lemma KernelSize(g: Cfg, C: seq<seq<Item>>, K: seq<seq<Item>>, d: Delta, q: nat) returns (n: nat)
    requires Collection(g, C, K, d) && q < |C|
    ensures n == |K[q]| <= |C[q]| && n > 0 && forall i :: n <= i < |C[q]| ==> Justified(g, C[q], i)
  {
    assert IsClosure(g, K[q], C[q]);
    assert q > 0 ==> Reached(d, q);
    n := |K[q]|;
  }

  lemma Caller(g: Cfg, C: seq<seq<Item>>, K: seq<seq<Item>>, d: Delta, q: nat, i: nat) returns (m: nat)
    requires Collection(g, C, K, d) && q < |C| && i < |C[q]| && Justified(g, C[q], i)
    ensures m < i && C[q][i] == Item(C[q][i].num, 0) && 1 <= C[q][i].num < |g.productions|
    ensures DotBefore(g, C[q][m], g.productions[C[q][i].num].name)
  {
    m :| 0 <= m < i && DotBefore(g, C[q][m], g.productions[C[q][i].num].name);
  }

  // ----- Finitely many kernels -----

  /** A kernel that may occur: valid items, none twice, with moved dots unless of production 0. */
  ghost predicate KernelShape(g: Cfg, K: seq<Item>) {
    ValidItems(g, K) && NoDuplicates(K) && forall i :: 0 <= i < |K| ==> K[i].dot > 0 || K[i].num == 0
  }

  ghost function Numbers(n: nat): (s: set<nat>)
    ensures forall p :: p in s <==> 0 <= p < n
  {
    if n == 0 then {} else Numbers(n - 1) + {n - 1}
  }

  ghost function AllItems(g: Cfg): set<Item> {
    set p, d | p in Numbers(|g.productions|) && d in Numbers(|g.Rhs(p)| + 1) :: Item(p, d)
  }

  /** The duplicate-free sequences over a finite set of items. */
  ghost function Arrangements(S: set<Item>): set<seq<Item>>
    decreases S
  {
    {[]} + set it, K | it in S && K in Arrangements(S - {it}) :: [it] + K
  }

  lemma {:induction false} ArrangementsComplete(S: set<Item>, K: seq<Item>)
    requires NoDuplicates(K) && Elems(K) <= S
    ensures K in Arrangements(S)
    decreases |K|
  {
    if K != [] {
      var it, rest := K[0], K[1..];
      forall x | x in rest ensures x in S - {it} {
        var i :| 0 <= i < |rest| && rest[i] == x;
        assert K[i + 1] == x && x in Elems(K);
      }
      assert it in Elems(K);
      ArrangementsComplete(S - {it}, rest);
      assert K == [it] + rest;
    }
  }

  lemma KernelInUniverse(g: Cfg, K: seq<Item>)
    requires KernelShape(g, K)
    ensures K in Arrangements(AllItems(g))
  {
    forall it | it in K ensures it in AllItems(g) {
      assert it == Item(it.num, it.dot) && it.num in Numbers(|g.productions|) && it.dot in Numbers(|g.Rhs(it.num)| + 1);
    }
    ArrangementsComplete(AllItems(g), K);
  }

  lemma AdvanceShape(g: Cfg, K: seq<Item>, J: seq<Item>, x: Symbol)
    requires KernelShape(g, K) && IsClosure(g, K, J)
    ensures KernelShape(g, Advance(g, J, x))
  {
    ClosureDistinct(g, K, J);
    AdvanceDistinct(g, J, x);
    AdvanceItems(g, J, x);
    var A := Advance(g, J, x);
    forall i | 0 <= i < |A| ensures ValidItem(g, A[i]) && A[i].dot > 0 {
      assert Moved(g, J, x, A[i]);
    }
  }

  /** No state lists an item twice. */
  lemma {:induction false} StateDistinct(g: Cfg, C: seq<seq<Item>>, K: seq<seq<Item>>, d: Delta, q: nat)
    requires g.WellFormed() && Collection(g, C, K, d) && q < |C|
    ensures KernelShape(g, K[q]) && NoDuplicates(C[q])
    decreases q
  {
    hide KernelShape, NoDuplicates;
    var e := KernelOf(g, C, K, d, q);
    if q > 0 {
      StateDistinct(g, C, K, d, e.0);
      AdvanceShape(g, K[e.0], C[e.0], e.1);
    }
    ShapeDistinct(g, K[q], C[q]);
  }

  lemma KernelOf(g: Cfg, C: seq<seq<Item>>, K: seq<seq<Item>>, d: Delta, q: nat) returns (e: (nat, Symbol))
    requires g.WellFormed() && Collection(g, C, K, d) && q < |C|
    ensures IsClosure(g, K[q], C[q])
    ensures q == 0 ==> KernelShape(g, K[0])
    ensures q > 0 ==> e.0 < q && IsClosure(g, K[e.0], C[e.0]) && K[q] == Advance(g, C[e.0], e.1)
  {
    e := (0, End);
    if q > 0 {
      assert Reached(d, q);
      e :| e in d && e.0 < q && d[e] == q;
    }
  }

  lemma ShapeDistinct(g: Cfg, K: seq<Item>, J: seq<Item>)
    requires KernelShape(g, K) && IsClosure(g, K, J)
    ensures NoDuplicates(J)
  {
    ClosureDistinct(g, K, J);
  }

  /** The symbols occurring in the productions of the items, `usyms`: no other symbol has a goto. */
  function UsedSymbols(g: Cfg, I: seq<Item>): set<Symbol>
    requires ValidItems(g, I)
  {
    if I == [] then {} else UsedSymbols(g, I[..|I| - 1]) + Elems(g.Rhs(I[|I| - 1].num))
  }

  lemma {:induction false} UnusedGoto(g: Cfg, I: seq<Item>, x: Symbol)
    requires ValidItems(g, I) && x !in UsedSymbols(g, I)
    ensures Advance(g, I, x) == []
  {
    if I != [] {
      UnusedGoto(g, I[..|I| - 1], x);
    }
  }
}
