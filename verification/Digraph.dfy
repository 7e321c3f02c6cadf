/** The set-valued fixpoint solver `digraph`/`traverse`: F(x) is F'(x) united with every F(y), x R y.
    It walks the relation depth first, keeps Tarjan-style depth stamps in N, and gives every member
    of a strongly connected component the one list of its root. */
module Digraphs {
  import opened Lists

  /** The sentinel stamp of a finished node. */
  const MAXINT: int := 0x7FFF_FFFF_FFFF_FFFF

  // ----- What the solver should compute -----

  ghost predicate ReachesIn<X(!new)>(R: map<X, seq<X>>, x: X, z: X, n: nat)
    decreases n
  {
    if n == 0 then x == z else x in R && exists y :: y in R[x] && ReachesIn(R, y, z, n - 1)
  }

  /** `x` R* `z`. */
  ghost predicate Reaches<X(!new)>(R: map<X, seq<X>>, x: X, z: X) {
    exists n: nat :: ReachesIn(R, x, z, n)
  }

  /** `a` belongs to FP(z) for some z with `x` R* `z`. */
  ghost predicate Required<X(!new), T>(R: map<X, seq<X>>, base: map<X, set<T>>, x: X, a: T) {
    exists z :: Reaches(R, x, z) && z in base && a in base[z]
  }

  lemma ReachesSelf<X(!new)>(R: map<X, seq<X>>, x: X)
    ensures Reaches(R, x, x)
  {
    assert ReachesIn(R, x, x, 0);
  }

  lemma ReachesStep<X(!new)>(R: map<X, seq<X>>, x: X, y: X, z: X)
    requires x in R && y in R[x] && Reaches(R, y, z)
    ensures Reaches(R, x, z)
  {
    var n: nat :| ReachesIn(R, y, z, n);
    assert ReachesIn(R, x, z, n + 1);
  }

  lemma {:induction false} ReachesInTrans<X(!new)>(R: map<X, seq<X>>, x: X, y: X, z: X, m: nat, n: nat)
    requires ReachesIn(R, x, y, m) && ReachesIn(R, y, z, n)
    ensures ReachesIn(R, x, z, m + n)
    decreases m
  {
    if m > 0 {
      var w :| w in R[x] && ReachesIn(R, w, y, m - 1);
      ReachesInTrans(R, w, y, z, m - 1, n);
    }
  }

  lemma ReachesTrans<X(!new)>(R: map<X, seq<X>>, x: X, y: X, z: X)
    requires Reaches(R, x, y) && Reaches(R, y, z)
    ensures Reaches(R, x, z)
  {
    var m: nat :| ReachesIn(R, x, y, m);
    var n: nat :| ReachesIn(R, y, z, n);
    ReachesInTrans(R, x, y, z, m, n);
  }

  lemma RequiredStep<X(!new), T>(R: map<X, seq<X>>, base: map<X, set<T>>, x: X, y: X, a: T)
    requires Reaches(R, x, y) && Required(R, base, y, a)
    ensures Required(R, base, x, a)
  {
    var z :| Reaches(R, y, z) && z in base && a in base[z];
    ReachesTrans(R, x, y, z);
  }

  // ----- The invariant of the depth-first walk, on values -----

  /** A stamp is 0 before the first visit, a stack height at most the node's own while the node is
      stacked, and MAXINT once its component has been popped. */
  ghost predicate StampInv<X(!new)>(R: map<X, seq<X>>, N: map<X, int>, stack: seq<X>) {
    && N.Keys == R.Keys
    && |R| < MAXINT
    && (forall x, y :: x in R && y in R[x] ==> y in R)
    && Distinct(stack)
    && (forall i :: 0 <= i < |stack| ==> stack[i] in N && 1 <= N[stack[i]] <= i + 1)
    && (forall x :: x in N && x !in stack ==> N[x] == 0 || N[x] == MAXINT)
  }

  /** A stacked node reaches the node at the height that its stamp names. */
  ghost predicate LowInv<X(!new)>(R: map<X, seq<X>>, N: map<X, int>, stack: seq<X>) {
    forall i :: 0 <= i < |stack| ==> ReachesLow(R, N, stack, i)
  }

  ghost predicate ReachesLow<X(!new)>(R: map<X, seq<X>>, N: map<X, int>, stack: seq<X>, i: nat) {
    && i < |stack| && stack[i] in N
    && 1 <= N[stack[i]] <= |stack|
    && Reaches(R, stack[i], stack[N[stack[i]] - 1])
  }

  /** The set gathered for a visited node starts from FP and never holds more than is required. */
  ghost predicate SetInv<X(!new), T>(R: map<X, seq<X>>, base: map<X, set<T>>, N: map<X, int>, L: map<X, set<T>>) {
    && base.Keys == N.Keys
    && (forall x :: x in L <==> x in N && N[x] != 0)
    && (forall x :: x in L ==> base[x] <= L[x])
    && (forall x, a :: x in L && a in L[x] ==> Required(R, base, x, a))
  }

  /** Finished nodes have finished successors, whose sets they include. */
  ghost predicate DoneInv<X(!new), T>(R: map<X, seq<X>>, N: map<X, int>, L: map<X, set<T>>) {
    forall x, y :: x in N && N[x] == MAXINT && x in R && y in R[x] ==> Included(N, L, x, y)
  }

  /** The successor `y` is finished and its set has reached `x`. */
  ghost predicate Included<X(!new), T>(N: map<X, int>, L: map<X, set<T>>, x: X, y: X) {
    y in N && N[y] == MAXINT && y in L && x in L && L[y] <= L[x]
  }

  /** Every successor of the stacked node `s` has been looked at. */
  ghost predicate Scanned<X(!new), T>(R: map<X, seq<X>>, N: map<X, int>, stack: seq<X>, L: map<X, set<T>>, s: X) {
    && s in N && s in L && s in R
    && (forall y :: y in R[s] ==> Looked(N, L, s, y))
    && (forall i :: 0 <= i < |stack| && stack[i] in R[s] ==> N[s] <= i + 1)
  }

  ghost predicate Looked<X(!new), T>(N: map<X, int>, L: map<X, set<T>>, s: X, y: X) {
    y in N && N[y] != 0 && (N[y] == MAXINT ==> Included(N, L, s, y))
  }

  /** Stacked nodes that are no longer being scanned have been scanned, and point below themselves. */
  ghost predicate ScanInv<X(!new), T>(R: map<X, seq<X>>, N: map<X, int>, stack: seq<X>, L: map<X, set<T>>, gray: set<X>) {
    forall i :: 0 <= i < |stack| && stack[i] !in gray ==> ScannedAt(R, N, stack, L, i)
  }

  ghost predicate ScannedAt<X(!new), T>(R: map<X, seq<X>>, N: map<X, int>, stack: seq<X>, L: map<X, set<T>>, i: nat) {
    i < |stack| && stack[i] in N && N[stack[i]] <= i && Scanned(R, N, stack, L, stack[i])
  }

  /** A node that has been scanned has no successor at or above a node still being scanned higher up:
      that node was visited later. */
  ghost predicate OrderInv<X(!new)>(R: map<X, seq<X>>, stack: seq<X>, gray: set<X>) {
    forall i, k {:trigger OldSuccessors(R, stack, i, k)} ::
      0 <= i < k < |stack| && stack[i] !in gray && stack[k] in gray ==> OldSuccessors(R, stack, i, k)
  }

  /** No successor of the node at `i` is on the stack from `k` upwards. */
  ghost predicate OldSuccessors<X(!new)>(R: map<X, seq<X>>, stack: seq<X>, i: nat, k: nat) {
    i < |stack| && stack[i] in R && forall j :: k <= j < |stack| ==> stack[j] !in R[stack[i]]
  }

  ghost predicate Distinct<X(!new)>(stack: seq<X>) {
    forall i, j {:trigger Differ(stack, i, j)} :: 0 <= i < j < |stack| ==> Differ(stack, i, j)
  }

  ghost predicate Differ<X>(stack: seq<X>, i: nat, j: nat)
    requires i < |stack| && j < |stack|
  {
    stack[i] != stack[j]
  }

  /** The invariant of the walk: stamps, the stack, and the sets gathered so far (`L`), with the
      nodes in `gray` still being scanned. */
  ghost predicate Inv<X(!new), T>(R: map<X, seq<X>>, base: map<X, set<T>>, N: map<X, int>, stack: seq<X>,
                                  L: map<X, set<T>>, gray: set<X>)
  {
    && StampInv(R, N, stack)
    && LowInv(R, N, stack)
    && SetInv(R, base, N, L)
    && DoneInv(R, N, L)
    && ScanInv(R, N, stack, L, gray)
    && OrderInv(R, stack, gray)
  }

  /** A node being scanned reaches everything above it on the stack. */
  ghost predicate GrayReach<X(!new)>(R: map<X, seq<X>>, stack: seq<X>, gray: set<X>) {
    forall i, j {:trigger LeadsUp(R, stack, i, j)} :: 0 <= i <= j < |stack| && stack[i] in gray ==> LeadsUp(R, stack, i, j)
  }

  ghost predicate LeadsUp<X(!new)>(R: map<X, seq<X>>, stack: seq<X>, i: nat, j: nat) {
    i < |stack| && j < |stack| && Reaches(R, stack[i], stack[j])
  }

  lemma NothingGray<X(!new)>(R: map<X, seq<X>>)
    ensures GrayReach(R, [], {})
  {
  }

  lemma GrayPush<X(!new)>(R: map<X, seq<X>>, stack: seq<X>, gray: set<X>, x: X)
    requires GrayReach(R, stack, gray) && x !in stack && forall g :: g in gray ==> Reaches(R, g, x)
    ensures GrayReach(R, stack + [x], gray + {x})
  {
    hide Reaches;
    var stack' := stack + [x];
    ReachesSelf(R, x);
    forall i, j | 0 <= i <= j < |stack'| && stack'[i] in gray + {x} ensures LeadsUp(R, stack', i, j) {
      assert j < |stack| ==> LeadsUp(R, stack, i, j);
    }
  }

  lemma GrayDone<X(!new)>(R: map<X, seq<X>>, stack: seq<X>, gray: set<X>, x: X, n: nat)
    requires GrayReach(R, stack, gray + {x}) && n <= |stack|
    ensures GrayReach(R, stack[..n], gray)
  {
    hide Reaches;
    forall i, j | 0 <= i <= j < n && stack[i] in gray ensures LeadsUp(R, stack[..n], i, j) {
      assert LeadsUp(R, stack, i, j);
    }
  }

  /** A successor of the node scanned last is reached by all nodes being scanned. */
  lemma GrayEdge<X(!new)>(R: map<X, seq<X>>, stack: seq<X>, gray: set<X>, n: nat, y: X)
    requires n < |stack| && stack[n] in R && y in R[stack[n]]
    requires GrayReach(R, stack, gray + {stack[n]}) && forall g :: g in gray ==> g in stack[..n]
    ensures forall g :: g in gray + {stack[n]} ==> Reaches(R, g, y)
  {
    hide Reaches;
    var x := stack[n];
    ReachesSelf(R, y);
    ReachesStep(R, x, y, y);
    forall g | g in gray ensures Reaches(R, g, y) {
      var i :| 0 <= i < n && stack[i] == g;
      assert LeadsUp(R, stack, i, n);
      ReachesTrans(R, g, x, y);
    }
  }

  lemma StackBound<X(!new)>(keys: set<X>, stack: seq<X>)
    requires Distinct(stack)
    requires forall i :: 0 <= i < |stack| ==> stack[i] in keys
    ensures |stack| <= |keys|
  {
    if stack != [] {
      var last := stack[|stack| - 1];
      DistinctPrefix(stack, |stack| - 1);
      forall i | 0 <= i < |stack| - 1 ensures stack[i] != last {
        assert Differ(stack, i, |stack| - 1);
      }
      StackBound(keys - {last}, stack[..|stack| - 1]);
    }
  }

  lemma DistinctPrefix<X(!new)>(stack: seq<X>, n: nat)
    requires Distinct(stack) && n <= |stack|
    ensures Distinct(stack[..n])
  {
    forall i, j | 0 <= i < j < n ensures Differ(stack[..n], i, j) {
      assert Differ(stack, i, j);
    }
  }

  lemma DistinctPush<X(!new)>(stack: seq<X>, x: X)
    requires Distinct(stack) && x !in stack
    ensures Distinct(stack + [x])
  {
    forall i, j | 0 <= i < j < |stack| + 1 ensures Differ(stack + [x], i, j) {
      assert j < |stack| ==> Differ(stack, i, j);
    }
  }

  lemma PushStamps<X(!new)>(R: map<X, seq<X>>, N: map<X, int>, stack: seq<X>, x: X)
    requires StampInv(R, N, stack) && x in N && N[x] == 0
    ensures StampInv(R, N[x := |stack| + 1], stack + [x])
    ensures |stack| + 1 <= |R|
    ensures LowInv(R, N, stack) ==> LowInv(R, N[x := |stack| + 1], stack + [x])
  {
    StackBound(R.Keys - {x}, stack);
    DistinctPush(stack, x);
    var N', stack' := N[x := |stack| + 1], stack + [x];
    if LowInv(R, N, stack) {
      ReachesSelf(R, x);
      forall i | 0 <= i < |stack'| ensures ReachesLow(R, N', stack', i) {
        assert i < |stack| ==> ReachesLow(R, N, stack, i);
      }
    }
  }

  lemma PushSets<X(!new), T>(R: map<X, seq<X>>, base: map<X, set<T>>, N: map<X, int>, L: map<X, set<T>>, x: X, d: nat)
    requires SetInv(R, base, N, L) && x in N && N[x] == 0 && d > 0
    ensures SetInv(R, base, N[x := d], L[x := base[x]])
  {
    ReachesSelf(R, x);
    forall a | a in base[x] ensures Required(R, base, x, a) {}
  }

  lemma PushDone<X(!new), T>(R: map<X, seq<X>>, N: map<X, int>, L: map<X, set<T>>, x: X, d: nat, Lx: set<T>)
    requires forall x :: x in L ==> x in N && N[x] != 0
    requires DoneInv(R, N, L) && x in N && N[x] == 0 && 0 < d < MAXINT
    ensures DoneInv(R, N[x := d], L[x := Lx])
  {
  }

  lemma PushOrder<X(!new), T>(R: map<X, seq<X>>, N: map<X, int>, stack: seq<X>, L: map<X, set<T>>, gray: set<X>, x: X)
    requires StampInv(R, N, stack) && OrderInv(R, stack, gray) && x in N && N[x] == 0
    requires ScanInv(R, N, stack, L, gray)
    ensures OrderInv(R, stack + [x], gray + {x})
  {
    var stack' := stack + [x];
    forall i, k | 0 <= i < k < |stack'| && stack'[i] !in gray + {x} && stack'[k] in gray + {x}
      ensures OldSuccessors(R, stack', i, k)
    {
      assert ScannedAt(R, N, stack, L, i);
      assert k < |stack| ==> OldSuccessors(R, stack, i, k);
      assert Looked(N, L, stack[i], x) || x !in R[stack[i]];
    }
  }

  lemma InvPush<X(!new), T>(R: map<X, seq<X>>, base: map<X, set<T>>, N: map<X, int>, stack: seq<X>,
                            L: map<X, set<T>>, gray: set<X>, x: X)
    requires Inv(R, base, N, stack, L, gray)
    requires x in N && N[x] == 0
    ensures Inv(R, base, N[x := |stack| + 1], stack + [x], L[x := base[x]], gray + {x})
    ensures |stack| + 1 <= |R| < MAXINT
  {
    var N', stack', L' := N[x := |stack| + 1], stack + [x], L[x := base[x]];
    PushStamps(R, N, stack, x);
    PushSets(R, base, N, L, x, |stack| + 1);
    PushDone(R, N, L, x, |stack| + 1, base[x]);
    PushOrder(R, N, stack, L, gray, x);
    forall i | 0 <= i < |stack'| && stack'[i] !in gray + {x} ensures ScannedAt(R, N', stack', L', i) {
      assert ScannedAt(R, N, stack, L, i);
      PushScanned(R, N, stack, L, i, x, base[x]);
    }
  }

  lemma PushScanned<X(!new), T>(R: map<X, seq<X>>, N: map<X, int>, stack: seq<X>, L: map<X, set<T>>, i: nat, x: X, Lx: set<T>)
    requires ScannedAt(R, N, stack, L, i) && x in N && N[x] == 0 && |stack| + 1 < MAXINT && x !in stack
    ensures ScannedAt(R, N[x := |stack| + 1], stack + [x], L[x := Lx], i)
  {
    var s := stack[i];
    assert (stack + [x])[i] == s;
    forall y | y in R[s] ensures Looked(N[x := |stack| + 1], L[x := Lx], s, y) {
      assert Looked(N, L, s, y);
    }
  }

  /** The stamp of `x` after looking at the edge to `y`. */
  function Lowered<X>(N: map<X, int>, x: X, y: X): map<X, int>
    requires x in N && y in N
  {
    N[x := if N[y] < N[x] then N[y] else N[x]]
  }

  lemma RelaxStamps<X(!new)>(R: map<X, seq<X>>, N: map<X, int>, stack: seq<X>, x: X, y: X)
    requires StampInv(R, N, stack)
    requires x in stack && y in R[x] && N[y] != 0
    ensures StampInv(R, Lowered(N, x, y), stack)
  {
  }

  lemma RelaxLow<X(!new)>(R: map<X, seq<X>>, N: map<X, int>, stack: seq<X>, x: X, y: X)
    requires StampInv(R, N, stack) && LowInv(R, N, stack)
    requires x in stack && y in R[x] && N[y] != 0
    requires StampInv(R, Lowered(N, x, y), stack)
    ensures LowInv(R, Lowered(N, x, y), stack)
  {
    if N[y] < N[x] {
      StackBound(R.Keys, stack);
      var j :| 0 <= j < |stack| && stack[j] == y;
      assert ReachesLow(R, N, stack, j);
      ReachesSelf(R, y);
      ReachesStep(R, x, y, y);
      ReachesTrans(R, x, y, stack[N[y] - 1]);
    }
    forall i | 0 <= i < |stack| ensures ReachesLow(R, Lowered(N, x, y), stack, i) {
      assert ReachesLow(R, N, stack, i);
    }
  }

  lemma RelaxSets<X(!new), T>(R: map<X, seq<X>>, base: map<X, set<T>>, N: map<X, int>, N': map<X, int>,
                              L: map<X, set<T>>, x: X, y: X)
    requires SetInv(R, base, N, L) && x in L && y in L && x in R && y in R[x]
    requires N'.Keys == N.Keys && forall z :: z in N ==> (N'[z] == 0 <==> N[z] == 0)
    ensures SetInv(R, base, N', L[x := L[x] + L[y]])
  {
    ReachesSelf(R, y);
    ReachesStep(R, x, y, y);
    forall a | a in L[y] ensures Required(R, base, x, a) {
      RequiredStep(R, base, x, y, a);
    }
  }

  lemma RelaxDone<X(!new), T>(R: map<X, seq<X>>, N: map<X, int>, N': map<X, int>, L: map<X, set<T>>, x: X, Lx: set<T>)
    requires N'.Keys == N.Keys && forall z :: z in N && z != x ==> N'[z] == N[z]
    requires DoneInv(R, N, L) && x in L && x in N && N[x] < MAXINT && 0 < N'[x] <= N[x]
    ensures DoneInv(R, N', L[x := Lx])
  {
  }

  /** The walk looks at the edge from the gray node `x` to the visited node `y`. */
  lemma InvRelax<X(!new), T>(R: map<X, seq<X>>, base: map<X, set<T>>, N: map<X, int>, stack: seq<X>,
                             L: map<X, set<T>>, gray: set<X>, x: X, y: X)
    requires Inv(R, base, N, stack, L, gray)
    requires x in gray && x in stack && y in R[x] && N[y] != 0
    ensures Inv(R, base, Lowered(N, x, y), stack, L[x := L[x] + L[y]], gray)
  {
    StackBound(R.Keys, stack);
    var N', L' := Lowered(N, x, y), L[x := L[x] + L[y]];
    RelaxStamps(R, N, stack, x, y);
    RelaxLow(R, N, stack, x, y);
    RelaxSets(R, base, N, N', L, x, y);
    RelaxDone(R, N, N', L, x, L[x] + L[y]);
    forall i | 0 <= i < |stack| && stack[i] !in gray ensures ScannedAt(R, N', stack, L', i) {
      assert ScannedAt(R, N, stack, L, i);
      RelaxScanned(R, N, N', stack, L, i, x, L[x] + L[y]);
    }
  }

  lemma RelaxScanned<X(!new), T>(R: map<X, seq<X>>, N: map<X, int>, N': map<X, int>, stack: seq<X>, L: map<X, set<T>>,
                                 i: nat, x: X, Lx: set<T>)
    requires ScannedAt(R, N, stack, L, i) && stack[i] != x && x in N && 0 < N[x] < MAXINT
    requires x in N' && N' == N[x := N'[x]] && 0 < N'[x] <= N[x]
    ensures ScannedAt(R, N', stack, L[x := Lx], i)
  {
    var s := stack[i];
    forall y | y in R[s] ensures Looked(N', L[x := Lx], s, y) {
      assert Looked(N, L, s, y);
    }
  }

  /** A node above a component root on the stack reaches the root. */
  lemma {:induction false} ReachesRoot<X(!new)>(R: map<X, seq<X>>, N: map<X, int>, stack: seq<X>, d: nat, i: nat)
    requires StampInv(R, N, stack) && LowInv(R, N, stack)
    requires 1 <= d && d - 1 <= i < |stack|
    requires forall j :: d <= j < |stack| ==> d <= N[stack[j]] <= j
    ensures Reaches(R, stack[i], stack[d - 1])
    decreases i
  {
    if i == d - 1 {
      ReachesSelf(R, stack[i]);
    } else {
      assert ReachesLow(R, N, stack, i);
      var k := N[stack[i]] - 1;
      ReachesRoot(R, N, stack, d, k);
      ReachesTrans(R, stack[i], stack[k], stack[d - 1]);
    }
  }

  /** `m` with every node of `top` sent to `v`. */
  function Retarget<X, V>(m: map<X, V>, top: seq<X>, v: V): map<X, V> {
    map x | x in m :: if x in top then v else m[x]
  }

  /** The maps after the stack has been popped down to height `n` on behalf of `x`. */
  ghost predicate PoppedTo<X(!new), T>(N0: map<X, int>, F0: map<X, nat>, L0: map<X, set<T>>, stack0: seq<X>, x: X,
                                       n: nat, N: map<X, int>, F: map<X, nat>, L: map<X, set<T>>)
  {
    && n <= |stack0| && x in F0 && x in L0
    && N == Retarget(N0, stack0[n..], MAXINT)
    && F == Retarget(F0, stack0[n..], F0[x])
    && L == Retarget(L0, stack0[n..], L0[x])
  }

  lemma PopNothing<X(!new), T>(N: map<X, int>, F: map<X, nat>, L: map<X, set<T>>, stack: seq<X>, x: X)
    requires x in F && x in L
    ensures PoppedTo(N, F, L, stack, x, |stack|, N, F, L)
  {
  }

  lemma PoppedMaps<X(!new), T>(N0: map<X, int>, F0: map<X, nat>, L0: map<X, set<T>>, stack0: seq<X>, x: X,
                               n: nat, N: map<X, int>, F: map<X, nat>, L: map<X, set<T>>)
    requires PoppedTo(N0, F0, L0, stack0, x, n, N, F, L)
    ensures n <= |stack0| && x in F0 && x in L0
    ensures N == Retarget(N0, stack0[n..], MAXINT)
    ensures F == Retarget(F0, stack0[n..], F0[x])
    ensures L == Retarget(L0, stack0[n..], L0[x])
  {
  }

  lemma RetargetMore<X, V>(m: map<X, V>, stack: seq<X>, n: nat, v: V)
    requires 1 <= n <= |stack| && stack[n - 1] in m
    ensures Retarget(m, stack[n - 1..], v) == Retarget(m, stack[n..], v)[stack[n - 1] := v]
  {
    assert stack[n - 1..] == [stack[n - 1]] + stack[n..];
  }

  lemma PopMore<X(!new), T>(N0: map<X, int>, F0: map<X, nat>, L0: map<X, set<T>>, stack0: seq<X>, x: X,
                            n: nat, N: map<X, int>, F: map<X, nat>, L: map<X, set<T>>)
    requires PoppedTo(N0, F0, L0, stack0, x, n, N, F, L) && 0 < n
    requires stack0[n - 1] in N0 && stack0[n - 1] in F0 && stack0[n - 1] in L0
    ensures x in F && x in L && x in F[stack0[n - 1] := F[x]] && x in L[stack0[n - 1] := L[x]]
    ensures var s := stack0[n - 1];
      PoppedTo(N0, F0, L0, stack0, x, n - 1, N[s := MAXINT], F[s := F[x]], L[s := L[x]])
  {
    RetargetMore(N0, stack0, n, MAXINT);
    RetargetMore(F0, stack0, n, F0[x]);
    RetargetMore(L0, stack0, n, L0[x]);
  }

  /** The root `x` at height `d` has been scanned and its stamp is still `d`, while the nodes above
      it only reach the stack at `d` or higher and hold no more than the root's set. */
  ghost predicate RootReady<X(!new), T>(R: map<X, seq<X>>, base: map<X, set<T>>, N: map<X, int>, stack: seq<X>,
                                        L: map<X, set<T>>, gray: set<X>, x: X, d: nat)
  {
    && Inv(R, base, N, stack, L, gray + {x}) && x !in gray
    && 1 <= d <= |stack| && stack[d - 1] == x && N[x] == d
    && Scanned(R, N, stack, L, x)
    && (forall j :: d <= j < |stack| ==> stack[j] !in gray && N[stack[j]] >= d && L[stack[j]] <= L[x])
  }

  lemma InTop<X>(stack: seq<X>, d: nat, s: X)
    requires 1 <= d <= |stack|
    ensures s in stack[d - 1..] <==> exists i :: d - 1 <= i < |stack| && stack[i] == s
  {
    if s in stack[d - 1..] {
      var k :| 0 <= k < |stack[d - 1..]| && stack[d - 1..][k] == s;
      assert stack[d - 1 + k] == s;
    }
    if i :| d - 1 <= i < |stack| && stack[i] == s {
      assert stack[d - 1..][i - (d - 1)] == s;
    }
  }

  lemma NotInTop<X(!new)>(stack: seq<X>, d: nat, i: nat)
    requires Distinct(stack) && i + 1 < d <= |stack|
    ensures stack[i] !in stack[d - 1..]
  {
    forall j | d - 1 <= j < |stack| ensures stack[j] != stack[i] {
      assert Differ(stack, i, j);
    }
    InTop(stack, d, stack[i]);
  }

  lemma PopStamps<X(!new)>(R: map<X, seq<X>>, N: map<X, int>, stack: seq<X>, d: nat)
    requires StampInv(R, N, stack) && LowInv(R, N, stack) && 1 <= d <= |stack|
    ensures StampInv(R, Retarget(N, stack[d - 1..], MAXINT), stack[..d - 1])
    ensures LowInv(R, Retarget(N, stack[d - 1..], MAXINT), stack[..d - 1])
  {
    hide Reaches, Distinct;
    var N', rest := Retarget(N, stack[d - 1..], MAXINT), stack[..d - 1];
    DistinctPrefix(stack, d - 1);
    forall s | s in stack ensures s in rest || s in stack[d - 1..] {
      InTop(stack, d, s);
    }
    forall i | 0 <= i < |rest| ensures rest[i] !in stack[d - 1..] && ReachesLow(R, N', rest, i) {
      NotInTop(stack, d, i);
      assert ReachesLow(R, N, stack, i);
    }
  }

  lemma PopSets<X(!new), T>(R: map<X, seq<X>>, base: map<X, set<T>>, N: map<X, int>, L: map<X, set<T>>,
                            top: seq<X>, x: X)
    requires SetInv(R, base, N, L) && x in L
    requires forall s :: s in top ==> s in L && L[s] <= L[x] && Reaches(R, s, x)
    ensures SetInv(R, base, Retarget(N, top, MAXINT), Retarget(L, top, L[x]))
  {
    forall s, a | s in top && a in L[x] ensures Required(R, base, s, a) {
      RequiredStep(R, base, s, x, a);
    }
  }

  lemma TopReachesRoot<X(!new), T>(R: map<X, seq<X>>, base: map<X, set<T>>, N: map<X, int>, stack: seq<X>,
                                   L: map<X, set<T>>, gray: set<X>, x: X, d: nat, s: X)
    requires RootReady(R, base, N, stack, L, gray, x, d) && s in stack[d - 1..]
    ensures s in L && L[s] <= L[x] && Reaches(R, s, x)
  {
    InTop(stack, d, s);
    var i :| d - 1 <= i < |stack| && stack[i] == s;
    ReachesRoot(R, N, stack, d, i);
  }

  /** The successor `y` of `s` is popped together with it or was finished before. */
  ghost predicate PopEdge<X(!new), T>(N: map<X, int>, L: map<X, set<T>>, top: seq<X>, x: X, s: X, y: X) {
    && y in L && s in L && x in L && y in N
    && (s in top ==> y in top || (N[y] == MAXINT && L[y] <= L[x]))
    && (s !in top ==> y !in top && Included(N, L, s, y))
  }

  lemma PopSuccessor<X(!new), T>(R: map<X, seq<X>>, base: map<X, set<T>>, N: map<X, int>, stack: seq<X>,
                                 L: map<X, set<T>>, gray: set<X>, x: X, d: nat, s: X, y: X)
    requires RootReady(R, base, N, stack, L, gray, x, d)
    requires s in N && (N[s] == MAXINT || s in stack[d - 1..]) && y in R[s]
    ensures PopEdge(N, L, stack[d - 1..], x, s, y)
  {
    StackBound(R.Keys, stack);
    InTop(stack, d, s);
    InTop(stack, d, y);
    if s in stack[d - 1..] {
      var i :| d - 1 <= i < |stack| && stack[i] == s;
      assert i >= d ==> ScannedAt(R, N, stack, L, i);
      assert Scanned(R, N, stack, L, s);
      assert Looked(N, L, s, y);
      if y in stack {
        var j :| 0 <= j < |stack| && stack[j] == y;
        assert N[s] <= j + 1;
      }
    } else {
      assert Included(N, L, s, y);
    }
  }

  lemma PopDone<X(!new), T>(R: map<X, seq<X>>, N: map<X, int>, L: map<X, set<T>>, top: seq<X>, x: X)
    requires forall s, y :: s in N && s in R && (N[s] == MAXINT || s in top) && y in R[s] ==> PopEdge(N, L, top, x, s, y)
    requires x in L && x in top
    ensures DoneInv(R, Retarget(N, top, MAXINT), Retarget(L, top, L[x]))
  {
    var N', L' := Retarget(N, top, MAXINT), Retarget(L, top, L[x]);
    forall s, y | s in N' && N'[s] == MAXINT && s in R && y in R[s] ensures Included(N', L', s, y) {
      assert PopEdge(N, L, top, x, s, y);
    }
  }

  lemma PopScanned<X(!new), T>(R: map<X, seq<X>>, N: map<X, int>, stack: seq<X>, L: map<X, set<T>>,
                               gray: set<X>, x: X, d: nat, i: nat)
    requires StampInv(R, N, stack) && ScanInv(R, N, stack, L, gray) && OrderInv(R, stack, gray)
    requires 1 <= d <= |stack| && stack[d - 1] == x && x in gray && x in L
    requires i < d - 1 && stack[i] !in gray
    ensures ScannedAt(R, Retarget(N, stack[d - 1..], MAXINT), stack[..d - 1], Retarget(L, stack[d - 1..], L[x]), i)
  {
    var s := stack[i];
    NotInTop(stack, d, i);
    assert ScannedAt(R, N, stack, L, i);
    assert OldSuccessors(R, stack, i, d - 1);
    var N', L' := Retarget(N, stack[d - 1..], MAXINT), Retarget(L, stack[d - 1..], L[x]);
    forall y | y in R[s] ensures Looked(N', L', s, y) {
      InTop(stack, d, y);
      assert Looked(N, L, s, y);
    }
  }

  /** Everything from the root upwards is one component and is finished with the root's set. */
  lemma InvPop<X(!new), T>(R: map<X, seq<X>>, base: map<X, set<T>>, N: map<X, int>, stack: seq<X>,
                           L: map<X, set<T>>, gray: set<X>, x: X, d: nat)
    requires RootReady(R, base, N, stack, L, gray, x, d)
    ensures Inv(R, base, Retarget(N, stack[d - 1..], MAXINT), stack[..d - 1], Retarget(L, stack[d - 1..], L[x]), gray)
  {
    var top, rest := stack[d - 1..], stack[..d - 1];
    var N', L' := Retarget(N, top, MAXINT), Retarget(L, top, L[x]);
    PopStamps(R, N, stack, d);
    forall s | s in top ensures s in L && L[s] <= L[x] && Reaches(R, s, x) {
      TopReachesRoot(R, base, N, stack, L, gray, x, d, s);
    }
    PopSets(R, base, N, L, top, x);
    forall s, y | s in N && s in R && (N[s] == MAXINT || s in top) && y in R[s] ensures PopEdge(N, L, top, x, s, y) {
      PopSuccessor(R, base, N, stack, L, gray, x, d, s, y);
    }
    InTop(stack, d, x);
    PopDone(R, N, L, top, x);
    forall i | 0 <= i < |rest| && rest[i] !in gray ensures ScannedAt(R, N', rest, L', i) {
      assert Differ(stack, i, d - 1);
      PopScanned(R, N, stack, L, gray + {x}, x, d, i);
    }
    forall i, k | 0 <= i < k < |rest| && rest[i] !in gray && rest[k] in gray ensures OldSuccessors(R, rest, i, k) {
      assert Differ(stack, i, d - 1);
      assert OldSuccessors(R, stack, i, k);
    }
  }

  /** The node at height `i + 1` reaches the stack no lower than `x` does and its set is within `x`'s. */
  ghost predicate Dominated<X(!new), T>(N: map<X, int>, stack: seq<X>, L: map<X, set<T>>, gray: set<X>, x: X, i: nat) {
    && i < |stack| && stack[i] !in gray
    && stack[i] in N && x in N && N[x] <= N[stack[i]]
    && stack[i] in L && x in L && L[stack[i]] <= L[x]
  }

  lemma DominatesSelf<X(!new), T>(N: map<X, int>, stack: seq<X>, L: map<X, set<T>>, gray: set<X>, i: nat)
    requires i < |stack| && stack[i] in N && stack[i] in L && stack[i] !in gray
    ensures Dominated(N, stack, L, gray, stack[i], i)
  {
  }

  lemma ReadyToPop<X(!new), T>(R: map<X, seq<X>>, base: map<X, set<T>>, N: map<X, int>, stack: seq<X>,
                               L: map<X, set<T>>, gray: set<X>, x: X, d: nat)
    requires Inv(R, base, N, stack, L, gray + {x}) && x !in gray
    requires 1 <= d <= |stack| && stack[d - 1] == x && N[x] == d && Scanned(R, N, stack, L, x)
    requires forall i :: d <= i < |stack| ==> Dominated(N, stack, L, gray, x, i)
    ensures RootReady(R, base, N, stack, L, gray, x, d)
  {
    forall i | d <= i < |stack| ensures stack[i] !in gray && N[stack[i]] >= d && L[stack[i]] <= L[x] {
      assert Dominated(N, stack, L, gray, x, i);
    }
  }

  /** `x` has been scanned but reaches below itself: it stays on the stack as part of a larger component. */
  lemma InvKeep<X(!new), T>(R: map<X, seq<X>>, base: map<X, set<T>>, N: map<X, int>, stack: seq<X>,
                            L: map<X, set<T>>, gray: set<X>, x: X, d: nat)
    requires Inv(R, base, N, stack, L, gray + {x})
    requires 1 <= d <= |stack| && stack[d - 1] == x && N[x] < d && Scanned(R, N, stack, L, x)
    requires forall i :: d <= i < |stack| ==> Dominated(N, stack, L, gray, x, i)
    ensures Inv(R, base, N, stack, L, gray)
  {
    forall i | 0 <= i < |stack| && stack[i] !in gray ensures ScannedAt(R, N, stack, L, i) {
      if i < d - 1 {
        assert Differ(stack, i, d - 1);
      } else if i >= d {
        assert Differ(stack, d - 1, i);
      }
    }
    forall i, k | 0 <= i < k < |stack| && stack[i] !in gray && stack[k] in gray ensures OldSuccessors(R, stack, i, k) {
      assert k >= d ==> Dominated(N, stack, L, gray, x, k);
      if k < d - 1 {
        assert Differ(stack, i, d - 1);
      }
    }
  }

  /** What a visit leaves alone: the stack below it, and everything about nodes visited before. */
  ghost predicate Extends<X(!new), T>(stack0: seq<X>, N0: map<X, int>, L0: map<X, set<T>>, F0: map<X, nat>,
                                      stack: seq<X>, N: map<X, int>, L: map<X, set<T>>, F: map<X, nat>)
  {
    && stack0 <= stack
    && (forall v :: v in L0 ==> Kept(N0, L0, F0, N, L, F, v))
  }

  ghost predicate Kept<X(!new), T>(N0: map<X, int>, L0: map<X, set<T>>, F0: map<X, nat>,
                                   N: map<X, int>, L: map<X, set<T>>, F: map<X, nat>, v: X)
  {
    && v in L0 && v in N0 && v in F0 && v in L && v in N && v in F
    && N[v] == N0[v] && L[v] == L0[v] && F[v] == F0[v]
  }

  /** The edge from the node being scanned to `y` has been followed. */
  ghost predicate EdgeDone<X(!new), T>(N: map<X, int>, stack: seq<X>, L: map<X, set<T>>, x: X, y: X) {
    && x in N && Looked(N, L, x, y)
    && (forall i :: 0 <= i < |stack| && stack[i] == y ==> N[x] <= i + 1)
  }

  /** The state of the scan of `x`, pushed on top of `stack0`, after the first `k` edges. */
  ghost predicate Scanning<X(!new), T>(stack0: seq<X>, N0: map<X, int>, L0: map<X, set<T>>, F0: map<X, nat>,
                                       stack: seq<X>, N: map<X, int>, L: map<X, set<T>>, F: map<X, nat>,
                                       gray: set<X>, x: X, rel: seq<X>, k: nat)
  {
    && |stack0| < |stack| && stack[|stack0|] == x && x !in L0
    && x in N && N[x] <= |stack0| + 1 && x in L
    && Extends(stack0, N0, L0, F0, stack, N, L, F)
    && (forall i :: |stack0| < i < |stack| ==> Dominated(N, stack, L, gray, x, i))
    && k <= |rel| && (forall j :: 0 <= j < k ==> EdgeDone(N, stack, L, x, rel[j]))
  }

  lemma ExtendsTrans<X(!new), T>(s0: seq<X>, N0: map<X, int>, L0: map<X, set<T>>, F0: map<X, nat>,
                                 s1: seq<X>, N1: map<X, int>, L1: map<X, set<T>>, F1: map<X, nat>,
                                 s2: seq<X>, N2: map<X, int>, L2: map<X, set<T>>, F2: map<X, nat>)
    requires Extends(s0, N0, L0, F0, s1, N1, L1, F1) && Extends(s1, N1, L1, F1, s2, N2, L2, F2)
    ensures Extends(s0, N0, L0, F0, s2, N2, L2, F2)
  {
    forall v | v in L0 ensures Kept(N0, L0, F0, N2, L2, F2, v) {
      assert Kept(N0, L0, F0, N1, L1, F1, v) && Kept(N1, L1, F1, N2, L2, F2, v);
    }
  }

  lemma EdgeKept<X(!new), T>(s1: seq<X>, N1: map<X, int>, L1: map<X, set<T>>, F1: map<X, nat>,
                             s2: seq<X>, N2: map<X, int>, L2: map<X, set<T>>, F2: map<X, nat>, x: X, y: X)
    requires EdgeDone(N1, s1, L1, x, y) && Extends(s1, N1, L1, F1, s2, N2, L2, F2)
    requires x in L1 && y in L1 && Distinct(s2)
    requires forall i :: 0 <= i < |s2| && s2[i] in N2 ==> N2[s2[i]] != MAXINT
    requires y in s1 || (y in N1 && N1[y] == MAXINT)
    ensures EdgeDone(N2, s2, L2, x, y)
  {
    assert Kept(N1, L1, F1, N2, L2, F2, x) && Kept(N1, L1, F1, N2, L2, F2, y);
    forall i | 0 <= i < |s2| && s2[i] == y ensures N2[x] <= i + 1 {
      if j :| 0 <= j < |s1| && s1[j] == y {
        assert s2[j] == y;
        assert i < j ==> Differ(s2, i, j);
        assert j < i ==> Differ(s2, j, i);
      }
    }
  }

  /** The visit of the next successor `y` keeps the scan of `x`; the new nodes are dominated by `y`. */
  lemma ScanVisit<X(!new), T>(R: map<X, seq<X>>, base: map<X, set<T>>, stack0: seq<X>, N0: map<X, int>, L0: map<X, set<T>>,
                              F0: map<X, nat>, s1: seq<X>, N1: map<X, int>, L1: map<X, set<T>>, F1: map<X, nat>,
                              s2: seq<X>, N2: map<X, int>, L2: map<X, set<T>>, F2: map<X, nat>,
                              gray: set<X>, x: X, rel: seq<X>, k: nat)
    requires Scanning(stack0, N0, L0, F0, s1, N1, L1, F1, gray, x, rel, k)
    requires Inv(R, base, N1, s1, L1, gray + {x}) && Inv(R, base, N2, s2, L2, gray + {x})
    requires Extends(s1, N1, L1, F1, s2, N2, L2, F2)
    ensures Extends(stack0, N0, L0, F0, s2, N2, L2, F2)
    ensures |stack0| < |s2| && s2[|stack0|] == x && x in N2 && N2[x] == N1[x] && x in L2
    ensures forall i :: |stack0| < i < |s1| ==> Dominated(N2, s2, L2, gray, x, i)
    ensures forall j :: 0 <= j < k ==> EdgeDone(N2, s2, L2, x, rel[j])
  {
    ExtendsTrans(stack0, N0, L0, F0, s1, N1, L1, F1, s2, N2, L2, F2);
    assert Kept(N1, L1, F1, N2, L2, F2, x);
    forall i | |stack0| < i < |s1| ensures Dominated(N2, s2, L2, gray, x, i) {
      assert Dominated(N1, s1, L1, gray, x, i);
      assert Kept(N1, L1, F1, N2, L2, F2, s1[i]);
    }
    StackBound(R.Keys, s2);
    forall j | 0 <= j < k ensures EdgeDone(N2, s2, L2, x, rel[j]) {
      assert EdgeDone(N1, s1, L1, x, rel[j]);
      EdgeKept(s1, N1, L1, F1, s2, N2, L2, F2, x, rel[j]);
    }
  }

  /** The scan of `x` with its next successor visited: what is above `x` is dominated by one of the two. */
  ghost predicate Visited<X(!new), T>(stack0: seq<X>, N0: map<X, int>, L0: map<X, set<T>>, F0: map<X, nat>,
                                      stack: seq<X>, N: map<X, int>, L: map<X, set<T>>, F: map<X, nat>,
                                      gray: set<X>, x: X, rel: seq<X>, k: nat)
  {
    && Extends(stack0, N0, L0, F0, stack, N, L, F)
    && |stack0| < |stack| && stack[|stack0|] == x && x !in L0 && x in N && x in L && N[x] <= |stack0| + 1
    && k < |rel| && rel[k] in N && N[rel[k]] != 0
    && (forall i :: |stack0| < i < |stack| ==>
          Dominated(N, stack, L, gray, x, i) || Dominated(N, stack, L, gray, rel[k], i))
    && (forall j :: 0 <= j < k ==> EdgeDone(N, stack, L, x, rel[j]))
  }

  lemma VisitedBefore<X(!new), T>(stack0: seq<X>, N0: map<X, int>, L0: map<X, set<T>>, F0: map<X, nat>,
                                  stack: seq<X>, N: map<X, int>, L: map<X, set<T>>, F: map<X, nat>,
                                  gray: set<X>, x: X, rel: seq<X>, k: nat)
    requires Scanning(stack0, N0, L0, F0, stack, N, L, F, gray, x, rel, k)
    requires k < |rel| && rel[k] in N && N[rel[k]] != 0
    ensures Visited(stack0, N0, L0, F0, stack, N, L, F, gray, x, rel, k)
  {
  }

  lemma VisitedNow<X(!new), T>(R: map<X, seq<X>>, base: map<X, set<T>>, stack0: seq<X>, N0: map<X, int>, L0: map<X, set<T>>,
                               F0: map<X, nat>, s1: seq<X>, N1: map<X, int>, L1: map<X, set<T>>, F1: map<X, nat>,
                               s2: seq<X>, N2: map<X, int>, L2: map<X, set<T>>, F2: map<X, nat>,
                               gray: set<X>, x: X, rel: seq<X>, k: nat)
    requires Scanning(stack0, N0, L0, F0, s1, N1, L1, F1, gray, x, rel, k)
    requires Inv(R, base, N1, s1, L1, gray + {x}) && Inv(R, base, N2, s2, L2, gray + {x})
    requires Extends(s1, N1, L1, F1, s2, N2, L2, F2)
    requires k < |rel| && rel[k] in N2 && N2[rel[k]] != 0
    requires N2[rel[k]] == MAXINT ==> s2 == s1
    requires N2[rel[k]] != MAXINT ==> forall i :: |s1| <= i < |s2| ==> Dominated(N2, s2, L2, gray + {x}, rel[k], i)
    ensures Visited(stack0, N0, L0, F0, s2, N2, L2, F2, gray, x, rel, k)
  {
    hide Inv, Extends, EdgeDone;
    ScanVisit(R, base, stack0, N0, L0, F0, s1, N1, L1, F1, s2, N2, L2, F2, gray, x, rel, k);
    forall i | |stack0| < i < |s2|
      ensures Dominated(N2, s2, L2, gray, x, i) || Dominated(N2, s2, L2, gray, rel[k], i)
    {
      assert i >= |s1| ==> Dominated(N2, s2, L2, gray + {x}, rel[k], i);
    }
  }

  /** Following the edge to the visited node `y` moves the scan of `x` one edge on. */
  lemma ScanRelax<X(!new), T>(R: map<X, seq<X>>, base: map<X, set<T>>, stack0: seq<X>, N0: map<X, int>, L0: map<X, set<T>>,
                              F0: map<X, nat>, stack: seq<X>, N: map<X, int>, L: map<X, set<T>>, F: map<X, nat>,
                              gray: set<X>, x: X, rel: seq<X>, k: nat)
    requires Inv(R, base, N, stack, L, gray + {x})
    requires Visited(stack0, N0, L0, F0, stack, N, L, F, gray, x, rel, k)
    ensures rel[k] in L
    ensures Scanning(stack0, N0, L0, F0, stack, Lowered(N, x, rel[k]), L[x := L[x] + L[rel[k]]], F, gray, x, rel, k + 1)
  {
    var y := rel[k];
    var N', L' := Lowered(N, x, y), L[x := L[x] + L[y]];
    forall v | v in L0 ensures Kept(N0, L0, F0, N', L', F, v) {
      assert Kept(N0, L0, F0, N, L, F, v);
    }
    forall i | |stack0| < i < |stack| ensures Dominated(N', stack, L', gray, x, i) {
      assert Differ(stack, |stack0|, i);
      assert Dominated(N, stack, L, gray, x, i) || Dominated(N, stack, L, gray, y, i);
    }
    forall j | 0 <= j < k + 1 ensures EdgeDone(N', stack, L', x, rel[j]) {
      if j < k {
        assert EdgeDone(N, stack, L, x, rel[j]);
      } else {
        RelaxedEdge(R, base, N, stack, L, gray + {x}, x, y);
      }
    }
  }

  lemma RelaxedEdge<X(!new), T>(R: map<X, seq<X>>, base: map<X, set<T>>, N: map<X, int>, stack: seq<X>,
                                L: map<X, set<T>>, gray: set<X>, x: X, y: X)
    requires Inv(R, base, N, stack, L, gray) && x in stack && y in N && N[y] != 0
    ensures x in L && y in L && EdgeDone(Lowered(N, x, y), stack, L[x := L[x] + L[y]], x, y)
  {
    StackBound(R.Keys, stack);
  }

  lemma ScanStart<X(!new), T>(R: map<X, seq<X>>, base: map<X, set<T>>, N: map<X, int>, stack: seq<X>, L: map<X, set<T>>,
                              F: map<X, nat>, gray: set<X>, x: X, rel: seq<X>, r: nat)
    requires Inv(R, base, N, stack, L, gray) && x in N && N[x] == 0 && F.Keys == L.Keys
    ensures x in base
    ensures Scanning(stack, N, L, F, stack + [x], N[x := |stack| + 1], L[x := base[x]], F[x := r], gray, x, rel, 0)
  {
  }

  /** What the scan of a node may rely on. */
  lemma InvFacts<X(!new), T>(R: map<X, seq<X>>, base: map<X, set<T>>, N: map<X, int>, stack: seq<X>,
                             L: map<X, set<T>>, gray: set<X>)
    requires Inv(R, base, N, stack, L, gray)
    ensures N.Keys == R.Keys == base.Keys && L.Keys <= R.Keys && Distinct(stack) && |stack| <= |R| < MAXINT
    ensures forall x, y :: x in R && y in R[x] ==> y in N
    ensures forall x :: x in N ==> (x in L <==> N[x] != 0)
    ensures forall x :: x in stack ==> x in N && x in L && 0 < N[x] < MAXINT
    ensures forall x :: x in N ==> 0 <= N[x] <= MAXINT
    ensures forall x :: x in N && x !in stack ==> N[x] == 0 || N[x] == MAXINT
  {
    StackBound(R.Keys, stack);
  }

  lemma ScanFacts<X(!new), T>(stack0: seq<X>, N0: map<X, int>, L0: map<X, set<T>>, F0: map<X, nat>,
                              stack: seq<X>, N: map<X, int>, L: map<X, set<T>>, F: map<X, nat>,
                              gray: set<X>, x: X, rel: seq<X>, k: nat)
    requires Scanning(stack0, N0, L0, F0, stack, N, L, F, gray, x, rel, k)
    ensures |stack0| < |stack| && stack[|stack0|] == x && stack0 <= stack && x !in L0 && x in N && N[x] <= |stack0| + 1 && x in L
    ensures L0.Keys <= L.Keys && k <= |rel|
    ensures Extends(stack0, N0, L0, F0, stack, N, L, F)
    ensures forall i :: |stack0| < i < |stack| ==> Dominated(N, stack, L, gray, x, i)
    ensures forall j :: 0 <= j < k ==> EdgeDone(N, stack, L, x, rel[j])
  {
    forall v | v in L0 ensures v in L {
      assert Kept(N0, L0, F0, N, L, F, v);
    }
  }

  lemma ScanSpot<X(!new), T>(stack0: seq<X>, N0: map<X, int>, L0: map<X, set<T>>, F0: map<X, nat>,
                             stack: seq<X>, N: map<X, int>, L: map<X, set<T>>, F: map<X, nat>,
                             gray: set<X>, x: X, rel: seq<X>, k: nat)
    requires Scanning(stack0, N0, L0, F0, stack, N, L, F, gray, x, rel, k)
    ensures x in stack && x in L && x !in L0 && L0.Keys <= L.Keys && forall g :: g in stack0 ==> g in stack
  {
    ScanFacts(stack0, N0, L0, F0, stack, N, L, F, gray, x, rel, k);
  }

  lemma VisitedSpot<X(!new), T>(stack0: seq<X>, N0: map<X, int>, L0: map<X, set<T>>, F0: map<X, nat>,
                                stack: seq<X>, N: map<X, int>, L: map<X, set<T>>, F: map<X, nat>,
                                gray: set<X>, x: X, rel: seq<X>, k: nat)
    requires Visited(stack0, N0, L0, F0, stack, N, L, F, gray, x, rel, k)
    ensures x in stack && k < |rel| && rel[k] in N && N[rel[k]] != 0
  {
  }

  /** The scan has followed every edge. */
  lemma ScanEnd<X(!new), T>(R: map<X, seq<X>>, base: map<X, set<T>>, stack0: seq<X>, N0: map<X, int>, L0: map<X, set<T>>,
                            F0: map<X, nat>, stack: seq<X>, N: map<X, int>, L: map<X, set<T>>, F: map<X, nat>,
                            gray: set<X>, x: X)
    requires Inv(R, base, N, stack, L, gray + {x}) && x in R
    requires Scanning(stack0, N0, L0, F0, stack, N, L, F, gray, x, R[x], |R[x]|)
    ensures Scanned(R, N, stack, L, x)
  {
    forall y | y in R[x] ensures EdgeDone(N, stack, L, x, y) {
      var j :| 0 <= j < |R[x]| && R[x][j] == y;
    }
  }

  /** Popping the component of `x` leaves everything visited before the visit of `x` alone. */
  lemma PopExtends<X(!new), T>(R: map<X, seq<X>>, base: map<X, set<T>>, stack0: seq<X>, N0: map<X, int>, L0: map<X, set<T>>,
                               F0: map<X, nat>, stack: seq<X>, N: map<X, int>, L: map<X, set<T>>, F: map<X, nat>,
                               gray: set<X>, x: X)
    requires Inv(R, base, N0, stack0, L0, gray) && Inv(R, base, N, stack, L, gray + {x}) && F.Keys == L.Keys
    requires Extends(stack0, N0, L0, F0, stack, N, L, F)
    requires |stack0| < |stack| && stack[|stack0|] == x && x !in L0 && x in L
    ensures var top := stack[|stack0|..];
      Extends(stack0, N0, L0, F0, stack[..|stack0|], Retarget(N, top, MAXINT), Retarget(L, top, L[x]), Retarget(F, top, F[x]))
    ensures Retarget(N, stack[|stack0|..], MAXINT)[x] == MAXINT
  {
    StackBound(R.Keys, stack);
    var top := stack[|stack0|..];
    forall v | v in L0
      ensures Kept(N0, L0, F0, Retarget(N, top, MAXINT), Retarget(L, top, L[x]), Retarget(F, top, F[x]), v)
    {
      assert Kept(N0, L0, F0, N, L, F, v);
      InTop(stack, |stack0| + 1, v);
      if v in stack0 {
        var j :| 0 <= j < |stack0| && stack0[j] == v;
        NotInTop(stack, |stack0| + 1, j);
      }
    }
    InTop(stack, |stack0| + 1, x);
  }

  /** With nothing being scanned, the lowest node of the stack would have to point below itself. */
  lemma NothingStacked<X(!new), T>(R: map<X, seq<X>>, base: map<X, set<T>>, N: map<X, int>, stack: seq<X>, L: map<X, set<T>>)
    requires Inv(R, base, N, stack, L, {})
    ensures stack == []
  {
    assert stack != [] ==> ScannedAt(R, N, stack, L, 0);
  }

  // ----- The lists that F refers to -----

  ghost predicate Unaliased<X(!new)>(FP: map<X, nat>) {
    forall x, y :: x in FP && y in FP && x != y ==> FP[x] != FP[y]
  }

  /** The entries of `xs` whose initial list is the one of `x`. */
  function Sharing<X(==, !new)>(FP: map<X, nat>, xs: seq<X>, x: X): (ys: seq<X>)
    requires x in FP
    ensures forall y :: y in ys <==> y in xs && y in FP && FP[y] == FP[x]
  {
    if xs == [] then []
    else
      var ys := Sharing(FP, xs[1..], x);
      if xs[0] in FP && FP[xs[0]] == FP[x] then [xs[0]] + ys else ys
  }

  /** `R` together with an edge between any two nodes that share an initial list. */
  ghost function WithSharing<X(!new)>(R: map<X, seq<X>>, FP: map<X, nat>, xs: seq<X>): (S: map<X, seq<X>>)
  {
    map x | x in R :: R[x] + if x in FP then Sharing(FP, xs, x) else []
  }

  /** Every list holds at least the set its node is accountable for. */
  ghost predicate ListsCover<X(!new), T>(base: map<X, set<T>>, FP: map<X, nat>, N: map<X, int>, L: map<X, set<T>>,
                                         F: map<X, nat>, lists: seq<seq<T>>)
  {
    && FP.Keys == base.Keys == N.Keys
    && F.Keys == L.Keys && L.Keys <= N.Keys
    && (forall x :: x in FP ==> FP[x] < |lists|)
    && (forall x :: x in F ==> F[x] < |lists|)
    && (forall x :: x in N && N[x] == 0 ==> base[x] <= Elems(lists[FP[x]]))
    && (forall x :: x in F ==> L[x] <= Elems(lists[F[x]]))
  }

  /** No list holds more than the relation `S`, which knows about sharing, requires of the nodes that
      started with it. A node being walked refers to its own initial list, any other to one that it
      reaches. */
  ghost predicate ListsBound<X(!new), T>(S: map<X, seq<X>>, base: map<X, set<T>>, FP: map<X, nat>, N: map<X, int>,
                                         F: map<X, nat>, lists: seq<seq<T>>)
  {
    && (forall x :: x in FP ==> ListWithin(S, base, FP, lists, x))
    && (forall x :: x in F ==> Inherits(S, FP, F, x))
    && (forall x :: x in F && x in FP && x in N && N[x] != MAXINT ==> F[x] == FP[x])
  }

  ghost predicate ListWithin<X(!new), T>(S: map<X, seq<X>>, base: map<X, set<T>>, FP: map<X, nat>, lists: seq<seq<T>>, x: X) {
    x in FP && FP[x] < |lists| && forall a :: a in lists[FP[x]] ==> Required(S, base, x, a)
  }

  /** The list of `x` is the initial list of a node of its component. */
  ghost predicate Inherits<X(!new)>(S: map<X, seq<X>>, FP: map<X, nat>, F: map<X, nat>, x: X) {
    exists w :: w in FP && x in F && FP[w] == F[x] && Reaches(S, x, w) && Reaches(S, w, x)
  }

  /** Nodes end up with one list only if they reach each other, by way of shared initial lists perhaps. */
  ghost predicate SharedWithin<X(!new)>(S: map<X, seq<X>>, F: map<X, nat>) {
    forall x, y :: x in F && y in F && F[x] == F[y] ==> Reaches(S, x, y)
  }

  lemma SharersConnected<X(!new)>(R: map<X, seq<X>>, FP: map<X, nat>, xs: seq<X>, F: map<X, nat>)
    requires FP.Keys == R.Keys == Elems(xs) && forall x :: x in F ==> Inherits(WithSharing(R, FP, xs), FP, F, x)
    ensures SharedWithin(WithSharing(R, FP, xs), F)
  {
    hide Reaches, WithSharing;
    var S := WithSharing(R, FP, xs);
    forall x, y | x in F && y in F && F[x] == F[y] ensures Reaches(S, x, y) {
      var v :| v in FP && FP[v] == F[x] && Reaches(S, x, v) && Reaches(S, v, x);
      var w :| w in FP && FP[w] == F[y] && Reaches(S, y, w) && Reaches(S, w, y);
      SharersLinked(R, FP, xs, v, w);
      ReachesTrans(S, x, v, w);
      ReachesTrans(S, x, w, y);
    }
  }

  lemma SharersLinked<X(!new)>(R: map<X, seq<X>>, FP: map<X, nat>, xs: seq<X>, v: X, w: X)
    requires FP.Keys == R.Keys == Elems(xs) && v in FP && w in FP && FP[v] == FP[w]
    ensures Reaches(WithSharing(R, FP, xs), v, w)
  {
    hide Reaches;
    var S := WithSharing(R, FP, xs);
    assert w in Elems(xs) && w in Sharing(FP, xs, v);
    ReachesSelf(S, w);
    ReachesStep(S, v, w, w);
  }

  /** Without sharing at the outset, within one component of R. */
  lemma UnsharedWithin<X(!new)>(R: map<X, seq<X>>, FP: map<X, nat>, xs: seq<X>, F: map<X, nat>)
    requires Unaliased(FP) && SharedWithin(WithSharing(R, FP, xs), F)
    ensures SharedWithin(R, F)
  {
    hide WithSharing;
    forall x, y | x in F && y in F && F[x] == F[y] ensures Reaches(R, x, y) {
      var n: nat :| ReachesIn(WithSharing(R, FP, xs), x, y, n);
      UnsharedReaches(R, FP, xs, x, y, n);
    }
  }

  ghost predicate ListsInv<X(!new), T>(S: map<X, seq<X>>, base: map<X, set<T>>, FP: map<X, nat>, N: map<X, int>,
                                       L: map<X, set<T>>, F: map<X, nat>, lists: seq<seq<T>>)
  {
    ListsCover(base, FP, N, L, F, lists) && ListsBound(S, base, FP, N, F, lists)
  }

  lemma ListsFacts<X(!new), T>(S: map<X, seq<X>>, base: map<X, set<T>>, FP: map<X, nat>, N: map<X, int>, L: map<X, set<T>>,
                               F: map<X, nat>, lists: seq<seq<T>>)
    requires ListsInv(S, base, FP, N, L, F, lists)
    ensures FP.Keys == base.Keys == N.Keys && F.Keys == L.Keys && L.Keys <= N.Keys
    ensures forall x :: x in F ==> F[x] < |lists|
  {
  }

  lemma InvStart<X(!new), T>(R: map<X, seq<X>>, base: map<X, set<T>>, N: map<X, int>)
    requires R.Keys == base.Keys && N == (map x | x in base :: 0) && |R| < MAXINT
    requires forall x, y :: x in R && y in R[x] ==> y in R
    ensures Inv(R, base, N, [], map[], {})
  {
    assert forall x :: x in N ==> N[x] == 0;
  }

  lemma ListsStart<X(!new), T>(S: map<X, seq<X>>, FP: map<X, nat>, lists: seq<seq<T>>)
    requires forall x :: x in FP ==> FP[x] < |lists|
    ensures ListsInv(S, map x | x in FP :: Elems(lists[FP[x]]), FP, map x | x in FP :: 0, map[], map[], lists)
  {
    var base := map x | x in FP :: Elems(lists[FP[x]]);
    forall x | x in FP ensures ListWithin(S, base, FP, lists, x) {
      forall a | a in lists[FP[x]] ensures Required(S, base, x, a) {
        ReachesSelf(S, x);
        assert a in base[x];
      }
    }
  }

  lemma {:induction false} FinishedReaches<X(!new), T>(R: map<X, seq<X>>, base: map<X, set<T>>, N: map<X, int>, L: map<X, set<T>>,
                                                       x: X, z: X, n: nat)
    requires SetInv(R, base, N, L) && DoneInv(R, N, L) && ReachesIn(R, x, z, n)
    requires x in N && N[x] == MAXINT
    ensures z in L && L[z] <= L[x]
    decreases n
  {
    if n > 0 {
      var y :| y in R[x] && ReachesIn(R, y, z, n - 1);
      assert Included(N, L, x, y);
      FinishedReaches(R, base, N, L, y, z, n - 1);
    }
  }

  /** When every node is finished, the gathered sets are the required sets. */
  lemma FinishedIsRequired<X(!new), T>(R: map<X, seq<X>>, base: map<X, set<T>>, N: map<X, int>, L: map<X, set<T>>, x: X, a: T)
    requires SetInv(R, base, N, L) && DoneInv(R, N, L)
    requires x in L && N[x] == MAXINT
    ensures a in L[x] <==> Required(R, base, x, a)
  {
    if Required(R, base, x, a) {
      var z :| Reaches(R, x, z) && z in base && a in base[z];
      var n: nat :| ReachesIn(R, x, z, n);
      FinishedReaches(R, base, N, L, x, z, n);
    }
  }

  lemma InheritAll<X(!new), T>(S: map<X, seq<X>>, base: map<X, set<T>>, FP: map<X, nat>, N: map<X, int>, L: map<X, set<T>>,
                               F: map<X, nat>, lists: seq<seq<T>>)
    requires ListsInv(S, base, FP, N, L, F, lists)
    ensures forall x :: x in F ==> Inherits(S, FP, F, x)
  {
  }

  /** The result of the whole run, read off the invariant. */
  lemma SolvedLists<X(!new), T>(R: map<X, seq<X>>, S: map<X, seq<X>>, base: map<X, set<T>>, FP: map<X, nat>, N: map<X, int>,
                                stack: seq<X>, L: map<X, set<T>>, F: map<X, nat>, lists: seq<seq<T>>)
    requires Inv(R, base, N, stack, L, {}) && ListsInv(S, base, FP, N, L, F, lists)
    requires forall x :: x in R ==> x in N && N[x] == MAXINT
    ensures F.Keys == R.Keys && forall x :: x in F ==> F[x] < |lists|
    ensures forall x, a :: x in F && Required(R, base, x, a) ==> a in lists[F[x]]
    ensures forall x, a :: x in F && a in lists[F[x]] ==> Required(S, base, x, a)
  {
    hide Required, ListWithin, Inherits, LowInv, ScanInv, OrderInv, Distinct;
    forall x, a | x in F && Required(R, base, x, a) ensures a in lists[F[x]] {
      FinishedIsRequired(R, base, N, L, x, a);
    }
    forall x, a | x in F && a in lists[F[x]] ensures Required(S, base, x, a) {
      InheritedIsRequired(S, base, FP, N, F, lists, x, a);
    }
  }

  lemma InheritedIsRequired<X(!new), T>(S: map<X, seq<X>>, base: map<X, set<T>>, FP: map<X, nat>, N: map<X, int>,
                                        F: map<X, nat>, lists: seq<seq<T>>, x: X, a: T)
    requires ListsBound(S, base, FP, N, F, lists) && x in F && F[x] < |lists| && a in lists[F[x]]
    ensures Required(S, base, x, a)
  {
    assert Inherits(S, FP, F, x);
    var w :| w in FP && x in F && FP[w] == F[x] && Reaches(S, x, w) && Reaches(S, w, x);
    assert ListWithin(S, base, FP, lists, w);
    RequiredStep(S, base, x, w, a);
  }

  /** Without sharing the two relations require the same. */
  lemma {:induction false} UnsharedReaches<X(!new)>(R: map<X, seq<X>>, FP: map<X, nat>, xs: seq<X>, x: X, z: X, n: nat)
    requires Unaliased(FP) && ReachesIn(WithSharing(R, FP, xs), x, z, n)
    ensures Reaches(R, x, z)
    decreases n
  {
    if n == 0 {
      ReachesSelf(R, x);
    } else {
      var S := WithSharing(R, FP, xs);
      var y :| y in S[x] && ReachesIn(S, y, z, n - 1);
      UnsharedReaches(R, FP, xs, y, z, n - 1);
      if y != x {
        ReachesStep(R, x, y, z);
      }
    }
  }

  lemma UnsharedIsExact<X(!new), T>(R: map<X, seq<X>>, FP: map<X, nat>, xs: seq<X>, base: map<X, set<T>>, x: X, a: T)
    requires Unaliased(FP) && Required(WithSharing(R, FP, xs), base, x, a)
    ensures Required(R, base, x, a)
  {
    var S := WithSharing(R, FP, xs);
    var z :| Reaches(S, x, z) && z in base && a in base[z];
    var n: nat :| ReachesIn(S, x, z, n);
    UnsharedReaches(R, FP, xs, x, z, n);
  }

  lemma {:induction false} ReachesMore<X(!new)>(R: map<X, seq<X>>, S: map<X, seq<X>>, x: X, z: X, n: nat)
    requires forall u, v :: u in R && v in R[u] ==> u in S && v in S[u]
    requires ReachesIn(R, x, z, n)
    ensures Reaches(S, x, z)
    decreases n
  {
    if n == 0 {
      ReachesSelf(S, x);
    } else {
      var y :| y in R[x] && ReachesIn(R, y, z, n - 1);
      ReachesMore(R, S, y, z, n - 1);
      ReachesStep(S, x, y, z);
    }
  }

  lemma ListsVisit<X(!new), T>(S: map<X, seq<X>>, base: map<X, set<T>>, FP: map<X, nat>, N: map<X, int>, L: map<X, set<T>>,
                               F: map<X, nat>, lists: seq<seq<T>>, x: X, d: int)
    requires ListsInv(S, base, FP, N, L, F, lists) && x in N && N[x] == 0 && 0 < d < MAXINT
    ensures ListsInv(S, base, FP, N[x := d], L[x := base[x]], F[x := FP[x]], lists)
  {
    var F' := F[x := FP[x]];
    ReachesSelf(S, x);
    forall v | v in F' ensures Inherits(S, FP, F', v) {
      assert v != x ==> Inherits(S, FP, F, v);
    }
  }

  lemma RelaxCover<X(!new), T>(base: map<X, set<T>>, FP: map<X, nat>, N: map<X, int>, L: map<X, set<T>>,
                               F: map<X, nat>, lists: seq<seq<T>>, lists': seq<seq<T>>, x: X, y: X, low: int)
    requires ListsCover(base, FP, N, L, F, lists) && x in F && y in F && N[x] != 0
    requires 0 < low < MAXINT && |lists'| == |lists|
    requires Elems(lists'[F[x]]) == Elems(lists[F[x]]) + Elems(lists[F[y]])
    requires forall r :: 0 <= r < |lists| && r != F[x] ==> lists'[r] == lists[r]
    ensures ListsCover(base, FP, N[x := low], L[x := L[x] + L[y]], F, lists')
  {
    assert forall r :: 0 <= r < |lists| ==> Elems(lists[r]) <= Elems(lists'[r]);
  }

  /** A node that shares x's initial list reaches x's successors. */
  lemma SharersReach<X(!new)>(R: map<X, seq<X>>, FP: map<X, nat>, xs: seq<X>, x: X, y: X, z: X)
    requires FP.Keys == R.Keys == Elems(xs) && x in R && y in R[x] && z in FP && FP[z] == FP[x]
    ensures Reaches(WithSharing(R, FP, xs), z, y)
  {
    var S := WithSharing(R, FP, xs);
    assert x in Elems(xs) && x in Sharing(FP, xs, z);
    assert x in S[z] && y in S[x];
    ReachesSelf(S, y);
    ReachesStep(S, x, y, y);
    ReachesStep(S, z, x, y);
  }

  lemma RelaxWithin<X(!new), T>(R: map<X, seq<X>>, xs: seq<X>, base: map<X, set<T>>, FP: map<X, nat>, N: map<X, int>,
                                F: map<X, nat>, lists: seq<seq<T>>, lists': seq<seq<T>>, x: X, y: X, z: X)
    requires ListsBound(WithSharing(R, FP, xs), base, FP, N, F, lists)
    requires x in F && x in FP && F[x] == FP[x] < |lists| && y in F && F[y] < |lists| == |lists'| && z in FP
    requires x in R && y in R[x] && FP.Keys == R.Keys == Elems(xs)
    requires Elems(lists'[F[x]]) == Elems(lists[F[x]]) + Elems(lists[F[y]])
    requires forall r :: 0 <= r < |lists| && r != F[x] ==> lists'[r] == lists[r]
    ensures ListWithin(WithSharing(R, FP, xs), base, FP, lists', z)
  {
    hide Required, Reaches, Inherits, WithSharing;
    var S := WithSharing(R, FP, xs);
    assert ListWithin(S, base, FP, lists, z);
    if FP[z] == FP[x] {
      SharersReach(R, FP, xs, x, y, z);
      forall a | a in lists'[FP[z]] ensures Required(S, base, z, a) {
        assert a in Elems(lists'[F[x]]);
        if a !in lists[FP[z]] {
          InheritedIsRequired(S, base, FP, N, F, lists, y, a);
          RequiredStep(S, base, z, y, a);
        }
      }
    }
  }

  lemma ListsRelax<X(!new), T>(R: map<X, seq<X>>, xs: seq<X>, base: map<X, set<T>>, FP: map<X, nat>, N: map<X, int>,
                               L: map<X, set<T>>, F: map<X, nat>, lists: seq<seq<T>>, lists': seq<seq<T>>, x: X, y: X, low: int)
    requires ListsInv(WithSharing(R, FP, xs), base, FP, N, L, F, lists) && x in F && y in F && N[x] != 0 && N[x] != MAXINT
    requires x in R && y in R[x] && FP.Keys == R.Keys == Elems(xs)
    requires 0 < low < MAXINT && |lists'| == |lists|
    requires Elems(lists'[F[x]]) == Elems(lists[F[x]]) + Elems(lists[F[y]])
    requires forall r :: 0 <= r < |lists| && r != F[x] ==> lists'[r] == lists[r]
    ensures ListsInv(WithSharing(R, FP, xs), base, FP, N[x := low], L[x := L[x] + L[y]], F, lists')
  {
    hide ListWithin, Inherits, WithSharing;
    RelaxCover(base, FP, N, L, F, lists, lists', x, y, low);
    var S := WithSharing(R, FP, xs);
    forall z | z in FP ensures ListWithin(S, base, FP, lists', z) {
      RelaxWithin(R, xs, base, FP, N, F, lists, lists', x, y, z);
    }
  }

  lemma ListsPop<X(!new), T>(S: map<X, seq<X>>, base: map<X, set<T>>, FP: map<X, nat>, N: map<X, int>, L: map<X, set<T>>,
                             F: map<X, nat>, lists: seq<seq<T>>, top: seq<X>, x: X)
    requires ListsInv(S, base, FP, N, L, F, lists) && x in F && N[x] != MAXINT
    requires forall s :: s in top ==> s in F && N[s] != 0 && Reaches(S, s, x) && Reaches(S, x, s)
    ensures ListsInv(S, base, FP, Retarget(N, top, MAXINT), Retarget(L, top, L[x]), Retarget(F, top, F[x]), lists)
  {
    var N', L', F' := Retarget(N, top, MAXINT), Retarget(L, top, L[x]), Retarget(F, top, F[x]);
    assert ListsCover(base, FP, N', L', F', lists);
    forall v | v in F' ensures Inherits(S, FP, F', v) {
      if v in top {
        assert F'[v] == FP[x] && x in FP;
      } else {
        assert Inherits(S, FP, F, v);
      }
    }
  }

  lemma SharingExtends<X(!new)>(R: map<X, seq<X>>, FP: map<X, nat>, xs: seq<X>)
    ensures var S := WithSharing(R, FP, xs); forall u, v :: u in R && v in R[u] ==> u in S && v in S[u]
  {
  }

  /** Everything above a component root on the stack reaches it, all the more with sharing. */
  lemma TopReachesWithSharing<X(!new), T>(R: map<X, seq<X>>, FP: map<X, nat>, xs: seq<X>, base: map<X, set<T>>, N: map<X, int>,
                                          stack: seq<X>, L: map<X, set<T>>, gray: set<X>, x: X, d: nat, s: X)
    requires RootReady(R, base, N, stack, L, gray, x, d) && 1 <= d <= |stack| && s in stack[d - 1..]
    ensures Reaches(WithSharing(R, FP, xs), s, x)
  {
    hide RootReady, WithSharing;
    TopReachesRoot(R, base, N, stack, L, gray, x, d, s);
    var n: nat :| ReachesIn(R, s, x, n);
    SharingExtends(R, FP, xs);
    ReachesMore(R, WithSharing(R, FP, xs), s, x, n);
  }

  lemma RootReachesTop<X(!new)>(R: map<X, seq<X>>, FP: map<X, nat>, xs: seq<X>, stack: seq<X>, gray: set<X>, x: X, d: nat, s: X)
    requires GrayReach(R, stack, gray + {x}) && 1 <= d <= |stack| && stack[d - 1] == x && s in stack[d - 1..]
    ensures Reaches(WithSharing(R, FP, xs), x, s)
  {
    hide WithSharing, ReachesIn;
    var j :| 0 <= j < |stack[d - 1..]| && stack[d - 1..][j] == s;
    assert LeadsUp(R, stack, d - 1, d - 1 + j);
    var n: nat :| ReachesIn(R, x, s, n);
    SharingExtends(R, FP, xs);
    ReachesMore(R, WithSharing(R, FP, xs), x, s, n);
  }

  lemma TopReady<X(!new), T>(R: map<X, seq<X>>, FP: map<X, nat>, xs: seq<X>, base: map<X, set<T>>, N: map<X, int>,
                             stack: seq<X>, L: map<X, set<T>>, gray: set<X>, x: X, d: nat)
    requires RootReady(R, base, N, stack, L, gray, x, d) && 1 <= d <= |stack| && stack[d - 1] == x && GrayReach(R, stack, gray + {x})
    ensures forall s :: s in stack[d - 1..] ==>
              && s in L && s in N && N[s] != 0
              && Reaches(WithSharing(R, FP, xs), s, x) && Reaches(WithSharing(R, FP, xs), x, s)
  {
    hide WithSharing, LowInv, DoneInv, ScanInv, OrderInv, Distinct, Scanned, Required, GrayReach, Reaches;
    forall s | s in stack[d - 1..]
      ensures s in L && s in N && N[s] != 0 && Reaches(WithSharing(R, FP, xs), s, x) && Reaches(WithSharing(R, FP, xs), x, s)
    {
      InTop(stack, d, s);
      RootReachesTop(R, FP, xs, stack, gray, x, d, s);
      TopReachesRoot(R, base, N, stack, L, gray, x, d, s);
      TopReachesWithSharing(R, FP, xs, base, N, stack, L, gray, x, d, s);
    }
  }

  /** Popping a component keeps the whole invariant. */
  lemma ComponentPopped<X(!new), T>(R: map<X, seq<X>>, FP: map<X, nat>, xs: seq<X>, base: map<X, set<T>>, N: map<X, int>,
                                    stack: seq<X>, L: map<X, set<T>>, F: map<X, nat>, lists: seq<seq<T>>, gray: set<X>, x: X, d: nat)
    requires RootReady(R, base, N, stack, L, gray, x, d) && 1 <= d <= |stack| && stack[d - 1] == x && GrayReach(R, stack, gray + {x})
    requires ListsInv(WithSharing(R, FP, xs), base, FP, N, L, F, lists) && F.Keys == L.Keys && x in L && x in N && N[x] != MAXINT
    ensures var top := stack[d - 1..];
      && Inv(R, base, Retarget(N, top, MAXINT), stack[..d - 1], Retarget(L, top, L[x]), gray)
      && ListsInv(WithSharing(R, FP, xs), base, FP, Retarget(N, top, MAXINT), Retarget(L, top, L[x]), Retarget(F, top, F[x]), lists)
      && GrayReach(R, stack[..d - 1], gray)
  {
    hide *;
    InvPop(R, base, N, stack, L, gray, x, d);
    TopReady(R, FP, xs, base, N, stack, L, gray, x, d);
    GrayDone(R, stack, gray, x, d - 1);
    ListsPop(WithSharing(R, FP, xs), base, FP, N, L, F, lists, stack[d - 1..], x);
  }

  class Digraph<X(==, !new), T(==, !new)> {
    const xs: seq<X>
    const R: map<X, seq<X>>
    const FP: map<X, nat>
    var lists: seq<seq<T>>
    var N: map<X, int>
    var stack: seq<X>
    var F: map<X, nat>
    /** The initial sets FP(x), and the sets that the walk is accountable for. */
    ghost const base: map<X, set<T>>
    ghost var L: map<X, set<T>>

    ghost predicate Valid(gray: set<X>)
      reads this
    {
      && Inv(R, base, N, stack, L, gray)
      && FP.Keys == R.Keys == Elems(xs)
      && ListsInv(WithSharing(R, FP, xs), base, FP, N, L, F, lists)
      && GrayReach(R, stack, gray)
    }

    constructor (xs: seq<X>, R: map<X, seq<X>>, FP: map<X, nat>, lists: seq<seq<T>>)
      requires R.Keys == FP.Keys == Elems(xs) && |R| < MAXINT
      requires forall x, y :: x in R && y in R[x] ==> y in R
      requires forall x :: x in FP ==> FP[x] < |lists|
      ensures this.xs == xs && this.R == R && this.FP == FP && this.lists == lists
      ensures base == map x | x in FP :: Elems(lists[FP[x]])
      ensures N == map x | x in FP :: 0
      ensures stack == [] && F == map[] && Valid({})
    {
      this.xs, this.R, this.FP, this.lists := xs, R, FP, lists;
      base := map x | x in FP :: Elems(lists[FP[x]]);
      N := map x | x in FP :: 0;
      stack, F, L := [], map[], map[];
      new;
      hide *;
      NothingGray(R);
      InvStart(R, base, N);
      ListsStart(WithSharing(R, FP, xs), FP, lists);
    }

    /** F[x] takes over what it lacks of F[y]; the two may be one list. */
    method Absorb(x: X, y: X)
      requires x in F && y in F && F[x] < |lists| && F[y] < |lists|
      modifies this`lists
      ensures |lists| == |old(lists)|
      ensures Elems(lists[F[x]]) == Elems(old(lists)[F[x]]) + Elems(old(lists)[F[y]])
      ensures forall r :: 0 <= r < |lists| && r != F[x] ==> lists[r] == old(lists)[r]
    {
      var i := 0;
      while i < |lists[F[y]]|
        invariant |lists| == |old(lists)| && i <= |lists[F[y]]|
        invariant forall r :: 0 <= r < |lists| && r != F[x] ==> lists[r] == old(lists)[r]
        invariant F[x] == F[y] ==> lists == old(lists)
        invariant Elems(lists[F[x]]) == Elems(old(lists)[F[x]]) + Elems(lists[F[y]][..i])
        decreases |lists[F[y]]| - i
      {
        var a := lists[F[y]][i];
        assert lists[F[y]][..i + 1] == lists[F[y]][..i] + [a];
        ElemsSnoc(lists[F[y]][..i], a);
        ElemsSnoc(lists[F[x]], a);
        if a !in lists[F[x]] {
          lists := lists[F[x] := lists[F[x]] + [a]];
        }
        i := i + 1;
      }
      assert lists[F[y]][..i] == lists[F[y]];
    }

    /** The topmost node gets the final stamp and the root's list, and leaves the stack. */
    method PopOne(x: X) returns (element: X)
      requires stack != [] && x in F && x in L
      modifies this`N, this`F, this`L, this`stack
      ensures element == old(stack)[|old(stack)| - 1] && stack == old(stack)[..|old(stack)| - 1]
      ensures N == old(N)[element := MAXINT]
      ensures F == old(F)[element := old(F)[x]] && L == old(L)[element := old(L)[x]]
    {
      var top := stack[|stack| - 1];
      N := N[top := MAXINT];
      F := F[top := F[x]];
      L := L[top := L[x]];
      element := top;
      stack := stack[..|stack| - 1];
    }

    /** Pop everything down to and including `x`, giving each node x's list and the final stamp. */
    method PopComponent(x: X, ghost d: nat)
      requires 1 <= d <= |stack| && stack[d - 1] == x && Distinct(stack)
      requires F.Keys == L.Keys && x in F && forall s :: s in stack ==> s in N && s in F
      modifies this`N, this`F, this`L, this`stack
      ensures stack == old(stack)[..d - 1]
      ensures N == Retarget(old(N), old(stack)[d - 1..], MAXINT)
      ensures F == Retarget(old(F), old(stack)[d - 1..], old(F)[x])
      ensures L == Retarget(old(L), old(stack)[d - 1..], old(L)[x])
    {
      hide PoppedTo, Retarget;
      ghost var stack0, N0, F0, L0 := stack, N, F, L;
      PopNothing(N0, F0, L0, stack0, x);
      PopMore(N0, F0, L0, stack0, x, |stack|, N, F, L);
      var element := PopOne(x);
      while element != x
        invariant d - 1 <= |stack| < |stack0| && stack == stack0[..|stack|] && element == stack0[|stack|]
        invariant PoppedTo(N0, F0, L0, stack0, x, |stack|, N, F, L) && x in F && x in L
        decreases |stack|
      {
        PopMore(N0, F0, L0, stack0, x, |stack|, N, F, L);
        element := PopOne(x);
      }
      assert d - 1 < |stack| ==> Differ(stack0, d - 1, |stack|);
      PoppedMaps(N0, F0, L0, stack0, x, d - 1, N, F, L);
    }

    /** A node is pushed, stamped with the height of the stack, and given its initial list. */
    method Push(x: X, ghost gray: set<X>) returns (d: nat)
      requires Valid(gray) && x in N && N[x] == 0 && forall g :: g in gray ==> Reaches(R, g, x)
      modifies this`N, this`F, this`L, this`stack
      ensures Valid(gray + {x})
      ensures d == |stack| && stack == old(stack) + [x]
      ensures x in L && L.Keys == old(L).Keys + {x}
      ensures Scanning(old(stack), old(N), old(L), old(F), stack, N, L, F, gray, x, R[x], 0)
    {
      hide Inv, ListsInv, WithSharing, Scanning, GrayReach, Reaches;
      InvFacts(R, base, N, stack, L, gray);
      GrayPush(R, stack, gray, x);
      ListsFacts(WithSharing(R, FP, xs), base, FP, N, L, F, lists);
      InvPush(R, base, N, stack, L, gray, x);
      ListsVisit(WithSharing(R, FP, xs), base, FP, N, L, F, lists, x, |stack| + 1);
      ScanStart(R, base, N, stack, L, F, gray, x, R[x], FP[x]);
      stack := stack + [x];
      d := |stack|;
      N := N[x := d];
      F := F[x := FP[x]];
      L := L[x := base[x]];
    }

    /** The stamp of `x` sinks to that of `y`, and F[x] absorbs F[y]. */
    method Relax(x: X, y: X, ghost gray: set<X>)
      requires Valid(gray) && x in gray && x in stack && y in R[x] && y in N && N[y] != 0 && x in N && x in L && y in L
      modifies this`N, this`L, this`lists
      ensures Valid(gray)
      ensures N == Lowered(old(N), x, y) && L == old(L)[x := old(L)[x] + old(L)[y]]
    {
      hide Inv, ListsInv, WithSharing, GrayReach;
      InvFacts(R, base, N, stack, L, gray);
      ListsFacts(WithSharing(R, FP, xs), base, FP, N, L, F, lists);
      InvRelax(R, base, N, stack, L, gray, x, y);
      ghost var lists1, low := lists, if N[y] < N[x] then N[y] else N[x];
      Absorb(x, y);
      ListsRelax(R, xs, base, FP, N, L, F, lists1, lists, x, y, low);
      N := N[x := if N[y] < N[x] then N[y] else N[x]];
      L := L[x := L[x] + L[y]];
    }

    /** If `x` still has its own depth as its stamp, pop the component of which it is the root. */
    method Finish(x: X, d: nat, ghost gray: set<X>, ghost stack0: seq<X>, ghost N0: map<X, int>,
                  ghost L0: map<X, set<T>>, ghost F0: map<X, nat>)
      requires Valid(gray + {x}) && x !in gray && x in R && d == |stack0| + 1
      requires Inv(R, base, N0, stack0, L0, gray)
      requires Scanning(stack0, N0, L0, F0, stack, N, L, F, gray, x, R[x], |R[x]|)
      modifies this`N, this`F, this`L, this`stack
      ensures Valid(gray) && x in N && N[x] != 0
      ensures Extends(stack0, N0, L0, F0, stack, N, L, F)
      ensures N[x] == MAXINT ==> stack == stack0
      ensures N[x] != MAXINT ==> forall i :: |stack0| <= i < |stack| ==> Dominated(N, stack, L, gray, x, i)
    {
      hide Inv, ListsInv, WithSharing, Scanning, Extends, Dominated, Retarget, RootReady, Scanned, GrayReach, Reaches;
      InvFacts(R, base, N, stack, L, gray + {x});
      ListsFacts(WithSharing(R, FP, xs), base, FP, N, L, F, lists);
      ScanFacts(stack0, N0, L0, F0, stack, N, L, F, gray, x, R[x], |R[x]|);
      ScanEnd(R, base, stack0, N0, L0, F0, stack, N, L, F, gray, x);
      if N[x] == d {
        ReadyToPop(R, base, N, stack, L, gray, x, d);
        ComponentPopped(R, FP, xs, base, N, stack, L, F, lists, gray, x, d);
        PopExtends(R, base, stack0, N0, L0, F0, stack, N, L, F, gray, x);
        PopComponent(x, d);
        InvFacts(R, base, N, stack, L, gray);
      } else {
        InvKeep(R, base, N, stack, L, gray, x, d);
        GrayDone(R, stack, gray, x, |stack|);
        assert stack[..|stack|] == stack;
        DominatesSelf(N, stack, L, gray, d - 1);
        InvFacts(R, base, N, stack, L, gray);
      }
    }

    method Traverse(x: X, ghost gray: set<X>)
      requires Valid(gray) && x in N && N[x] == 0
      requires forall g :: g in gray ==> g in stack && Reaches(R, g, x)
      modifies this`N, this`F, this`L, this`stack, this`lists
      ensures Valid(gray) && x in N && N[x] != 0
      ensures Extends(old(stack), old(N), old(L), old(F), stack, N, L, F)
      ensures N[x] == MAXINT ==> stack == old(stack)
      ensures N[x] != MAXINT ==> forall i :: |old(stack)| <= i < |stack| ==> Dominated(N, stack, L, gray, x, i)
      decreases R.Keys - L.Keys, 1
    {
      hide Inv, ListsInv, WithSharing, Scanning, Visited, Extends, Dominated, GrayReach, Reaches;
      ghost var stack0, N0, L0, F0 := stack, N, L, F;
      InvFacts(R, base, N, stack, L, gray);
      var d := Push(x, gray);
      var rel := R[x];
      for k := 0 to |rel|
        invariant Valid(gray + {x})
        invariant Scanning(stack0, N0, L0, F0, stack, N, L, F, gray, x, rel, k)
      {
        LookAt(x, k, gray, stack0, N0, L0, F0);
      }
      Finish(x, d, gray, stack0, N0, L0, F0);
    }

    /** The body of the loop over the successors, for the one at index `k`. */
    method LookAt(x: X, k: nat, ghost gray: set<X>, ghost stack0: seq<X>, ghost N0: map<X, int>,
                  ghost L0: map<X, set<T>>, ghost F0: map<X, nat>)
      requires Valid(gray + {x}) && x in R && k < |R[x]| && forall g :: g in gray ==> g in stack0
      requires Scanning(stack0, N0, L0, F0, stack, N, L, F, gray, x, R[x], k)
      modifies this`N, this`F, this`L, this`stack, this`lists
      ensures Valid(gray + {x})
      ensures Scanning(stack0, N0, L0, F0, stack, N, L, F, gray, x, R[x], k + 1)
      decreases R.Keys - L0.Keys, 0
    {
      hide Inv, ListsInv, WithSharing, Scanning, Visited, Extends, Dominated, GrayReach, Reaches;
      ghost var rel, s1, N1, L1, F1 := R[x], stack, N, L, F;
      InvFacts(R, base, N, stack, L, gray + {x});
      ScanFacts(stack0, N0, L0, F0, stack, N, L, F, gray, x, rel, k);
      ScanSpot(stack0, N0, L0, F0, stack, N, L, F, gray, x, rel, k);
      var y := R[x][k];
      if N[y] == 0 {
        ScanFacts(stack0, N0, L0, F0, stack, N, L, F, gray, x, rel, k);
        assert stack[..|stack0|] == stack0;
        GrayEdge(R, stack, gray, |stack0|, y);
        Traverse(y, gray + {x});
        VisitedNow(R, base, stack0, N0, L0, F0, s1, N1, L1, F1, stack, N, L, F, gray, x, rel, k);
      } else {
        VisitedBefore(stack0, N0, L0, F0, stack, N, L, F, gray, x, rel, k);
      }
      InvFacts(R, base, N, stack, L, gray + {x});
      VisitedSpot(stack0, N0, L0, F0, stack, N, L, F, gray, x, rel, k);
      ScanRelax(R, base, stack0, N0, L0, F0, stack, N, L, F, gray, x, rel, k);
      Relax(x, y, gray + {x});
    }

    /** The driver loop. Whatever the aliasing of the initial lists, each list F(x) ends up with
        everything that R requires of it, and with nothing but what R and the sharing of initial
        lists require; without sharing the two are the same (`UnsharedIsExact`). Nodes get one list
        only within a component (`UnsharedWithin`). */
    method Solve()
      requires Valid({}) && stack == [] && R.Keys == Elems(xs) && forall x :: x in N ==> N[x] == 0
      modifies this`N, this`F, this`L, this`stack, this`lists
      ensures F.Keys == R.Keys && forall x :: x in F ==> F[x] < |lists|
      ensures forall x, a :: x in F && Required(R, base, x, a) ==> a in lists[F[x]]
      ensures forall x, a :: x in F && a in lists[F[x]] ==> Required(WithSharing(R, FP, xs), base, x, a)
      ensures SharedWithin(WithSharing(R, FP, xs), F)
    {
      hide Inv, ListsInv, WithSharing, GrayReach, Reaches, SharedWithin;
      for i := 0 to |xs|
        invariant Valid({}) && stack == []
        invariant forall j :: 0 <= j < i ==> xs[j] in N && N[xs[j]] == MAXINT
      {
        InvFacts(R, base, N, stack, L, {});
        var x := xs[i];
        if N[x] == 0 {
          ghost var N1, L1, F1 := N, L, F;
          Traverse(x, {});
          NothingStacked(R, base, N, stack, L);
          InvFacts(R, base, N, stack, L, {});
          forall j | 0 <= j < i ensures xs[j] in N && N[xs[j]] == MAXINT {
            assert Kept(N1, L1, F1, N, L, F, xs[j]);
          }
        }
      }
      InvFacts(R, base, N, stack, L, {});
      SolvedLists(R, WithSharing(R, FP, xs), base, FP, N, stack, L, F, lists);
      InheritAll(WithSharing(R, FP, xs), base, FP, N, L, F, lists);
      SharersConnected(R, FP, xs, F);
    }
  }

  /** The sets behind a table of references into a store of lists. */
  function SetsOf<X, T>(F: map<X, nat>, lists: seq<seq<T>>): map<X, set<T>>
    requires forall x :: x in F ==> F[x] < |lists|
  {
    map x | x in F :: Elems(lists[F[x]])
  }

  lemma SetsDefined<X, T>(F: map<X, nat>, lists: seq<seq<T>>)
    requires forall x :: x in F ==> F[x] < |lists|
    ensures SetsOf(F, lists) == map x | x in F :: Elems(lists[F[x]])
  {
  }

  /** `digraph(X, R, FP)`: the result refers into the store that FP refers into. Between what R alone
      requires and what R with the sharing of lists requires. */
  method SolveDigraph<X(==, !new), T(==, !new)>(xs: seq<X>, R: map<X, seq<X>>, FP: map<X, nat>, lists0: seq<seq<T>>)
    returns (F: map<X, nat>, lists: seq<seq<T>>)
    requires R.Keys == FP.Keys == Elems(xs) && |R| < MAXINT
    requires forall x, y :: x in R && y in R[x] ==> y in R
    requires forall x :: x in FP ==> FP[x] < |lists0|
    ensures F.Keys == R.Keys && forall x :: x in F ==> F[x] < |lists|
    ensures forall x, a :: x in F && Required(R, SetsOf(FP, lists0), x, a) ==> a in lists[F[x]]
    ensures forall x, a :: x in F && a in lists[F[x]] ==> Required(WithSharing(R, FP, xs), SetsOf(FP, lists0), x, a)
    ensures SharedWithin(WithSharing(R, FP, xs), F)
  {
    hide *;
    SetsDefined(FP, lists0);
    var solver := new Digraph(xs, R, FP, lists0);
    solver.Solve();
    F, lists := solver.F, solver.lists;
  }
}
