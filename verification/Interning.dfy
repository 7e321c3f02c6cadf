/** The goto cache of the table generator: nested dictionaries keyed by kernel items, whose leaves
    hold the one list object for each kernel. Object identities are indices into a store. */
module Interning {
  import opened Grammars
  import opened Items

  /** The value under a dictionary's `$end` key: absent, an empty list, or a list object. Python
      treats the first two alike. */
  datatype CacheEntry = Missing | EmptyList | Obj(id: nat)

  datatype TrieNode = TrieNode(children: map<Item, nat>, end: CacheEntry)

  /** The path that leads to a dictionary: the symbol and the kernel items read so far. */
  datatype Label = Label(sym: Symbol, path: seq<Item>)

  /** The items of a path have their dot right after the symbol. */
  ghost predicate PathOf(g: Cfg, l: Label) {
    forall i :: 0 <= i < |l.path| ==> l.path[i].dot > 0 && DotBefore(g, Item(l.path[i].num, l.path[i].dot - 1), l.sym)
  }

  /** Dictionary `n` is linked from where its path says, links to where longer paths say, and its
      leaf, if any, is the object interned for its path. */
  ghost predicate NodeOk(g: Cfg, trie: seq<TrieNode>, roots: map<Symbol, nat>, labels: seq<Label>,
                         kernels: seq<seq<Item>>, n: nat)
  {
    && n < |trie| == |labels| && PathOf(g, labels[n])
    && (labels[n].path == [] ==> labels[n].sym in roots && roots[labels[n].sym] == n)
    && (labels[n].path != [] ==> exists m :: ChildOf(trie, labels, m, n))
    && (forall it :: it in trie[n].children ==> trie[n].children[it] < |trie|)
    && (forall it :: it in trie[n].children ==>
          labels[trie[n].children[it]] == Label(labels[n].sym, labels[n].path + [it]))
    && (trie[n].end.Obj? ==> labels[n].path != [] && 0 < trie[n].end.id < |kernels| && kernels[trie[n].end.id] == labels[n].path)
  }

  ghost predicate ChildOf(trie: seq<TrieNode>, labels: seq<Label>, m: nat, n: nat) {
    && m < |trie| == |labels| && n < |trie| && labels[n].path != []
    && labels[m] == Label(labels[n].sym, labels[n].path[..|labels[n].path| - 1])
    && labels[n].path[|labels[n].path| - 1] in trie[m].children
    && trie[m].children[labels[n].path[|labels[n].path| - 1]] == n
  }

  ghost predicate Leaf(trie: seq<TrieNode>, id: nat) {
    exists n :: 0 <= n < |trie| && trie[n].end == Obj(id)
  }

  ghost predicate TrieOk(g: Cfg, trie: seq<TrieNode>, roots: map<Symbol, nat>, labels: seq<Label>, kernels: seq<seq<Item>>) {
    && |trie| == |labels|
    && (forall n :: 0 <= n < |trie| ==> NodeOk(g, trie, roots, labels, kernels, n))
    && (forall x :: x in roots ==> roots[x] < |trie| && labels[roots[x]] == Label(x, []))
    && (forall id :: 0 < id < |kernels| ==> Leaf(trie, id))
  }

  /** Two dictionaries with the same path are the same dictionary. */
  lemma {:induction false} LabelsDistinct(g: Cfg, trie: seq<TrieNode>, roots: map<Symbol, nat>, labels: seq<Label>,
                                          kernels: seq<seq<Item>>, n: nat, m: nat)
    requires TrieOk(g, trie, roots, labels, kernels) && n < |trie| && m < |trie| && labels[n] == labels[m]
    ensures n == m
    decreases |labels[n].path|
  {
    assert NodeOk(g, trie, roots, labels, kernels, n) && NodeOk(g, trie, roots, labels, kernels, m);
    if labels[n].path != [] {
      var n' :| ChildOf(trie, labels, n', n);
      var m' :| ChildOf(trie, labels, m', m);
      LabelsDistinct(g, trie, roots, labels, kernels, n', m');
    }
  }

  /** The object under a dictionary is the only one with that kernel. */
  lemma UniqueObject(g: Cfg, trie: seq<TrieNode>, roots: map<Symbol, nat>, labels: seq<Label>,
                     kernels: seq<seq<Item>>, n: nat, id: nat)
    requires TrieOk(g, trie, roots, labels, kernels) && n < |trie| && labels[n].path != []
    requires 0 < id < |kernels| && kernels[id] == labels[n].path
    ensures trie[n].end == Obj(id)
  {
    assert Leaf(trie, id);
    var m :| 0 <= m < |trie| && trie[m].end == Obj(id);
    assert NodeOk(g, trie, roots, labels, kernels, n) && NodeOk(g, trie, roots, labels, kernels, m);
    assert labels[m].path == labels[n].path;
    assert PathOf(g, labels[m]) && PathOf(g, labels[n]);
    assert labels[m].path[0] == labels[n].path[0];
    LabelsDistinct(g, trie, roots, labels, kernels, n, m);
  }

  /** A new dictionary for a symbol. */
  lemma AddRoot(g: Cfg, trie: seq<TrieNode>, roots: map<Symbol, nat>, labels: seq<Label>, kernels: seq<seq<Item>>, x: Symbol)
    requires TrieOk(g, trie, roots, labels, kernels) && x !in roots
    ensures TrieOk(g, trie + [TrieNode(map[], Missing)], roots[x := |trie|], labels + [Label(x, [])], kernels)
  {
    var trie', roots', labels' := trie + [TrieNode(map[], Missing)], roots[x := |trie|], labels + [Label(x, [])];
    forall n | 0 <= n < |trie'| ensures NodeOk(g, trie', roots', labels', kernels, n) {
      if n < |trie| {
        assert NodeOk(g, trie, roots, labels, kernels, n);
        if labels[n].path != [] {
          var m :| ChildOf(trie, labels, m, n);
          assert ChildOf(trie', labels', m, n);
        }
      }
    }
    LeavesKept(trie, trie', kernels);
  }

  lemma LeavesKept(trie: seq<TrieNode>, trie': seq<TrieNode>, kernels: seq<seq<Item>>)
    requires |trie| <= |trie'| && forall n :: 0 <= n < |trie| && trie[n].end.Obj? ==> trie'[n].end == trie[n].end
    requires forall id :: 0 < id < |kernels| ==> Leaf(trie, id)
    ensures forall id :: 0 < id < |kernels| ==> Leaf(trie', id)
  {
    forall id | 0 < id < |kernels| ensures Leaf(trie', id) {
      assert Leaf(trie, id);
      var n :| 0 <= n < |trie| && trie[n].end == Obj(id);
      assert trie'[n].end == Obj(id);
    }
  }

  /** A new dictionary below another one. */
  lemma AddChild(g: Cfg, trie: seq<TrieNode>, roots: map<Symbol, nat>, labels: seq<Label>, kernels: seq<seq<Item>>, s: nat, it: Item)
    requires TrieOk(g, trie, roots, labels, kernels) && s < |trie| && it !in trie[s].children
    requires it.dot > 0 && DotBefore(g, Item(it.num, it.dot - 1), labels[s].sym)
    ensures TrieOk(g, trie[s := trie[s].(children := trie[s].children[it := |trie|])] + [TrieNode(map[], Missing)], roots,
                   labels + [Label(labels[s].sym, labels[s].path + [it])], kernels)
  {
    var trie' := trie[s := trie[s].(children := trie[s].children[it := |trie|])] + [TrieNode(map[], Missing)];
    var labels' := labels + [Label(labels[s].sym, labels[s].path + [it])];
    assert NodeOk(g, trie, roots, labels, kernels, s);
    forall n | 0 <= n < |trie'| ensures NodeOk(g, trie', roots, labels', kernels, n) {
      if n < |trie| {
        assert NodeOk(g, trie, roots, labels, kernels, n);
        if labels[n].path != [] {
          var m :| ChildOf(trie, labels, m, n);
          assert ChildOf(trie', labels', m, n);
        }
      } else {
        assert labels'[n].path[..|labels'[n].path| - 1] == labels[s].path;
        assert ChildOf(trie', labels', s, n);
      }
    }
    LeavesKept(trie, trie', kernels);
  }

  /** A new list object stored under its path. */
  lemma AddLeaf(g: Cfg, trie: seq<TrieNode>, roots: map<Symbol, nat>, labels: seq<Label>, kernels: seq<seq<Item>>, s: nat)
    requires TrieOk(g, trie, roots, labels, kernels) && s < |trie| && !trie[s].end.Obj? && labels[s].path != [] && |kernels| > 0
    ensures TrieOk(g, trie[s := trie[s].(end := Obj(|kernels|))], roots, labels, kernels + [labels[s].path])
  {
    var trie' := trie[s := trie[s].(end := Obj(|kernels|))];
    var kernels' := kernels + [labels[s].path];
    forall n | 0 <= n < |trie'| ensures NodeOk(g, trie', roots, labels, kernels', n) {
      assert NodeOk(g, trie, roots, labels, kernels, n);
      if labels[n].path != [] {
        var m :| ChildOf(trie, labels, m, n);
        assert ChildOf(trie', labels, m, n);
      }
    }
    LeavesKept(trie, trie', kernels);
    assert trie'[s].end == Obj(|kernels|);
    assert Leaf(trie', |kernels|);
  }

  /** The empty list stored at the end of a path. */
  lemma AddEmpty(g: Cfg, trie: seq<TrieNode>, roots: map<Symbol, nat>, labels: seq<Label>, kernels: seq<seq<Item>>, s: nat)
    requires TrieOk(g, trie, roots, labels, kernels) && s < |trie| && !trie[s].end.Obj?
    ensures TrieOk(g, trie[s := trie[s].(end := EmptyList)], roots, labels, kernels)
  {
    var trie' := trie[s := trie[s].(end := EmptyList)];
    forall n | 0 <= n < |trie'| ensures NodeOk(g, trie', roots, labels, kernels, n) {
      assert NodeOk(g, trie, roots, labels, kernels, n);
      if labels[n].path != [] {
        var m :| ChildOf(trie, labels, m, n);
        assert ChildOf(trie', labels, m, n);
      }
    }
    LeavesKept(trie, trie', kernels);
  }
}
