/** The table file: state-by-symbol tables are written transposed, symbol by symbol, and rebuilt when the
    file is loaded. Every entry comes back; a state without entries does not. */
module TableFile {
  import opened Lists
  import opened Grammars
  import opened Items
  import opened ParserTables
  import opened Engine
  import opened EngineFacts

  /** A table as the generator leaves it, and the factored form in the file: for each symbol the states
      and, in step, the values. */
  type Table<V> = map<nat, map<Symbol, V>>
  type Factored<V> = map<Symbol, (seq<nat>, seq<V>)>

  ghost predicate Holds<V>(t: Table<V>, s: nat, k: Symbol, v: V) {
    s in t && k in t[s] && t[s][k] == v
  }

  ghost predicate PairAt<V>(items: Factored<V>, k: Symbol, j: nat, s: nat, v: V) {
    k in items && j < |items[k].0| && j < |items[k].1| && items[k].0[j] == s && items[k].1[j] == v
  }

  /** The two lists of symbol `k`, read in step, give the pair (s, v). */
  ghost predicate Paired<V>(items: Factored<V>, k: Symbol, s: nat, v: V) {
    exists j: nat :: PairAt(items, k, j, s, v)
  }

  /** The lists of every symbol are in step, and name no state twice. */
  ghost predicate InStep<V>(items: Factored<V>) {
    forall k :: k in items ==> |items[k].0| == |items[k].1| && NoDuplicates(items[k].0)
  }

  ghost predicate SameEntries<V(!new)>(t: Table<V>, items: Factored<V>) {
    forall s: nat, k, v :: Holds(t, s, k, v) <==> Paired(items, k, s, v)
  }

  /** A state and a value are appended to the two lists of symbol `k`, created when missing. */
  function Append<V>(items: Factored<V>, k: Symbol, s: nat, v: V): Factored<V> {
    var i := if k in items then items[k] else ([], []);
    items[k := (i.0 + [s], i.1 + [v])]
  }

  /** One entry is assigned, and its row created when missing. */
  function Assign<V>(t: Table<V>, x: nat, k: Symbol, y: V): Table<V> {
    t[x := (if x in t then t[x] else map[])[k := y]]
  }

  lemma AppendPairs<V(!new)>(items: Factored<V>, k: Symbol, s: nat, v: V)
    requires InStep(items)
    ensures forall k', s': nat, v' :: Paired(Append(items, k, s, v), k', s', v') <==> Paired(items, k', s', v') || (k', s', v') == (k, s, v)
  {
    var items' := Append(items, k, s, v);
    forall k', s': nat, v' ensures Paired(items', k', s', v') <==> Paired(items, k', s', v') || (k', s', v') == (k, s, v) {
      if Paired(items, k', s', v') {
        var j: nat :| PairAt(items, k', j, s', v');
        assert PairAt(items', k', j, s', v');
      }
      if (k', s', v') == (k, s, v) {
        assert PairAt(items', k, |items'[k].0| - 1, s, v);
      }
      if Paired(items', k', s', v') {
        var j: nat :| PairAt(items', k', j, s', v');
        assert PairAt(items, k', j, s', v') || (k', s', v') == (k, s, v);
      }
    }
  }

  lemma AppendInStep<V(!new)>(items: Factored<V>, k: Symbol, s: nat, v: V)
    requires InStep(items) && (k in items ==> s !in items[k].0)
    ensures InStep(Append(items, k, s, v))
  {
  }

  lemma AssignHolds<V(!new)>(t: Table<V>, s: nat, k: Symbol, v: V)
    requires s in t ==> k !in t[s]
    ensures forall s': nat, k', v' :: Holds(Assign(t, s, k, v), s', k', v') <==> Holds(t, s', k', v') || (k', s', v') == (k, s, v)
  {
  }

  /** A state is listed under a symbol only if its row has that symbol. */
  lemma ListedState<V(!new)>(t: Table<V>, items: Factored<V>, k: Symbol, s: nat)
    requires SameEntries(t, items) && InStep(items)
    ensures k in items && s in items[k].0 <==> s in t && k in t[s]
  {
    if k in items && s in items[k].0 {
      var j: nat :| j < |items[k].0| && items[k].0[j] == s;
      assert PairAt(items, k, j, s, items[k].1[j]);
      assert Paired(items, k, s, items[k].1[j]);
      assert Holds(t, s, k, items[k].1[j]);
    }
    if s in t && k in t[s] {
      assert Holds(t, s, k, t[s][k]);
      var j: nat :| PairAt(items, k, j, s, t[s][k]);
    }
  }

  /** One more entry, in the table and in the factored form. */
  lemma AddEntry<V(!new)>(t: Table<V>, items: Factored<V>, s: nat, k: Symbol, v: V)
    requires SameEntries(t, items) && InStep(items) && (s in t ==> k !in t[s])
    ensures SameEntries(Assign(t, s, k, v), Append(items, k, s, v)) && InStep(Append(items, k, s, v))
  {
    hide Holds, Paired, Append, Assign, InStep;
    ListedState(t, items, k, s);
    AppendInStep(items, k, s, v);
    AppendPairs(items, k, s, v);
    AssignHolds(t, s, k, v);
  }

  /** The entries of the table are visited in whatever order. */
  method Factor<V(==, !new)>(table: Table<V>) returns (items: Factored<V>)
    ensures SameEntries(table, items) && InStep(items)
    ensures forall k :: k in items ==> items[k].0 != []
  {
    items := map[];
    var states := table.Keys;
    ghost var t: Table<V> := map[];
    NoEntries(t, items);
    while states != {}
      invariant states <= table.Keys && t.Keys == table.Keys - states && (forall s :: s in t ==> t[s] == table[s])
      invariant SameEntries(t, items) && InStep(items) && forall k :: k in items ==> items[k].0 != []
      decreases states
    {
      var s :| s in states;
      states := states - {s};
      EmptyRow(t, items, s);
      t := t[s := map[]];
      var nd := table[s];
      var names := nd.Keys;
      while names != {}
        invariant names <= nd.Keys && s in t && t[s].Keys == nd.Keys - names && (forall k :: k in t[s] ==> t[s][k] == nd[k])
        invariant t.Keys == table.Keys - states && (forall s' :: s' in t && s' != s ==> t[s'] == table[s'])
        invariant SameEntries(t, items) && InStep(items) && forall k :: k in items ==> items[k].0 != []
        decreases names
      {
        var name :| name in names;
        names := names - {name};
        AddEntry(t, items, s, name, nd[name]);
        t := Assign(t, s, name, nd[name]);
        items := Append(items, name, s, nd[name]);
      }
      assert t[s] == nd;
    }
    assert t == table;
  }

  lemma NoEntries<V(!new)>(t: Table<V>, items: Factored<V>)
    requires t == map[] && items == map[]
    ensures SameEntries(t, items) && InStep(items)
  {
  }

  lemma EmptyRow<V(!new)>(t: Table<V>, items: Factored<V>, s: nat)
    requires SameEntries(t, items) && s !in t
    ensures SameEntries(t[s := map[]], items)
  {
    forall s': nat, k, v ensures Holds(t[s := map[]], s', k, v) <==> Holds(t, s', k, v) {}
  }

  /** The loop in the file, over the symbols and over the two lists of each in step. */
  method Load<V(==, !new)>(items: Factored<V>) returns (table: Table<V>)
    requires InStep(items)
    ensures SameEntries(table, items) && forall s :: s in table ==> table[s] != map[]
  {
    table := map[];
    var keys := items.Keys;
    ghost var read: Factored<V> := map[];
    NoEntries(table, read);
    while keys != {}
      invariant keys <= items.Keys && read.Keys <= items.Keys - keys && (forall k :: k in items && k !in keys ==> Covered(read, items, k))
      invariant SameEntries(table, read) && InStep(read) && forall s :: s in table ==> table[s] != map[]
      decreases keys
    {
      var k :| k in keys;
      keys := keys - {k};
      var v := items[k];
      for j := 0 to |v.0|
        invariant read.Keys <= items.Keys - keys && (forall k' :: k' in items && k' !in keys && k' != k ==> Covered(read, items, k'))
        invariant (if k in read then read[k] else ([], [])) == (v.0[..j], v.1[..j])
        invariant SameEntries(table, read) && InStep(read) && forall s :: s in table ==> table[s] != map[]
      {
        assert v.0[j] !in v.0[..j];
        ListedState(table, read, k, v.0[j]);
        AddEntry(table, read, v.0[j], k, v.1[j]);
        table := Assign(table, v.0[j], k, v.1[j]);
        read := Append(read, k, v.0[j], v.1[j]);
        assert v.0[..j + 1] == v.0[..j] + [v.0[j]] && v.1[..j + 1] == v.1[..j] + [v.1[j]];
      }
      assert v.0[..|v.0|] == v.0 && v.1[..|v.0|] == v.1;
    }
    AllRead(table, read, items);
  }

  /** All of symbol `k` has been read. */
  ghost predicate Covered<V(!new)>(read: Factored<V>, items: Factored<V>, k: Symbol) {
    k in items && (if k in read then read[k] else ([], [])) == items[k]
  }

  lemma AllRead<V(!new)>(table: Table<V>, read: Factored<V>, items: Factored<V>)
    requires SameEntries(table, read) && read.Keys <= items.Keys && forall k :: k in items ==> Covered(read, items, k)
    ensures SameEntries(table, items)
  {
    forall k, s: nat, v ensures Paired(read, k, s, v) <==> Paired(items, k, s, v) {
      assert k in items ==> Covered(read, items, k);
      if Paired(read, k, s, v) {
        var j: nat :| PairAt(read, k, j, s, v);
        assert PairAt(items, k, j, s, v);
      }
      if Paired(items, k, s, v) {
        var j: nat :| PairAt(items, k, j, s, v);
        assert PairAt(read, k, j, s, v);
      }
    }
  }

  /** The rows that have entries. */
  function NonemptyRows<V>(t: Table<V>): Table<V> {
    map s | s in t && t[s] != map[] :: t[s]
  }

  /** The round trip: loading what was written gives back every entry of every nonempty row, and nothing
      else. */
  lemma RoundTrip<V(!new)>(t: Table<V>, items: Factored<V>, t': Table<V>)
    requires SameEntries(t, items) && SameEntries(t', items) && forall s :: s in t' ==> t'[s] != map[]
    ensures t' == NonemptyRows(t)
  {
    forall s: nat, k, v ensures Holds(t, s, k, v) <==> Holds(t', s, k, v) {
      assert Holds(t, s, k, v) <==> Paired(items, k, s, v);
    }
    forall s | s in t && t[s] != map[] ensures s in t' && t'[s] == t[s] {
      var k :| k in t[s];
      assert Holds(t, s, k, t[s][k]);
      SameRow(t, t', s);
    }
    forall s | s in t' ensures s in t && t[s] != map[] {
      var k :| k in t'[s];
      assert Holds(t', s, k, t'[s][k]);
    }
  }

  lemma SameRow<V(!new)>(t: Table<V>, t': Table<V>, s: nat)
    requires s in t && s in t' && forall s: nat, k, v :: Holds(t, s, k, v) <==> Holds(t', s, k, v)
    ensures t[s] == t'[s]
  {
    forall k | k in t[s] ensures k in t'[s] && t'[s][k] == t[s][k] {
      assert Holds(t, s, k, t[s][k]);
    }
    forall k | k in t'[s] ensures k in t[s] {
      assert Holds(t', s, k, t'[s][k]);
    }
  }

  // ----- Parsing with reloaded tables -----

  method WriteAndLoad(T: Tables) returns (R: Tables)
    ensures R == Reloaded(T)
  {
    var actions := Factor(T.action);
    var gotos := Factor(T.goto);
    var action := Load(actions);
    var goto := Load(gotos);
    RoundTrip(T.action, actions, action);
    RoundTrip(T.goto, gotos, goto);
    R := Tables(action, goto, T.productions);
  }

  function Reloaded(T: Tables): Tables {
    Tables(NonemptyRows(T.action), NonemptyRows(T.goto), T.productions)
  }

  /** One round with reloaded tables is the same round, exactly when the state has an action entry: a
      state without any makes the reloaded parser fail with an exception where the original one reports
      a syntax error. */
  lemma ReloadedStep(g: Cfg, C: seq<seq<Item>>, d: Delta, T: Tables, h: bool, c: Config)
    requires c.status == Running && Viable(g, C, d, c)
    ensures Step(Reloaded(T), h, c) == Step(T, h, c) <==> (c.state in T.action ==> T.action[c.state] != map[])
  {
    hide Viable, Recover, Reduce;
    FetchViable(g, C, d, c);
    var f := Fetch(c);
    if c.state in T.action && T.action[c.state] == map[] {
      RecoverViable(g, C, d, h, f);
    } else {
      ReloadedReduce(T, f);
    }
  }

  lemma ReloadedReduce(T: Tables, c: Config)
    ensures forall p: nat :: Reduce(Reloaded(T), c, p) == Reduce(T, c, p)
  {
  }

  /** When every state has an action entry, whole runs are the same. */
  lemma {:induction false} ReloadedRun(T: Tables, h: bool, c: Config, n: nat)
    requires forall s :: s in T.action ==> T.action[s] != map[]
    ensures Run(Reloaded(T), h, c, n) == Run(T, h, c, n)
    decreases n
  {
    if n > 0 && c.status == Running {
      ReloadedReduce(T, Fetch(c));
      assert Step(Reloaded(T), h, c) == Step(T, h, c);
      ReloadedRun(T, h, Step(T, h, c), n - 1);
    }
  }
}
