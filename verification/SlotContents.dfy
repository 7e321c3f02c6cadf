/** What ends up in a slot of the action table, in terms of the grammar's productions and its precedence
    table alone. */
module SlotContents {
  import opened Lists
  import opened Grammars
  import opened Items
  import opened ParserTables
  import opened TableFill
  import opened Conflicts

  /** What is promised for a rule that competes with shifts: its own precedence against the token's. */
  lemma PromiseSpelledOut(S: Slot, it: Item)
    requires it.num < |S.g.productions|
    ensures var rule, token := S.g.productions[it.num].prec, if S.a in S.g.precedence then S.g.precedence[S.a] else Prec(RightAssoc, 0);
      Promised(S.Rule(it), S.Token(), it.num, S.Target()) ==
        if rule.level > token.level || (rule.level == token.level && rule.assoc == LeftAssoc) then Some(0 - it.num)
        else if rule.level == token.level && rule.assoc == Nonassoc then None
        else Some(S.Target())
  {
  }

  /** The terminal is among the lookaheads of the item, which is complete. */
  predicate CompleteOn(g: Cfg, la: LookTable, q: nat, a: Symbol, it: Item) {
    && 1 <= it.num < |g.productions| && it.dot == |g.productions[it.num].rhs|
    && (q, it.num) in la && a in la[(q, it.num)]
  }

  predicate Expects(g: Cfg, a: Symbol, it: Item) {
    it.num < |g.productions| && it.dot < |g.productions[it.num].rhs| && g.productions[it.num].rhs[it.dot] == a
  }

  /** All items but those at `i` and `j` have nothing to do with the terminal. */
  ghost predicate OnlyTwo(g: Cfg, la: LookTable, q: nat, a: Symbol, I: seq<Item>, i: nat, j: nat) {
    i < |I| && j < |I| && i != j && forall k :: 0 <= k < |I| && k != i && k != j ==> !CompleteOn(g, la, q, a, I[k]) && !Expects(g, a, I[k])
  }

  lemma KindsMeet(S: Slot, C: seq<seq<Item>>, K: seq<seq<Item>>, it: Item)
    requires S.g.WellFormed() && Collection(S.g, C, K, S.d) && S.q < |C| && S.a in S.g.terminals && it in C[S.q]
    ensures CompleteOn(S.g, S.la, S.q, S.a, it) <==> Reduces(S, it)
    ensures Expects(S.g, S.a, it) <==> Shifts(S, it)
    ensures Silent(S, it) || Reduces(S, it) || Shifts(S, it)
  {
    hide Collection;
    StateItems(S.g, C, K, S.d, S.q, it);
    StateBound(S.g, C, K, S.d, S.q, S.a);
    if Expects(S.g, S.a, it) {
      MoveItem(S.g, C, K, S.d, S.q, it, S.a);
    }
    PlainItem(S, C, K, it);
  }

  lemma PlainItem(S: Slot, C: seq<seq<Item>>, K: seq<seq<Item>>, it: Item)
    requires S.g.WellFormed() && Collection(S.g, C, K, S.d) && S.q < |C| && S.a in S.g.terminals && it in C[S.q]
    ensures Silent(S, it) || Reduces(S, it) || Shifts(S, it)
  {
    hide Collection, Silent, Reduces, Shifts;
    PlainSlots(S, C, K);
  }

  /** The slot after the first `k` items, when only those at `first` and `second` count. */
  lemma {:induction false} TwoSteps(S: Slot, I: seq<Item>, first: nat, second: nat, k: nat)
    requires first < second < |I| && k <= |I|
    requires Reduces(S, I[first]) || Shifts(S, I[first])
    requires forall i :: 0 <= i < |I| && i != first && i != second ==> Silent(S, I[i])
    ensures k <= first ==> S.After(I[..k]) == BLANK
    ensures first < k <= second ==> S.After(I[..k]) == EntryOf(S, I[first])
    ensures second < k ==> S.After(I[..k]) == Settle(S.g, S.d, S.la, S.q, S.a, EntryOf(S, I[first]), I[second])
    decreases k
  {
    hide Settle, Silent, Reduces, Shifts, EntryOf;
    if k == 0 {
      assert I[..k] == [];
    } else {
      var n := k - 1;
      TwoSteps(S, I, first, second, n);
      SettledSnoc(S.g, S.d, S.la, S.q, S.a, I, n);
      if n == first {
        OpenEffect(S, S.After(I[..n]), I[n]);
      } else if n != second {
        SilentEffect(S, S.After(I[..n]), I[n]);
      }
    }
  }

  /** In a state of any collection, a complete item of rule `p` and one item that expects the terminal. With
      the complete item in front, the rule's precedence is compared with the token's: the rule is reduced if
      its level is higher, or equal and it is left-associative; the slot is left empty if the levels are equal
      and it is non-associative; the terminal is shifted otherwise. */
  lemma ReduceMeetsShift(S: Slot, C: seq<seq<Item>>, K: seq<seq<Item>>, i: nat, j: nat)
    requires S.g.WellFormed() && Collection(S.g, C, K, S.d) && S.q < |C| && S.a in S.g.terminals
    requires OnlyTwo(S.g, S.la, S.q, S.a, C[S.q], i, j) && CompleteOn(S.g, S.la, S.q, S.a, C[S.q][i]) && Expects(S.g, S.a, C[S.q][j])
    requires i < j
    ensures (S.q, S.a) in S.d
    ensures var c, p := Settled(S.g, S.d, S.la, S.q, S.a, C[S.q]), C[S.q][i].num;
      var rule, token := S.g.productions[p].prec, if S.a in S.g.precedence then S.g.precedence[S.a] else Prec(RightAssoc, 0);
      && c.Cell?
      && c.act == if rule.level > token.level || (rule.level == token.level && rule.assoc == LeftAssoc) then Some(0 - p)
                  else if rule.level == token.level && rule.assoc == Nonassoc then None
                  else Some(S.d[(S.q, S.a)])
  {
    hide *;
    var I := C[S.q];
    TwoKinds(S, C, K, i, j);
    SettledTwice(S, I, i, j);
    Shifting(S, I[j]);
    ReduceThenShift(S, I[i], I[j]);
  }

  lemma Shifting(S: Slot, it: Item)
    requires Shifts(S, it)
    ensures (S.q, S.a) in S.d && S.Target() == S.d[(S.q, S.a)]
  {
  }

  lemma ReduceThenShift(S: Slot, r: Item, s: Item)
    requires Reduces(S, r) && Shifts(S, s)
    ensures r.num < |S.g.productions|
    ensures var c, p := Settle(S.g, S.d, S.la, S.q, S.a, EntryOf(S, r), s), r.num;
      var rule, token := S.g.productions[p].prec, if S.a in S.g.precedence then S.g.precedence[S.a] else Prec(RightAssoc, 0);
      && c.Cell?
      && c.act == if rule.level > token.level || (rule.level == token.level && rule.assoc == LeftAssoc) then Some(0 - p)
                  else if rule.level == token.level && rule.assoc == Nonassoc then None
                  else Some(S.Target())
  {
    hide Settle, Shifts;
    HeldEffect(S, r, s);
    EntrySign(S, r);
    EntrySign(S, s);
    OneKind(S, r);
    OneKind(S, s);
  }

  lemma ShiftThenReduce(S: Slot, r: Item, s: Item)
    requires Reduces(S, r) && Shifts(S, s)
    ensures r.num < |S.g.productions| && s.num < |S.g.productions|
    ensures var c, p := Settle(S.g, S.d, S.la, S.q, S.a, EntryOf(S, s), r), r.num;
      var own, token := S.g.productions[s.num].prec, if S.a in S.g.precedence then S.g.precedence[S.a] else Prec(RightAssoc, 0);
      && c.Cell?
      && c.act == if own.level < token.level || (own.level == token.level && token.assoc == LeftAssoc) then Some(0 - p)
                  else if own.level == token.level && token.assoc == Nonassoc then None
                  else Some(S.Target())
  {
    hide Settle, Reduces;
    HeldEffect(S, s, r);
    EntrySign(S, r);
    EntrySign(S, s);
    OneKind(S, r);
    OneKind(S, s);
    Indexed(S, r);
  }

  lemma Indexed(S: Slot, it: Item)
    requires Reduces(S, it)
    ensures it.num < |S.g.productions|
  {
  }

  lemma TwoKinds(S: Slot, C: seq<seq<Item>>, K: seq<seq<Item>>, i: nat, j: nat)
    requires S.g.WellFormed() && Collection(S.g, C, K, S.d) && S.q < |C| && S.a in S.g.terminals
    requires OnlyTwo(S.g, S.la, S.q, S.a, C[S.q], i, j) && CompleteOn(S.g, S.la, S.q, S.a, C[S.q][i]) && Expects(S.g, S.a, C[S.q][j])
    ensures i < |C[S.q]| && j < |C[S.q]| && i != j && Reduces(S, C[S.q][i]) && Shifts(S, C[S.q][j])
    ensures forall k :: 0 <= k < |C[S.q]| && k != i && k != j ==> Silent(S, C[S.q][k])
  {
    hide Collection, CompleteOn, Expects, Reduces, Shifts, Silent;
    forall k | 0 <= k < |C[S.q]|
      ensures CompleteOn(S.g, S.la, S.q, S.a, C[S.q][k]) <==> Reduces(S, C[S.q][k])
      ensures Expects(S.g, S.a, C[S.q][k]) <==> Shifts(S, C[S.q][k])
      ensures Silent(S, C[S.q][k]) || Reduces(S, C[S.q][k]) || Shifts(S, C[S.q][k])
    {
      KindsMeet(S, C, K, C[S.q][k]);
    }
  }

  lemma SettledTwice(S: Slot, I: seq<Item>, i: nat, j: nat)
    requires i < |I| && j < |I| && i != j
    requires Reduces(S, I[i]) || Shifts(S, I[i])
    requires Reduces(S, I[j]) || Shifts(S, I[j])
    requires forall k :: 0 <= k < |I| && k != i && k != j ==> Silent(S, I[k])
    ensures var first, second := if i < j then i else j, if i < j then j else i;
      Settled(S.g, S.d, S.la, S.q, S.a, I) == Settle(S.g, S.d, S.la, S.q, S.a, EntryOf(S, I[first]), I[second])
  {
    hide Settle, Silent, Reduces, Shifts, EntryOf;
    var first, second := if i < j then i else j, if i < j then j else i;
    TwoSteps(S, I, first, second, |I|);
    assert I[..|I|] == I;
  }

  /** With the other item in front it is that item's rule that is compared with the token, and the token's
      associativity that decides between equal levels. */
  lemma ShiftMeetsReduce(S: Slot, C: seq<seq<Item>>, K: seq<seq<Item>>, i: nat, j: nat)
    requires S.g.WellFormed() && Collection(S.g, C, K, S.d) && S.q < |C| && S.a in S.g.terminals
    requires OnlyTwo(S.g, S.la, S.q, S.a, C[S.q], i, j) && CompleteOn(S.g, S.la, S.q, S.a, C[S.q][i]) && Expects(S.g, S.a, C[S.q][j])
    requires j < i
    ensures (S.q, S.a) in S.d
    ensures var c, p := Settled(S.g, S.d, S.la, S.q, S.a, C[S.q]), C[S.q][i].num;
      var own, token := S.g.productions[C[S.q][j].num].prec, if S.a in S.g.precedence then S.g.precedence[S.a] else Prec(RightAssoc, 0);
      && c.Cell?
      && c.act == if own.level < token.level || (own.level == token.level && token.assoc == LeftAssoc) then Some(0 - p)
                  else if own.level == token.level && token.assoc == Nonassoc then None
                  else Some(S.d[(S.q, S.a)])
  {
    hide *;
    var I := C[S.q];
    TwoKinds(S, C, K, i, j);
    SettledTwice(S, I, i, j);
    Shifting(S, I[j]);
    ShiftThenReduce(S, I[i], I[j]);
  }

  /** Among complete items only, the one whose rule has the smallest line is reduced, the first one of them. */
  lemma SmallestLine(S: Slot, C: seq<seq<Item>>, K: seq<seq<Item>>, w: nat)
    requires S.g.WellFormed() && Collection(S.g, C, K, S.d) && S.q < |C| && S.a in S.g.terminals && w < |C[S.q]|
    requires (forall k :: 0 <= k < |C[S.q]| ==> !Expects(S.g, S.a, C[S.q][k])) && CompleteOn(S.g, S.la, S.q, S.a, C[S.q][w])
    requires forall k :: 0 <= k < |C[S.q]| && CompleteOn(S.g, S.la, S.q, S.a, C[S.q][k]) ==>
               var mine, other := S.g.productions[C[S.q][w].num].line, S.g.productions[C[S.q][k].num].line;
               mine < other || (mine == other && w <= k)
    ensures Settled(S.g, S.d, S.la, S.q, S.a, C[S.q]) == Cell(Some(0 - C[S.q][w].num), C[S.q][w].num)
  {
    hide Collection, Reduces, Shifts, Silent, Settled;
    var I := C[S.q];
    forall k | 0 <= k < |I|
      ensures CompleteOn(S.g, S.la, S.q, S.a, I[k]) <==> Reduces(S, I[k])
      ensures !Shifts(S, I[k]) && (Silent(S, I[k]) || Reduces(S, I[k]))
    {
      KindsMeet(S, C, K, I[k]);
    }
    LineWins(S, I, w);
  }

  lemma LineWins(S: Slot, I: seq<Item>, w: nat)
    requires Plain(S, I) && (forall k :: 0 <= k < |I| ==> !Shifts(S, I[k])) && w < |I| && Reduces(S, I[w])
    requires forall k :: 0 <= k < |I| && Reduces(S, I[k]) ==>
               I[k].num < |S.g.productions| && I[w].num < |S.g.productions|
               && var mine, other := S.g.productions[I[w].num].line, S.g.productions[I[k].num].line; mine < other || (mine == other && w <= k)
    ensures S.After(I) == Cell(Some(0 - I[w].num), I[w].num)
  {
    hide Reduces, Shifts, Silent, Settled;
    FirstRuleWins(S, I);
    ReduceNotSilent(S, I[w]);
    var v: nat :| Wins(S, I, v) && S.After(I) == EntryOf(S, I[v]);
    assert NotBefore(S, I, v, w);
    CompleteItem(S, I[w]);
  }

  lemma CompleteItem(S: Slot, it: Item)
    requires Reduces(S, it)
    ensures Complete(S.g, it)
  {
  }
}
