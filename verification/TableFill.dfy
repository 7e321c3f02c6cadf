/** How the action slots of one state are settled: what each item offers, and how the generator
    chooses between a shift and a reduce or between two reduces. */
module TableFill {
  import opened Lists
  import opened Grammars
  import opened Items
  import opened ParserTables

  /** The entry of a terminal in a row under construction: its action, and the production of the item
      that was recorded for it. An accept that meets a reduce raises an exception. */
  datatype Cell = Cell(act: Option<int>, holder: nat) | Clash

  const BLANK := Cell(None, 0)

  function ProductionPrec(g: Cfg, p: nat): Precedence {
    if p < |g.productions| then g.productions[p].prec else NO_PRECEDENCE
  }

  function ProductionLine(g: Cfg, p: nat): int {
    if p < |g.productions| then g.productions[p].line else 0
  }

  /** The precedence of a token: the lowest, right-associative, if it has none. */
  function TokenPrec(g: Cfg, a: Symbol): Precedence {
    if a in g.precedence then g.precedence[a] else NO_PRECEDENCE
  }

  /** A completed item of production `p` has `a` among its lookaheads. */
  function ReduceOn(g: Cfg, a: Symbol, c: Cell, p: nat): Cell {
    if c.Clash? then c
    else if c.act.None? then Cell(Some(0 - p), p)
    else if c.act.value > 0 then
      var s, r := ProductionPrec(g, c.holder), TokenPrec(g, a);
      if s.level < r.level || (s.level == r.level && r.assoc == LeftAssoc) then Cell(Some(0 - p), p)
      else if s.level == r.level && r.assoc == Nonassoc then Cell(None, c.holder)
      else c
    else if c.act.value < 0 then
      if ProductionLine(g, 0 - c.act.value) > ProductionLine(g, p) then Cell(Some(0 - p), p) else c
    else Clash
  }

  /** An item of production `p` has its dot before `a`, which leads to state `j`. */
  function ShiftOn(g: Cfg, a: Symbol, c: Cell, p: nat, j: nat): Cell {
    if c.Clash? then c
    else if c.act.None? then Cell(Some(j), p)
    else if c.act.value > 0 then if c.act.value != j then Clash else c
    else if c.act.value < 0 then
      var r, s := ProductionPrec(g, c.holder), TokenPrec(g, a);
      if s.level > r.level || (s.level == r.level && r.assoc == RightAssoc) then Cell(Some(j), p)
      else if s.level == r.level && r.assoc == Nonassoc then Cell(None, c.holder)
      else c
    else Clash
  }

  /** The slot (q, a) after one item. */
  function Settle(g: Cfg, d: Delta, la: LookTable, q: nat, a: Symbol, c: Cell, it: Item): Cell {
    if c.Clash? then c
    else if Complete(g, it) then
      if it.num == 0 then if a == End then Cell(Some(0), 0) else c
      else if (q, it.num) in la && a in la[(q, it.num)] then ReduceOn(g, a, c, it.num)
      else c
    else if DotBefore(g, it, a) && a in g.terminals && (q, a) in d then ShiftOn(g, a, c, it.num, d[(q, a)])
    else c
  }

  /** The slot (q, a) after the items of `I`, in their order. */
  function Settled(g: Cfg, d: Delta, la: LookTable, q: nat, a: Symbol, I: seq<Item>): Cell {
    if I == [] then BLANK else Settle(g, d, la, q, a, Settled(g, d, la, q, a, I[..|I| - 1]), I[|I| - 1])
  }

  lemma SettledSnoc(g: Cfg, d: Delta, la: LookTable, q: nat, a: Symbol, I: seq<Item>, m: nat)
    requires m < |I|
    ensures Settled(g, d, la, q, a, I[..m + 1]) == Settle(g, d, la, q, a, Settled(g, d, la, q, a, I[..m]), I[m])
  {
    assert I[..m + 1][..m] == I[..m];
  }

  // ----- What the items offer -----

  /** The item offers the encoded action `act` for the slot (q, a). */
  ghost predicate ItemOffers(g: Cfg, d: Delta, la: LookTable, q: nat, a: Symbol, it: Item, act: int) {
    && ValidItem(g, it)
    && if Complete(g, it) then
         if it.num == 0 then a == End && act == 0
         else (q, it.num) in la && a in la[(q, it.num)] && act == 0 - it.num
       else DotBefore(g, it, a) && a in g.terminals && (q, a) in d && act == d[(q, a)]
  }

  /** The actions offered for a slot are those of the items of the state. */
  lemma OffersIffItem(g: Cfg, C: seq<seq<Item>>, K: seq<seq<Item>>, d: Delta, la: LookTable, q: nat, a: Symbol, act: int)
    requires g.WellFormed() && Collection(g, C, K, d) && q < |C|
    ensures Offers(g, C, d, la, q, a, act) <==> exists it :: it in C[q] && ItemOffers(g, d, la, q, a, it, act)
  {
    hide Collection;
    if Offers(g, C, d, la, q, a, act) {
      var it := OfferingItem(g, C, K, d, la, q, a, act);
    }
    if it :| it in C[q] && ItemOffers(g, d, la, q, a, it, act) {
      StateBound(g, C, K, d, q, a);
      assert it == Item(it.num, it.dot);
      assert act > 0 ==> OffersShift(g, C, d, q, a, it);
    }
  }

  lemma OfferingItem(g: Cfg, C: seq<seq<Item>>, K: seq<seq<Item>>, d: Delta, la: LookTable, q: nat, a: Symbol, act: int) returns (it: Item)
    requires g.WellFormed() && Collection(g, C, K, d) && q < |C| && Offers(g, C, d, la, q, a, act)
    ensures it in C[q] && ItemOffers(g, d, la, q, a, it, act)
  {
    hide Collection;
    if act < 0 {
      it := Item(0 - act, |g.Rhs(0 - act)|);
    } else if act == 0 {
      it := Item(0, 1);
    } else {
      it :| OffersShift(g, C, d, q, a, it);
    }
  }

  // ----- What a settled slot holds -----

  /** A slot holds a action that one of the items offers. */
  ghost predicate Sourced(g: Cfg, d: Delta, la: LookTable, q: nat, a: Symbol, I: seq<Item>, c: Cell) {
    c.Cell? && c.act.Some? ==> exists it :: it in I && ItemOffers(g, d, la, q, a, it, c.act.value)
  }

  lemma {:induction false} SettledSourced(g: Cfg, d: Delta, la: LookTable, q: nat, a: Symbol, I: seq<Item>)
    requires ValidItems(g, I)
    ensures Sourced(g, d, la, q, a, I, Settled(g, d, la, q, a, I))
  {
    if I != [] {
      var I', it := I[..|I| - 1], I[|I| - 1];
      SettledSourced(g, d, la, q, a, I');
      var c', c := Settled(g, d, la, q, a, I'), Settled(g, d, la, q, a, I);
      if c.Cell? && c.act.Some? {
        if c'.Cell? && c'.act == c.act {
          var it' :| it' in I' && ItemOffers(g, d, la, q, a, it', c.act.value);
          assert it' in I;
        } else {
          SettleNew(g, d, la, q, a, c', it);
        }
      }
    }
  }

  /** Only what the item offers can become the new action. */
  lemma SettleNew(g: Cfg, d: Delta, la: LookTable, q: nat, a: Symbol, c: Cell, it: Item)
    requires ValidItem(g, it)
    ensures var c' := Settle(g, d, la, q, a, c, it);
      c'.Cell? && c'.act.Some? && (c.Clash? || c'.act != c.act) ==> ItemOffers(g, d, la, q, a, it, c'.act.value)
  {
  }

  ghost predicate SomeItemOffers(g: Cfg, d: Delta, la: LookTable, q: nat, a: Symbol, I: seq<Item>, act: int) {
    exists it :: it in I && ItemOffers(g, d, la, q, a, it, act)
  }

  /** An action without competition ends up in the slot. */
  lemma {:induction false} SettledUnopposed(g: Cfg, d: Delta, la: LookTable, q: nat, a: Symbol, I: seq<Item>, act: int)
    requires ValidItems(g, I)
    requires forall it, x :: it in I && ItemOffers(g, d, la, q, a, it, x) ==> x == act
    requires (q, a) in d ==> d[(q, a)] > 0
    ensures var c := Settled(g, d, la, q, a, I);
      c.Cell? && c.act == if SomeItemOffers(g, d, la, q, a, I, act) then Some(act) else None
  {
    if I != [] {
      var I', it := I[..|I| - 1], I[|I| - 1];
      assert I == I' + [it];
      SettledUnopposed(g, d, la, q, a, I', act);
      SettleUnopposed(g, d, la, q, a, Settled(g, d, la, q, a, I'), it, act);
      assert SomeItemOffers(g, d, la, q, a, I, act) <==>
        SomeItemOffers(g, d, la, q, a, I', act) || ItemOffers(g, d, la, q, a, it, act);
    }
  }

  lemma SettleUnopposed(g: Cfg, d: Delta, la: LookTable, q: nat, a: Symbol, c: Cell, it: Item, act: int)
    requires ValidItem(g, it) && c.Cell? && (c.act == Some(act) || c.act == None)
    requires forall x :: ItemOffers(g, d, la, q, a, it, x) ==> x == act
    requires (q, a) in d ==> d[(q, a)] > 0
    ensures var c' := Settle(g, d, la, q, a, c, it);
      c'.Cell? && c'.act == if ItemOffers(g, d, la, q, a, it, act) then Some(act) else c.act
  {
    var x := if Complete(g, it) then 0 - it.num else if (q, a) in d then d[(q, a)] else 0;
    assert ItemOffers(g, d, la, q, a, it, x) ==> x == act;
  }

  /** A row that agrees with the settled slots of its state. */
  ghost predicate RowSettled(g: Cfg, d: Delta, la: LookTable, q: nat, I: seq<Item>, row: ActionRow) {
    forall a :: SlotSettled(g, d, la, q, I, row, a)
  }

  ghost predicate SlotSettled(g: Cfg, d: Delta, la: LookTable, q: nat, I: seq<Item>, row: ActionRow, a: Symbol) {
    var c := Settled(g, d, la, q, a, I);
    c.Cell? && c.act == (if a in row then row[a] else None) && (a in row <==> Spoken(g, d, la, q, a, I))
  }

  /** The item offers something for the slot. */
  ghost predicate Speaks(g: Cfg, d: Delta, la: LookTable, q: nat, a: Symbol, it: Item) {
    exists x :: ItemOffers(g, d, la, q, a, it, x)
  }

  ghost predicate Spoken(g: Cfg, d: Delta, la: LookTable, q: nat, a: Symbol, I: seq<Item>) {
    exists it :: it in I && Speaks(g, d, la, q, a, it)
  }

  lemma SpokenSnoc(g: Cfg, d: Delta, la: LookTable, q: nat, a: Symbol, I: seq<Item>, m: nat)
    requires m < |I|
    ensures Spoken(g, d, la, q, a, I[..m + 1]) <==> Spoken(g, d, la, q, a, I[..m]) || Speaks(g, d, la, q, a, I[m])
  {
    hide Speaks;
    assert I[..m + 1] == I[..m] + [I[m]];
  }

  lemma ReduceSpeaks(g: Cfg, d: Delta, la: LookTable, q: nat, a: Symbol, it: Item)
    requires Complete(g, it) && it.num > 0 && (q, it.num) in la
    ensures Speaks(g, d, la, q, a, it) <==> a in la[(q, it.num)]
  {
    assert a in la[(q, it.num)] ==> ItemOffers(g, d, la, q, a, it, 0 - it.num);
  }

  lemma AcceptSpeaks(g: Cfg, d: Delta, la: LookTable, q: nat, a: Symbol, it: Item)
    requires Complete(g, it) && it.num == 0
    ensures Speaks(g, d, la, q, a, it) <==> a == End
  {
    assert a == End ==> ItemOffers(g, d, la, q, a, it, 0);
  }

  lemma ShiftSpeaks(g: Cfg, d: Delta, la: LookTable, q: nat, a: Symbol, it: Item, x: Symbol)
    requires DotBefore(g, it, x)
    ensures Speaks(g, d, la, q, a, it) <==> a == x && x in g.terminals && (q, x) in d
  {
    assert a == x && x in g.terminals && (q, x) in d ==> ItemOffers(g, d, la, q, a, it, d[(q, x)]);
  }

  /** However conflicts are settled, a row filled this way holds only offered actions, and every action
      offered without competition. */
  lemma SettledRowOk(g: Cfg, C: seq<seq<Item>>, K: seq<seq<Item>>, d: Delta, la: LookTable, q: nat, row: ActionRow)
    requires g.WellFormed() && Collection(g, C, K, d) && q < |C| && RowSettled(g, d, la, q, C[q], row)
    ensures RowOk(g, C, d, la, q, row)
  {
    hide *;
    StateItemsOf(g, C, K, d, q);
    forall a | a in row && row[a].Some? ensures Offers(g, C, d, la, q, a, row[a].value) {
      SlotHolds(g, d, la, q, C[q], row, a);
      SettledSourced(g, d, la, q, a, C[q]);
      SourcedOffer(g, d, la, q, a, C[q], Settled(g, d, la, q, a, C[q]));
      OffersIffItem(g, C, K, d, la, q, a, row[a].value);
    }
    forall a, act | Offers(g, C, d, la, q, a, act) && Unanimous(g, C, d, la, q, a) ensures a in row && row[a] == Some(act) {
      SlotHolds(g, d, la, q, C[q], row, a);
      UnanimousItems(g, C, K, d, la, q, a, act);
      StateBound(g, C, K, d, q, a);
      SettledUnopposed(g, d, la, q, a, C[q], act);
    }
    RowOkFrom(g, C, d, la, q, row);
  }

  lemma StateItemsOf(g: Cfg, C: seq<seq<Item>>, K: seq<seq<Item>>, d: Delta, q: nat)
    requires Collection(g, C, K, d) && q < |C|
    ensures ValidItems(g, C[q])
  {
    assert IsClosure(g, K[q], C[q]);
  }

  lemma SlotHolds(g: Cfg, d: Delta, la: LookTable, q: nat, I: seq<Item>, row: ActionRow, a: Symbol)
    requires RowSettled(g, d, la, q, I, row)
    ensures var c := Settled(g, d, la, q, a, I); c.Cell? && c.act == if a in row then row[a] else None
  {
    assert SlotSettled(g, d, la, q, I, row, a);
  }

  lemma SourcedOffer(g: Cfg, d: Delta, la: LookTable, q: nat, a: Symbol, I: seq<Item>, c: Cell)
    requires Sourced(g, d, la, q, a, I, c) && c.Cell? && c.act.Some?
    ensures exists it :: it in I && ItemOffers(g, d, la, q, a, it, c.act.value)
  {
  }

  lemma UnanimousItems(g: Cfg, C: seq<seq<Item>>, K: seq<seq<Item>>, d: Delta, la: LookTable, q: nat, a: Symbol, act: int)
    requires g.WellFormed() && Collection(g, C, K, d) && q < |C|
    requires Offers(g, C, d, la, q, a, act) && Unanimous(g, C, d, la, q, a)
    ensures forall it, x :: it in C[q] && ItemOffers(g, d, la, q, a, it, x) ==> x == act
    ensures SomeItemOffers(g, d, la, q, a, C[q], act)
  {
    hide Collection, ItemOffers, Offers;
    OffersIffItem(g, C, K, d, la, q, a, act);
    forall it, x | it in C[q] && ItemOffers(g, d, la, q, a, it, x) ensures x == act {
      OffersIffItem(g, C, K, d, la, q, a, x);
    }
  }

  lemma RowOkFrom(g: Cfg, C: seq<seq<Item>>, d: Delta, la: LookTable, q: nat, row: ActionRow)
    requires forall a :: a in row && row[a].Some? ==> Offers(g, C, d, la, q, a, row[a].value)
    requires forall a, act :: Offers(g, C, d, la, q, a, act) && Unanimous(g, C, d, la, q, a) ==> a in row && row[a] == Some(act)
    ensures RowOk(g, C, d, la, q, row)
  {
  }

  /** The only action that an item offers is in the row. */
  lemma OnlyAction(g: Cfg, C: seq<seq<Item>>, K: seq<seq<Item>>, d: Delta, la: LookTable, q: nat, a: Symbol, act: int, row: ActionRow)
    requires g.WellFormed() && Collection(g, C, K, d) && q < |C| && RowOk(g, C, d, la, q, row)
    requires exists it :: it in C[q] && ItemOffers(g, d, la, q, a, it, act)
    requires forall it, x :: it in C[q] && ItemOffers(g, d, la, q, a, it, x) ==> x == act
    ensures a in row && row[a] == Some(act)
  {
    hide Collection, ItemOffers, Offers;
    OffersIffItem(g, C, K, d, la, q, a, act);
    forall x | Offers(g, C, d, la, q, a, x) ensures x == act {
      OffersIffItem(g, C, K, d, la, q, a, x);
    }
  }

  /** A state without completed items shifts whatever its items wait for. */
  lemma OnlyShifts(g: Cfg, C: seq<seq<Item>>, K: seq<seq<Item>>, d: Delta, la: LookTable, q: nat, it: Item, a: Symbol, row: ActionRow)
    requires g.WellFormed() && Collection(g, C, K, d) && q < |C| && RowOk(g, C, d, la, q, row)
    requires it in C[q] && DotBefore(g, it, a) && a in g.terminals && forall r :: r in C[q] ==> !Complete(g, r)
    ensures (q, a) in d && 0 < d[(q, a)] < |C| && a in row && row[a] == Some(d[(q, a)])
  {
    hide Collection, RowOk, DotBefore, Complete;
    MoveItem(g, C, K, d, q, it, a);
    StateBound(g, C, K, d, q, a);
    StateItems(g, C, K, d, q, it);
    assert ItemOffers(g, d, la, q, a, it, d[(q, a)]);
    OnlyAction(g, C, K, d, la, q, a, d[(q, a)], row);
  }

  // ----- The exception -----

  lemma {:induction false} NoClash(g: Cfg, d: Delta, la: LookTable, q: nat, a: Symbol, I: seq<Item>)
    requires g.WellFormed() && ValidItems(g, I) && ((q, a) in d ==> d[(q, a)] > 0)
    requires a != End || Item(0, 1) !in I
    ensures var c := Settled(g, d, la, q, a, I);
      c.Cell? && c.act != Some(0) && (c.act.Some? && c.act.value > 0 ==> (q, a) in d && c.act.value == d[(q, a)])
  {
    hide Settle;
    if I != [] {
      var I', it := I[..|I| - 1], I[|I| - 1];
      NoClash(g, d, la, q, a, I');
      SettleNoAccept(g, d, la, q, a, Settled(g, d, la, q, a, I'), it);
    }
  }

  lemma SettleNoAccept(g: Cfg, d: Delta, la: LookTable, q: nat, a: Symbol, c: Cell, it: Item)
    requires g.WellFormed() && ValidItem(g, it) && ((q, a) in d ==> d[(q, a)] > 0) && (a != End || it != Item(0, 1))
    requires c.Cell? && c.act != Some(0) && (c.act.Some? && c.act.value > 0 ==> (q, a) in d && c.act.value == d[(q, a)])
    ensures var c' := Settle(g, d, la, q, a, c, it);
      c'.Cell? && c'.act != Some(0) && (c'.act.Some? && c'.act.value > 0 ==> (q, a) in d && c'.act.value == d[(q, a)])
  {
    assert Complete(g, it) && it.num == 0 ==> it == Item(0, 1);
  }

  /** With the accepting item in front, the slot of `$end` is settled as accept until a reduce comes. */
  lemma {:induction false} AcceptFirst(g: Cfg, d: Delta, la: LookTable, q: nat, I: seq<Item>)
    requires g.WellFormed() && ValidItems(g, I) && I != [] && I[0] == Item(0, 1)
    ensures Settled(g, d, la, q, End, I).Clash? <==>
            exists it :: it in I && Complete(g, it) && it.num > 0 && (q, it.num) in la && End in la[(q, it.num)]
    ensures !Settled(g, d, la, q, End, I).Clash? ==> Settled(g, d, la, q, End, I).act == Some(0)
  {
    var I', it := I[..|I| - 1], I[|I| - 1];
    assert I == I' + [it];
    if |I| == 1 {
      assert I' == [];
      assert Settled(g, d, la, q, End, I') == BLANK;
    } else {
      AcceptFirst(g, d, la, q, I');
    }
  }

  lemma {:induction false} AdvanceHead(g: Cfg, I: seq<Item>, x: Symbol)
    requires I != [] && DotBefore(g, I[0], x)
    ensures Advance(g, I, x) != [] && Advance(g, I, x)[0] == I[0].Next()
  {
    if |I| > 1 {
      AdvanceHead(g, I[..|I| - 1], x);
    }
  }

  /** The accepting item comes first in its state. */
  lemma AcceptingState(g: Cfg, C: seq<seq<Item>>, K: seq<seq<Item>>, d: Delta, q: nat)
    requires g.WellFormed() && Collection(g, C, K, d) && q < |C| && Item(0, 1) in C[q]
    ensures C[q] != [] && C[q][0] == Item(0, 1)
  {
    hide Collection;
    var e := SourceState(g, C, K, d, q);
    UnmoveItem(g, C, K, d, e.0, e.1, Item(0, 1));
    StartItem(g, C, K, d, e.0);
    KernelsPrefix(g, C, K, d, e);
    AdvanceHead(g, C[0], e.1);
  }

  lemma SourceState(g: Cfg, C: seq<seq<Item>>, K: seq<seq<Item>>, d: Delta, q: nat) returns (e: (nat, Symbol))
    requires Collection(g, C, K, d) && q < |C| && Item(0, 1) in C[q]
    ensures e in d && d[e] == q && e.0 < |C|
  {
    if q == 0 {
      StateZero(g, C, K, d, Item(0, 1));
    }
    assert Reached(d, q);
    e :| e in d && e.0 < q && d[e] == q;
  }

  lemma KernelsPrefix(g: Cfg, C: seq<seq<Item>>, K: seq<seq<Item>>, d: Delta, e: (nat, Symbol))
    requires Collection(g, C, K, d) && e in d
    ensures C[0] != [] && C[0][0] == Item(0, 0) && Advance(g, C[e.0], e.1) <= C[d[e]]
  {
    assert IsClosure(g, K[0], C[0]) && IsClosure(g, K[d[e]], C[d[e]]);
  }

  /** State `q` accepts on `$end` and could also reduce there. */
  ghost predicate AcceptClash(g: Cfg, C: seq<seq<Item>>, la: LookTable, q: nat) {
    OffersAccept(g, C, q, End) && exists p :: OffersReduce(g, C, la, q, End, p)
  }

  /** Filling a row fails exactly when the state could both accept and reduce at the end of the input. */
  lemma ClashIffAcceptClash(g: Cfg, C: seq<seq<Item>>, K: seq<seq<Item>>, d: Delta, la: LookTable, q: nat)
    requires g.WellFormed() && Collection(g, C, K, d) && q < |C|
    ensures (exists a :: Settled(g, d, la, q, a, C[q]).Clash?) <==> AcceptClash(g, C, la, q)
  {
    hide Collection, Settled;
    StateItemsOf(g, C, K, d, q);
    if a :| Settled(g, d, la, q, a, C[q]).Clash? {
      StateBound(g, C, K, d, q, a);
      if a != End || Item(0, 1) !in C[q] {
        NoClash(g, d, la, q, a, C[q]);
      }
      AcceptingState(g, C, K, d, q);
      AcceptFirst(g, d, la, q, C[q]);
      var it :| it in C[q] && Complete(g, it) && it.num > 0 && (q, it.num) in la && End in la[(q, it.num)];
      assert it == Item(it.num, |g.Rhs(it.num)|);
      assert OffersReduce(g, C, la, q, End, it.num);
    }
    if AcceptClash(g, C, la, q) {
      AcceptingState(g, C, K, d, q);
      AcceptFirst(g, d, la, q, C[q]);
      var p :| OffersReduce(g, C, la, q, End, p);
      assert Complete(g, Item(p, |g.Rhs(p)|));
    }
  }

  lemma {:induction false} ClashStays(g: Cfg, d: Delta, la: LookTable, q: nat, a: Symbol, I: seq<Item>, m: nat)
    requires m <= |I| && Settled(g, d, la, q, a, I[..m]).Clash?
    ensures Settled(g, d, la, q, a, I).Clash?
    decreases |I| - m
  {
    if m == |I| {
      assert I[..m] == I;
    } else {
      SettledSnoc(g, d, la, q, a, I, m);
      ClashStays(g, d, la, q, a, I, m + 1);
    }
  }

  // ----- A row under construction -----

  /** The entry for `a` in the two dictionaries `st_action` and `st_actionp`. */
  function Entry(row: ActionRow, rowp: map<Symbol, Item>, a: Symbol): Cell {
    if a in row then Cell(row[a], if a in rowp then rowp[a].num else 0) else BLANK
  }

  /** After the items of `I` both dictionaries hold the settled entries. */
  ghost predicate RowAgrees(g: Cfg, d: Delta, la: LookTable, q: nat, I: seq<Item>, row: ActionRow, rowp: map<Symbol, Item>) {
    forall a :: EntryAgrees(g, d, la, q, I, row, rowp, a)
  }

  ghost predicate EntryAgrees(g: Cfg, d: Delta, la: LookTable, q: nat, I: seq<Item>, row: ActionRow, rowp: map<Symbol, Item>, a: Symbol) {
    Entry(row, rowp, a) == Settled(g, d, la, q, a, I) && (a in row <==> Spoken(g, d, la, q, a, I))
  }

  lemma BlankRow(g: Cfg, d: Delta, la: LookTable, q: nat, I: seq<Item>)
    ensures RowAgrees(g, d, la, q, I[..0], map[], map[])
  {
  }

  lemma FinishedRow(g: Cfg, d: Delta, la: LookTable, q: nat, I: seq<Item>, row: ActionRow, rowp: map<Symbol, Item>)
    requires RowAgrees(g, d, la, q, I[..|I|], row, rowp)
    ensures RowSettled(g, d, la, q, I, row)
  {
    assert I[..|I|] == I;
    forall a ensures SlotSettled(g, d, la, q, I, row, a) {
      assert EntryAgrees(g, d, la, q, I, row, rowp, a);
    }
  }

  /** A completed item of production `p` for one lookahead symbol, as the generator does it. */
  method ReduceSlot(g: Cfg, row0: ActionRow, rowp0: map<Symbol, Item>, a: Symbol, p: Item)
    returns (ok: bool, row: ActionRow, rowp: map<Symbol, Item>)
    ensures ok <==> !ReduceOn(g, a, Entry(row0, rowp0, a), p.num).Clash?
    ensures ok ==> Entry(row, rowp, a) == ReduceOn(g, a, Entry(row0, rowp0, a), p.num)
    ensures forall b :: b != a ==> Entry(row, rowp, b) == Entry(row0, rowp0, b)
    ensures ok ==> row.Keys == row0.Keys + {a}
  {
    ok, row, rowp := true, row0, rowp0;
    var r := if a in row then row[a] else None;
    if r.Some? {
      if r.value > 0 {
        var s := ProductionPrec(g, if a in rowp then rowp[a].num else 0);
        var t := TokenPrec(g, a);
        if s.level < t.level || (s.level == t.level && t.assoc == LeftAssoc) {
          row, rowp := row[a := Some(0 - p.num)], rowp[a := p];
        } else if s.level == t.level && t.assoc == Nonassoc {
          row := row[a := None];
        }
      } else if r.value < 0 {
        if ProductionLine(g, 0 - r.value) > ProductionLine(g, p.num) {
          row, rowp := row[a := Some(0 - p.num)], rowp[a := p];
        }
      } else {
        ok := false;
      }
    } else {
      row, rowp := row[a := Some(0 - p.num)], rowp[a := p];
    }
  }

  /** An item with its dot before `a`, which leads to state `j`. */
  method ShiftSlot(g: Cfg, row0: ActionRow, rowp0: map<Symbol, Item>, a: Symbol, p: Item, j: nat)
    returns (ok: bool, row: ActionRow, rowp: map<Symbol, Item>)
    ensures ok <==> !ShiftOn(g, a, Entry(row0, rowp0, a), p.num, j).Clash?
    ensures ok ==> Entry(row, rowp, a) == ShiftOn(g, a, Entry(row0, rowp0, a), p.num, j)
    ensures forall b :: b != a ==> Entry(row, rowp, b) == Entry(row0, rowp0, b)
    ensures ok ==> row.Keys == row0.Keys + {a}
  {
    ok, row, rowp := true, row0, rowp0;
    var r := if a in row then row[a] else None;
    if r.Some? {
      if r.value > 0 {
        ok := r.value == j;
      } else if r.value < 0 {
        var t := ProductionPrec(g, if a in rowp then rowp[a].num else 0);
        var s := TokenPrec(g, a);
        if s.level > t.level || (s.level == t.level && t.assoc == RightAssoc) {
          row, rowp := row[a := Some(j)], rowp[a := p];
        } else if s.level == t.level && t.assoc == Nonassoc {
          row := row[a := None];
        }
      } else {
        ok := false;
      }
    } else {
      row, rowp := row[a := Some(j)], rowp[a := p];
    }
  }

  ghost predicate ReducedUpTo(g: Cfg, row0: ActionRow, rowp0: map<Symbol, Item>, row: ActionRow,
                               rowp: map<Symbol, Item>, p: Item, seen: seq<Symbol>) {
    && (forall a :: Entry(row, rowp, a) == if a in seen then ReduceOn(g, a, Entry(row0, rowp0, a), p.num) else Entry(row0, rowp0, a))
    && (forall a :: a in row <==> a in row0 || a in seen)
  }

  /** All lookaheads of a completed item. */
  method ReduceSlots(g: Cfg, row0: ActionRow, rowp0: map<Symbol, Item>, laheads: seq<Symbol>, p: Item)
    returns (ok: bool, row: ActionRow, rowp: map<Symbol, Item>)
    requires NoDuplicates(laheads)
    ensures ok ==> ReducedUpTo(g, row0, rowp0, row, rowp, p, laheads)
    ensures !ok ==> exists a :: a in laheads && ReduceOn(g, a, Entry(row0, rowp0, a), p.num).Clash?
  {
    hide ReduceOn;
    ok, row, rowp := true, row0, rowp0;
    for i := 0 to |laheads|
      invariant ok && ReducedUpTo(g, row0, rowp0, row, rowp, p, laheads[..i])
    {
      assert laheads[..i + 1] == laheads[..i] + [laheads[i]];
      assert laheads[i] !in laheads[..i];
      ok, row, rowp := ReduceSlot(g, row, rowp, laheads[i], p);
      if !ok {
        return;
      }
    }
    assert laheads[..|laheads|] == laheads;
  }

  lemma ReducedRow(g: Cfg, d: Delta, la: LookTable, q: nat, I: seq<Item>, m: nat, row0: ActionRow, rowp0: map<Symbol, Item>,
                   row: ActionRow, rowp: map<Symbol, Item>, laheads: seq<Symbol>)
    requires m < |I| && Complete(g, I[m]) && I[m].num > 0 && (q, I[m].num) in la && la[(q, I[m].num)] == Elems(laheads)
    requires RowAgrees(g, d, la, q, I[..m], row0, rowp0) && ReducedUpTo(g, row0, rowp0, row, rowp, I[m], laheads)
    ensures RowAgrees(g, d, la, q, I[..m + 1], row, rowp)
  {
    hide ReduceOn, Settled, Spoken, Speaks;
    var J := I[..m + 1];
    forall a ensures EntryAgrees(g, d, la, q, J, row, rowp, a) {
      SettledSnoc(g, d, la, q, a, I, m);
      SpokenSnoc(g, d, la, q, a, I, m);
      ReduceSpeaks(g, d, la, q, a, I[m]);
      assert EntryAgrees(g, d, la, q, I[..m], row0, rowp0, a);
    }
  }

  lemma AcceptedRow(g: Cfg, d: Delta, la: LookTable, q: nat, I: seq<Item>, m: nat, row0: ActionRow, rowp0: map<Symbol, Item>)
    requires m < |I| && Complete(g, I[m]) && I[m].num == 0 && RowAgrees(g, d, la, q, I[..m], row0, rowp0)
    ensures RowAgrees(g, d, la, q, I[..m + 1], row0[End := Some(0)], rowp0[End := I[m]])
  {
    hide Settled, Spoken, Speaks;
    var row, rowp := row0[End := Some(0)], rowp0[End := I[m]];
    var J := I[..m + 1];
    forall a ensures EntryAgrees(g, d, la, q, J, row, rowp, a) {
      SettledSnoc(g, d, la, q, a, I, m);
      SpokenSnoc(g, d, la, q, a, I, m);
      AcceptSpeaks(g, d, la, q, a, I[m]);
      assert EntryAgrees(g, d, la, q, I[..m], row0, rowp0, a);
    }
  }

  lemma ShiftedRow(g: Cfg, d: Delta, la: LookTable, q: nat, I: seq<Item>, m: nat, row0: ActionRow, rowp0: map<Symbol, Item>,
                   row: ActionRow, rowp: map<Symbol, Item>, x: Symbol)
    requires m < |I| && DotBefore(g, I[m], x) && (q, x) in d && x in g.terminals
    requires RowAgrees(g, d, la, q, I[..m], row0, rowp0)
    requires Entry(row, rowp, x) == ShiftOn(g, x, Entry(row0, rowp0, x), I[m].num, d[(q, x)])
    requires forall b :: b != x ==> Entry(row, rowp, b) == Entry(row0, rowp0, b)
    requires row.Keys == row0.Keys + {x}
    ensures RowAgrees(g, d, la, q, I[..m + 1], row, rowp)
  {
    hide ShiftOn, Settled, Spoken, Speaks;
    var J := I[..m + 1];
    forall a ensures EntryAgrees(g, d, la, q, J, row, rowp, a) {
      SettledSnoc(g, d, la, q, a, I, m);
      SpokenSnoc(g, d, la, q, a, I, m);
      ShiftSpeaks(g, d, la, q, a, I[m], x);
      assert EntryAgrees(g, d, la, q, I[..m], row0, rowp0, a);
    }
  }

  lemma PassedRow(g: Cfg, d: Delta, la: LookTable, q: nat, I: seq<Item>, m: nat, row: ActionRow, rowp: map<Symbol, Item>, x: Symbol)
    requires m < |I| && DotBefore(g, I[m], x) && x !in g.terminals && RowAgrees(g, d, la, q, I[..m], row, rowp)
    ensures RowAgrees(g, d, la, q, I[..m + 1], row, rowp)
  {
    hide Settled, Spoken, Speaks;
    var J := I[..m + 1];
    forall a ensures EntryAgrees(g, d, la, q, J, row, rowp, a) {
      SettledSnoc(g, d, la, q, a, I, m);
      SpokenSnoc(g, d, la, q, a, I, m);
      ShiftSpeaks(g, d, la, q, a, I[m], x);
      assert EntryAgrees(g, d, la, q, I[..m], row, rowp, a);
    }
  }

  /** The exception raised at the item at index `m` for the symbol `a` is one of the whole state. */
  lemma ClashAt(g: Cfg, d: Delta, la: LookTable, q: nat, a: Symbol, I: seq<Item>, m: nat, c: Cell)
    requires m < |I| && Settled(g, d, la, q, a, I[..m]) == c && Settle(g, d, la, q, a, c, I[m]).Clash?
    ensures Settled(g, d, la, q, a, I).Clash?
  {
    SettledSnoc(g, d, la, q, a, I, m);
    ClashStays(g, d, la, q, a, I, m + 1);
  }

  // ----- Goto rows -----

  /** The symbols of `seen` that are nonterminals with a goto have their entry. */
  ghost predicate GotoAgrees(g: Cfg, d: Delta, q: nat, seen: set<Symbol>, row: map<Symbol, nat>) {
    && (forall n :: n in row <==> n in seen && n in g.nonterminals && (q, n) in d)
    && (forall n :: n in row ==> row[n] == d[(q, n)])
  }

  lemma GotoDone(g: Cfg, C: seq<seq<Item>>, K: seq<seq<Item>>, d: Delta, q: nat, row: map<Symbol, nat>)
    requires Collection(g, C, K, d) && q < |C| && ValidItems(g, C[q]) && GotoAgrees(g, d, q, UsedSymbols(g, C[q]), row)
    ensures GotoRowOk(g, d, q, row)
  {
    hide UsedSymbols;
    forall n | n in g.nonterminals && (q, n) in d ensures n in UsedSymbols(g, C[q]) {
      if n !in UsedSymbols(g, C[q]) {
        UnusedGoto(g, C[q], n);
      }
    }
  }

  lemma GotoNone(g: Cfg, d: Delta, q: nat, all: set<Symbol>)
    ensures GotoAgrees(g, d, q, all - all, map[])
  {
  }

  lemma GotoMore(g: Cfg, d: Delta, q: nat, all: set<Symbol>, todo: set<Symbol>, n: Symbol, row: map<Symbol, nat>)
    requires n in todo && todo <= all && GotoAgrees(g, d, q, all - todo, row)
    ensures GotoAgrees(g, d, q, all - (todo - {n}),
                       if n in g.nonterminals && (q, n) in d then row[n := d[(q, n)]] else row)
  {
  }
}
