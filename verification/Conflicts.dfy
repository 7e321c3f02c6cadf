/** How the conflicts of an action slot come out: which of the items that compete for the slot holds it
    in the end, and exactly when that is what the rules for precedence promise. */
module Conflicts {
  import opened Lists
  import opened Grammars
  import opened Items
  import opened ParserTables
  import opened TableFill

  /** The slot of the terminal `a` in state `q`, and what it takes to settle it. */
  datatype Slot = Slot(g: Cfg, d: Delta, la: LookTable, q: nat, a: Symbol)
  {
    /** The entry of the terminal in the precedence table, by default ('right', 0). */
    function Token(): Precedence {
      if a in g.precedence then g.precedence[a] else Prec(RightAssoc, 0)
    }

    function Rule(it: Item): Precedence {
      if it.num < |g.productions| then g.productions[it.num].prec else Prec(RightAssoc, 0)
    }

    function Line(it: Item): int {
      if it.num < |g.productions| then g.productions[it.num].line else 0
    }

    function Target(): nat {
      if (q, a) in d then d[(q, a)] else 0
    }

    /** What the slot holds after the items of `I`, in their order. */
    ghost function After(I: seq<Item>): Cell {
      Settled(g, d, la, q, a, I)
    }
  }

  // ----- The items that compete -----

  /** The item has no say about the slot. */
  ghost predicate Silent(S: Slot, it: Item) {
    ValidItem(S.g, it) && forall x :: !ItemOffers(S.g, S.d, S.la, S.q, S.a, it, x)
  }

  /** A completed item with the terminal among its lookaheads. */
  ghost predicate Reduces(S: Slot, it: Item) {
    ValidItem(S.g, it) && Complete(S.g, it) && it.num > 0 && (S.q, it.num) in S.la && S.a in S.la[(S.q, it.num)]
  }

  ghost predicate Shifts(S: Slot, it: Item) {
    DotBefore(S.g, it, S.a) && S.a in S.g.terminals && (S.q, S.a) in S.d && S.Target() > 0
  }

  /** No item of `I` accepts on the terminal. */
  ghost predicate Plain(S: Slot, I: seq<Item>) {
    forall i :: 0 <= i < |I| ==> Silent(S, I[i]) || Reduces(S, I[i]) || Shifts(S, I[i])
  }

  /** Every slot of a terminal is of this kind. */
  lemma PlainSlots(S: Slot, C: seq<seq<Item>>, K: seq<seq<Item>>)
    requires S.g.WellFormed() && Collection(S.g, C, K, S.d) && S.q < |C| && S.a in S.g.terminals
    ensures Plain(S, C[S.q])
  {
    hide Collection;
    StateItemsOf(S.g, C, K, S.d, S.q);
    StateBound(S.g, C, K, S.d, S.q, S.a);
    forall i | 0 <= i < |C[S.q]| && !Reduces(S, C[S.q][i]) && !Shifts(S, C[S.q][i]) ensures Silent(S, C[S.q][i]) {
      assert Complete(S.g, C[S.q][i]) ==> C[S.q][i].dot == |S.g.Rhs(C[S.q][i].num)|;
    }
  }

  ghost predicate Opposed(S: Slot, x: Item, y: Item) {
    (Reduces(S, x) && Shifts(S, y)) || (Shifts(S, x) && Reduces(S, y))
  }

  // ----- What the holder of a slot does when another item comes -----

  /** How an item that holds the slot meets one of the other kind: it stays, or it gives way, or the
      two cancel each other and leave the slot empty. */
  datatype Strength = Strong | Weak | Neutral

  /** A reduce is compared with the token by its own rule: as promised. */
  function RuleStrength(rule: Precedence, token: Precedence): Strength {
    if rule.level > token.level || (rule.level == token.level && rule.assoc == LeftAssoc) then Strong
    else if rule.level == token.level && rule.assoc == Nonassoc then Neutral
    else Weak
  }

  /** A shift is compared with the token by the rule of its own item, whatever rule would be reduced. */
  function ShiftStrength(rule: Precedence, token: Precedence): Strength {
    if rule.level < token.level || (rule.level == token.level && token.assoc == LeftAssoc) then Weak
    else if rule.level == token.level && token.assoc == Nonassoc then Neutral
    else Strong
  }

  function StrengthOf(S: Slot, it: Item): Strength {
    if Complete(S.g, it) then RuleStrength(S.Rule(it), S.Token()) else ShiftStrength(S.Rule(it), S.Token())
  }

  /** The item `y` drives the holder `x` out of the slot. */
  ghost predicate Displaces(S: Slot, y: Item, x: Item) {
    (Opposed(S, x, y) && StrengthOf(S, x) != Strong) || (Reduces(S, x) && Reduces(S, y) && S.Line(x) > S.Line(y))
  }

  ghost predicate Cancels(S: Slot, y: Item, x: Item) {
    Opposed(S, x, y) && StrengthOf(S, x) == Neutral
  }

  /** The entry an item makes. */
  function EntryOf(S: Slot, it: Item): Cell {
    Cell(Some(if Complete(S.g, it) then 0 - it.num else S.Target()), it.num)
  }

  lemma SilentEffect(S: Slot, c: Cell, it: Item)
    requires Silent(S, it)
    ensures Settle(S.g, S.d, S.la, S.q, S.a, c, it) == c && !Reduces(S, it) && !Shifts(S, it)
  {
    var x := if Complete(S.g, it) then 0 - it.num else S.Target();
    assert !ItemOffers(S.g, S.d, S.la, S.q, S.a, it, x);
  }

  lemma OpenEffect(S: Slot, c: Cell, it: Item)
    requires c.Cell? && c.act == None && (Reduces(S, it) || Shifts(S, it))
    ensures Settle(S.g, S.d, S.la, S.q, S.a, c, it) == EntryOf(S, it)
  {
  }

  lemma HeldEffect(S: Slot, x: Item, it: Item)
    requires (Reduces(S, x) || Shifts(S, x)) && (Silent(S, it) || Reduces(S, it) || Shifts(S, it))
    ensures var c := Settle(S.g, S.d, S.la, S.q, S.a, EntryOf(S, x), it);
      if !Displaces(S, it, x) then c == EntryOf(S, x)
      else if Cancels(S, it, x) then c.Cell? && c.act == None
      else c == EntryOf(S, it)
  {
    if Silent(S, it) {
      SilentEffect(S, EntryOf(S, x), it);
    }
  }

  // ----- Who holds the slot -----

  /** The item at index `i` holds the slot after the first `k` items: it has entered, and no later one
      has driven it out. */
  ghost predicate Held(S: Slot, I: seq<Item>, k: nat, i: nat)
    requires k <= |I|
    decreases k, 0
  {
    && i < k && (Reduces(S, I[i]) || Shifts(S, I[i])) && Enters(S, I, i)
    && forall m :: i < m < k ==> !Displaces(S, I[m], I[i])
  }

  /** The item at index `i` finds the slot vacant, or takes the place of its holder. */
  ghost predicate Enters(S: Slot, I: seq<Item>, i: nat)
    requires i < |I|
    decreases i, 2
  {
    Vacant(S, I, i) || exists h: nat :: Held(S, I, i, h) && Displaces(S, I[i], I[h]) && !Cancels(S, I[i], I[h])
  }

  /** Nobody holds the slot after the first `k` items. */
  ghost predicate Vacant(S: Slot, I: seq<Item>, k: nat)
    requires k <= |I|
    decreases k, 1
  {
    forall i: nat :: i < k ==> !Held(S, I, k, i)
  }

  /** The cell shows who holds the slot after `k` items, and at most one item does. */
  ghost predicate Shown(S: Slot, I: seq<Item>, k: nat, c: Cell)
    requires k <= |I|
  {
    if c.Cell? && c.act == None then Vacant(S, I, k)
    else exists i: nat :: OnlyHolder(S, I, k, i) && c == EntryOf(S, I[i])
  }

  ghost predicate OnlyHolder(S: Slot, I: seq<Item>, k: nat, i: nat)
    requires k <= |I|
  {
    i < k && Held(S, I, k, i) && forall h: nat :: Held(S, I, k, h) ==> h == i
  }

  /** The cell holds the entry of the holder, and nothing when the slot is vacant. */
  lemma {:induction false} HolderShown(S: Slot, I: seq<Item>, k: nat)
    requires Plain(S, I) && k <= |I|
    ensures Shown(S, I, k, S.After(I[..k]))
  {
    hide *;
    if k == 0 {
      NobodyYet(S, I);
    } else {
      HolderShown(S, I, k - 1);
      SettledSnoc(S.g, S.d, S.la, S.q, S.a, I, k - 1);
      CellOf(S, I[..k]);
      CellOf(S, I[..k - 1]);
      OneOfThree(S, I, k - 1);
      NextShown(S, I, k - 1, S.After(I[..k - 1]));
    }
  }

  lemma NobodyYet(S: Slot, I: seq<Item>)
    ensures Shown(S, I, 0, S.After(I[..0]))
  {
  }

  lemma CellOf(S: Slot, I: seq<Item>)
    ensures S.After(I) == Settled(S.g, S.d, S.la, S.q, S.a, I)
  {
  }

  lemma OneOfThree(S: Slot, I: seq<Item>, i: nat)
    requires Plain(S, I) && i < |I|
    ensures Silent(S, I[i]) || Reduces(S, I[i]) || Shifts(S, I[i])
  {
  }

  lemma NextShown(S: Slot, I: seq<Item>, k: nat, c: Cell)
    requires k < |I| && Shown(S, I, k, c) && (Silent(S, I[k]) || Reduces(S, I[k]) || Shifts(S, I[k]))
    ensures Shown(S, I, k + 1, Settle(S.g, S.d, S.la, S.q, S.a, c, I[k]))
  {
    hide Settle, Reduces, Shifts, Silent, Held, Vacant, Displaces, Cancels;
    var c' := Settle(S.g, S.d, S.la, S.q, S.a, c, I[k]);
    if c.Cell? && c.act == None {
      if Silent(S, I[k]) {
        SilentEffect(S, c, I[k]);
        StillVacant(S, I, k);
      } else {
        OpenEffect(S, c, I[k]);
        FirstHolder(S, I, k);
      }
    } else {
      var i: nat :| OnlyHolder(S, I, k, i) && c == EntryOf(S, I[i]);
      HeldWithin(S, I, k, i);
      HeldEffect(S, I[i], I[k]);
      NextHolder(S, I, k, i);
    }
  }

  lemma HeldNext(S: Slot, I: seq<Item>, k: nat, i: nat)
    requires k < |I| && i <= k
    ensures i < k ==> (Held(S, I, k + 1, i) <==> Held(S, I, k, i) && !Displaces(S, I[k], I[i]))
    ensures i == k ==> (Held(S, I, k + 1, i) <==> (Reduces(S, I[k]) || Shifts(S, I[k])) && Enters(S, I, k))
  {
    hide Reduces, Shifts, Enters, Displaces;
  }

  lemma StillVacant(S: Slot, I: seq<Item>, k: nat)
    requires k < |I| && Vacant(S, I, k) && Silent(S, I[k])
    ensures Vacant(S, I, k + 1)
  {
    hide Held, Reduces, Shifts, Silent, Displaces;
    SilentEffect(S, BLANK, I[k]);
    var n := k + 1;
    forall i: nat | i < n ensures !Held(S, I, n, i) {
      HeldNext(S, I, k, i);
    }
  }

  lemma FirstHolder(S: Slot, I: seq<Item>, k: nat)
    requires k < |I| && Vacant(S, I, k) && (Reduces(S, I[k]) || Shifts(S, I[k]))
    ensures OnlyHolder(S, I, k + 1, k)
  {
    hide Held, Reduces, Shifts, Displaces;
    HeldNext(S, I, k, k);
    var n := k + 1;
    forall h: nat | Held(S, I, n, h) ensures h == k {
      HeldWithin(S, I, n, h);
      HeldNext(S, I, k, h);
    }
  }

  lemma HeldWithin(S: Slot, I: seq<Item>, k: nat, i: nat)
    requires k <= |I| && Held(S, I, k, i)
    ensures i < k && (Reduces(S, I[i]) || Shifts(S, I[i]))
  {
  }

  lemma NextHolder(S: Slot, I: seq<Item>, k: nat, i: nat)
    requires k < |I| && OnlyHolder(S, I, k, i) && i < k
    ensures if !Displaces(S, I[k], I[i]) then OnlyHolder(S, I, k + 1, i)
            else if Cancels(S, I[k], I[i]) then Vacant(S, I, k + 1)
            else OnlyHolder(S, I, k + 1, k)
  {
    hide Held, Reduces, Shifts, Displaces, Cancels;
    HeldNext(S, I, k, i);
    HeldNext(S, I, k, k);
    if Displaces(S, I[k], I[i]) {
      DisplacesSpeaks(S, I[k], I[i]);
    }
    assert !Vacant(S, I, k);
    var n := k + 1;
    forall h: nat | Held(S, I, n, h) ensures h == k || (h == i && !Displaces(S, I[k], I[i])) {
      HeldWithin(S, I, n, h);
      HeldNext(S, I, k, h);
    }
  }

  lemma DisplacesSpeaks(S: Slot, y: Item, x: Item)
    requires Displaces(S, y, x)
    ensures Reduces(S, y) || Shifts(S, y)
  {
  }

  // ----- Reduces among themselves -----

  /** The reducing item at index `w` has the smallest line, and is the first with that line. */
  ghost predicate Wins(S: Slot, I: seq<Item>, w: nat) {
    w < |I| && Reduces(S, I[w]) && forall j: nat :: j < |I| && Reduces(S, I[j]) ==> NotBefore(S, I, w, j)
  }

  ghost predicate NotBefore(S: Slot, I: seq<Item>, w: nat, j: nat)
    requires w < |I| && j < |I|
  {
    S.Line(I[w]) < S.Line(I[j]) || (w <= j && S.Line(I[w]) == S.Line(I[j]))
  }

  lemma {:induction false} WinnerUpTo(S: Slot, I: seq<Item>, k: nat) returns (w: nat)
    requires k <= |I| && exists i: nat :: i < k && Reduces(S, I[i])
    ensures w < k && Reduces(S, I[w]) && forall j: nat :: j < k && Reduces(S, I[j]) ==> NotBefore(S, I, w, j)
    decreases k
  {
    hide Reduces;
    if i: nat :| i < k - 1 && Reduces(S, I[i]) {
      w := WinnerUpTo(S, I, k - 1);
      if Reduces(S, I[k - 1]) && S.Line(I[k - 1]) < S.Line(I[w]) {
        w := k - 1;
      }
    } else {
      w := k - 1;
    }
  }

  /** A shift that will not give way holds the slot when the winner's item comes. */
  ghost predicate Barred(S: Slot, I: seq<Item>, w: nat)
    requires w < |I|
  {
    exists h: nat :: Held(S, I, w, h) && Shifts(S, I[h]) && StrengthOf(S, I[h]) != Weak
  }

  lemma WinnerEnters(S: Slot, I: seq<Item>, w: nat)
    requires Plain(S, I) && Wins(S, I, w)
    ensures Enters(S, I, w) <==> !Barred(S, I, w)
  {
    hide Held, Vacant, Plain, Reduces, Shifts, StrengthOf;
    HolderShown(S, I, w);
    if h: nat :| OnlyHolder(S, I, w, h) {
      HeldWithin(S, I, w, h);
      OneKind(S, I[w]);
      OneKind(S, I[h]);
      HolderNotVacant(S, I, w, h);
      assert Reduces(S, I[h]) ==> NotBefore(S, I, w, h);
    } else {
      VacantHeld(S, I, w);
    }
  }

  lemma OneKind(S: Slot, it: Item)
    ensures !(Reduces(S, it) && Shifts(S, it))
  {
  }

  lemma HolderNotVacant(S: Slot, I: seq<Item>, k: nat, i: nat)
    requires k <= |I| && Held(S, I, k, i)
    ensures !Vacant(S, I, k)
  {
    hide Enters, Reduces, Shifts;
  }

  lemma VacantHeld(S: Slot, I: seq<Item>, k: nat)
    requires k <= |I| && Vacant(S, I, k)
    ensures forall h: nat :: !Held(S, I, k, h)
  {
    hide Enters, Reduces, Shifts, Displaces;
  }

  /** Among competing reduces the rule defined first in the grammar file wins, and between rules from
      the same line the one whose item comes first. */
  lemma FirstRuleWins(S: Slot, I: seq<Item>)
    requires Plain(S, I) && forall i :: 0 <= i < |I| ==> !Shifts(S, I[i])
    ensures var c := S.After(I);
      if forall i :: 0 <= i < |I| ==> Silent(S, I[i]) then c == BLANK
      else exists w: nat :: Wins(S, I, w) && c == EntryOf(S, I[w])
  {
    hide Held, Vacant, Enters, Displaces, Reduces, Shifts, Silent, Settle;
    if i: nat :| i < |I| && !Silent(S, I[i]) {
      assert Reduces(S, I[i]);
      var w := WinnerUpTo(S, I, |I|);
      WinnerEnters(S, I, w);
      NoBar(S, I, w);
      WinnerStays(S, I, w, |I|);
      HolderOnly(S, I, |I|, w);
      assert I[..|I|] == I;
    } else {
      SilentSlot(S, I);
    }
  }

  lemma NoBar(S: Slot, I: seq<Item>, w: nat)
    requires w < |I| && forall i :: 0 <= i < |I| ==> !Shifts(S, I[i])
    ensures !Barred(S, I, w)
  {
    hide Enters, Reduces, Shifts, Displaces;
  }

  lemma {:induction false} SilentSlot(S: Slot, I: seq<Item>)
    requires forall i :: 0 <= i < |I| ==> Silent(S, I[i])
    ensures S.After(I) == BLANK
  {
    hide Silent, Settle;
    if I != [] {
      SilentSlot(S, I[..|I| - 1]);
      SilentEffect(S, BLANK, I[|I| - 1]);
    }
  }

  /** Once in the slot, the winner's item is driven out by no other reduce. */
  lemma WinnerStays(S: Slot, I: seq<Item>, w: nat, k: nat)
    requires Wins(S, I, w) && Enters(S, I, w) && w < k <= |I|
    requires StrengthOf(S, I[w]) == Strong || forall i :: w < i < k ==> !Shifts(S, I[i])
    ensures Held(S, I, k, w)
  {
    hide Reduces, Shifts, StrengthOf, Enters;
    OneKind(S, I[w]);
    forall m: nat | w < m < k ensures !Displaces(S, I[m], I[w]) {
      assert Reduces(S, I[m]) ==> NotBefore(S, I, w, m);
    }
  }

  /** Whoever holds the slot is the one the cell shows. */
  lemma HolderOnly(S: Slot, I: seq<Item>, k: nat, i: nat)
    requires Plain(S, I) && k <= |I| && Held(S, I, k, i)
    ensures OnlyHolder(S, I, k, i) && S.After(I[..k]) == EntryOf(S, I[i])
  {
    hide Held, Vacant, Plain, Reduces, Shifts;
    HolderShown(S, I, k);
    HolderNotVacant(S, I, k, i);
  }

  // ----- Shifts against reduces -----

  /** What the comments of the generator promise for a conflict: the higher level wins, and between
      equals a left-associative rule reduces and a right-associative one shifts. They do not speak of
      non-associative rules; both branches of the code mean to leave no action for them. */
  function Promised(rule: Precedence, token: Precedence, p: nat, j: nat): Option<int> {
    match RuleStrength(rule, token)
    case Strong => Some(0 - p)
    case Neutral => None
    case Weak => Some(j)
  }

  ghost function ShiftCount(S: Slot, I: seq<Item>): nat {
    if I == [] then 0 else (if Shifts(S, I[0]) then 1 else 0) + ShiftCount(S, I[1..])
  }

  /** What `n` shifting items make of the slot. */
  function Shifted(S: Slot, c: Cell, n: nat): Option<int>
    requires c.Cell?
  {
    if n == 0 || (c.act.Some? && c.act.value > 0) then c.act
    else if c.act == None then Some(S.Target())
    else
      match RuleStrength(ProductionPrec(S.g, c.holder), S.Token())
      case Strong => c.act
      case Weak => Some(S.Target())
      case Neutral => if n == 1 then None else Some(S.Target())
  }

  ghost predicate OneHeld(S: Slot, c: Cell) {
    c.Cell? && (c.act == None || exists x :: (Reduces(S, x) || Shifts(S, x)) && c == EntryOf(S, x))
  }

  lemma {:induction false} ShiftsAfter(S: Slot, I: seq<Item>, k: nat)
    requires k <= |I| && (forall i :: k <= i < |I| ==> Silent(S, I[i]) || Shifts(S, I[i])) && OneHeld(S, S.After(I[..k]))
    ensures S.After(I).Cell? && S.After(I).act == Shifted(S, S.After(I[..k]), ShiftCount(S, I[k..]))
    decreases |I| - k
  {
    if k == |I| {
      assert I[..k] == I && I[k..] == [];
    } else {
      hide Silent, Settle, Shifts, Reduces;
      SettledSnoc(S.g, S.d, S.la, S.q, S.a, I, k);
      assert I[k..][0] == I[k] && I[k..][1..] == I[k + 1..];
      ShiftOnce(S, S.After(I[..k]), I[k], ShiftCount(S, I[k + 1..]));
      ShiftsAfter(S, I, k + 1);
    }
  }

  lemma ShiftOnce(S: Slot, c: Cell, it: Item, n: nat)
    requires OneHeld(S, c) && (Silent(S, it) || Shifts(S, it))
    ensures var c' := Settle(S.g, S.d, S.la, S.q, S.a, c, it);
      OneHeld(S, c') && Shifted(S, c', n) == Shifted(S, c, n + if Shifts(S, it) then 1 else 0)
  {
    if Silent(S, it) {
      SilentEffect(S, c, it);
    } else if c.act == None {
      OpenEffect(S, c, it);
    } else {
      var x :| (Reduces(S, x) || Shifts(S, x)) && c == EntryOf(S, x);
      HeldEffect(S, x, it);
    }
  }

  // ----- When the promise is kept -----

  /** The last reducing item stands at index `z`. */
  ghost predicate LastReduce(S: Slot, I: seq<Item>, z: nat) {
    z < |I| && Reduces(S, I[z]) && forall i :: z < i < |I| ==> !Reduces(S, I[i])
  }

  /** A shift of the given strength holds the slot when the item at index `k` comes. */
  ghost predicate ShiftHolds(S: Slot, I: seq<Item>, k: nat, strength: Strength)
    requires k <= |I|
  {
    exists h: nat :: Held(S, I, k, h) && Shifts(S, I[h]) && StrengthOf(S, I[h]) == strength
  }

  ghost predicate ReduceHolds(S: Slot, I: seq<Item>, k: nat, strength: Strength)
    requires k <= |I|
  {
    exists h: nat :: Held(S, I, k, h) && Reduces(S, I[h]) && StrengthOf(S, I[h]) == strength
  }

  /** The order in which the items stand suits the winning rule, of the item at index `w`: with `z` the
      last reducing item and `n` shifting items after it,
      - a rule that beats the token must not find the slot held by a shift that does not give way;
      - a rule beaten by the token needs a shift that comes after the last reduce and is not resisted,
        or one that held the slot before and did not give way;
      - a rule that cancels with the token needs the last two holders to cancel each other. */
  ghost predicate OrderSuits(S: Slot, I: seq<Item>, w: nat, z: nat)
    requires w < |I| && z < |I|
  {
    var n := ShiftCount(S, I[z + 1..]);
    match StrengthOf(S, I[w])
    case Strong => !ShiftHolds(S, I, w, Strong) && !ShiftHolds(S, I, w, Neutral)
    case Weak =>
      if n == 0 then ShiftHolds(S, I, z, Strong)
      else !ReduceHolds(S, I, z + 1, Strong) && (n == 1 ==> !ReduceHolds(S, I, z + 1, Neutral))
    case Neutral =>
      if n == 0 then ShiftHolds(S, I, z, Neutral) else n == 1 && ReduceHolds(S, I, z + 1, Neutral)
  }

  /** The cell shows a reduce, or a shift, of the given strength. */
  predicate CellReduces(S: Slot, c: Cell, strength: Strength) {
    c.Cell? && c.act.Some? && c.act.value < 0 && RuleStrength(ProductionPrec(S.g, c.holder), S.Token()) == strength
  }

  predicate CellShifts(S: Slot, c: Cell, strength: Strength) {
    c.Cell? && c.act.Some? && c.act.value > 0 && ShiftStrength(ProductionPrec(S.g, c.holder), S.Token()) == strength
  }

  lemma EntryKind(S: Slot, x: Item)
    requires Reduces(S, x) || Shifts(S, x)
    ensures forall t :: CellReduces(S, EntryOf(S, x), t) <==> Reduces(S, x) && StrengthOf(S, x) == t
    ensures forall t :: CellShifts(S, EntryOf(S, x), t) <==> Shifts(S, x) && StrengthOf(S, x) == t
  {
  }

  lemma StrengthShown(S: Slot, I: seq<Item>, k: nat, t: Strength)
    requires Plain(S, I) && k <= |I|
    ensures ReduceHolds(S, I, k, t) <==> CellReduces(S, S.After(I[..k]), t)
    ensures ShiftHolds(S, I, k, t) <==> CellShifts(S, S.After(I[..k]), t)
  {
    hide Held, Vacant, Plain, Reduces, Shifts, StrengthOf, EntryOf, RuleStrength, ShiftStrength;
    HolderShown(S, I, k);
    if i: nat :| OnlyHolder(S, I, k, i) {
      HeldWithin(S, I, k, i);
      HolderOnly(S, I, k, i);
      EntryKind(S, I[i]);
    } else {
      VacantHeld(S, I, k);
    }
  }

  /** The round of the last reducing item, in terms of who held the slot before. */
  lemma LastRound(S: Slot, I: seq<Item>, z: nat)
    requires Plain(S, I) && z < |I| && Reduces(S, I[z])
    ensures var c := S.After(I[..z + 1]);
      && OneHeld(S, c) && (c.act.Some? ==> c.act.value < 0 || c.act.value == S.Target())
      && (c.act == None <==> ShiftHolds(S, I, z, Neutral))
      && (c.act.Some? && c.act.value > 0 <==> ShiftHolds(S, I, z, Strong))
  {
    hide Held, Vacant, Plain, Reduces, Shifts, Settle, StrengthOf, EntryOf, RuleStrength, ShiftStrength;
    var c := S.After(I[..z]);
    HolderShown(S, I, z);
    SettledSnoc(S.g, S.d, S.la, S.q, S.a, I, z);
    StrengthShown(S, I, z, Neutral);
    StrengthShown(S, I, z, Strong);
    if c.Cell? && c.act == None {
      OpenEffect(S, c, I[z]);
    } else {
      var i: nat :| OnlyHolder(S, I, z, i) && c == EntryOf(S, I[i]);
      HeldWithin(S, I, z, i);
      HeldEffect(S, I[i], I[z]);
      EntryKind(S, I[i]);
      EntrySign(S, I[i]);
      OneKind(S, I[i]);
      OneKind(S, I[z]);
    }
    EntrySign(S, I[z]);
  }

  lemma EntrySign(S: Slot, x: Item)
    requires Reduces(S, x) || Shifts(S, x)
    ensures EntryOf(S, x).Cell? && EntryOf(S, x).act.Some?
    ensures if Reduces(S, x) then EntryOf(S, x).act.value < 0 else EntryOf(S, x).act.value == S.Target() > 0
  {
  }

  /** A winner that beats the token ends up in the slot exactly when it gets in. */
  lemma StrongWinner(S: Slot, I: seq<Item>, w: nat)
    requires Plain(S, I) && NoDuplicates(I) && Wins(S, I, w) && StrengthOf(S, I[w]) == Strong
    ensures S.After(I).Cell? && (S.After(I).act == Some(0 - I[w].num) <==> !Barred(S, I, w))
  {
    hide Held, Vacant, Plain, StrengthOf, Enters, Barred;
    WinnerEnters(S, I, w);
    HolderShown(S, I, |I|);
    assert I[..|I|] == I;
    if Enters(S, I, w) {
      WinnerStays(S, I, w, |I|);
      HolderOnly(S, I, |I|, w);
      EntrySign(S, I[w]);
    }
    if i: nat :| OnlyHolder(S, I, |I|, i) && S.After(I) == EntryOf(S, I[i]) {
      HeldWithin(S, I, |I|, i);
      HeldEnters(S, I, |I|, i);
      if S.After(I).act == Some(0 - I[w].num) {
        assert I[i] == I[w];
      }
    }
  }

  lemma HeldEnters(S: Slot, I: seq<Item>, k: nat, i: nat)
    requires k <= |I| && Held(S, I, k, i)
    ensures i < |I| && Enters(S, I, i)
  {
    hide Enters;
  }

  /** Any number of items shift and reduce on the terminal, in any order: the slot is settled as
      promised for the rule that wins among the reduces exactly when the order of the items suits it. */
  lemma SettledAsPromised(S: Slot, I: seq<Item>, w: nat, z: nat)
    requires Plain(S, I) && NoDuplicates(I) && Wins(S, I, w) && LastReduce(S, I, z)
    requires exists i :: 0 <= i < |I| && Shifts(S, I[i])
    ensures S.After(I).Cell?
    ensures S.After(I).act == Promised(S.Rule(I[w]), S.Token(), I[w].num, S.Target()) <==> OrderSuits(S, I, w, z)
  {
    hide Held, Plain, Reduces, Shifts, NoDuplicates, StrengthOf, RuleStrength, Settle;
    RuleOf(S, I[w]);
    if StrengthOf(S, I[w]) == Strong {
      StrongWinner(S, I, w);
    } else {
      AfterLast(S, I, z);
      LastRound(S, I, z);
      ShiftsAfter(S, I, z + 1);
      StrengthShown(S, I, z + 1, Strong);
      StrengthShown(S, I, z + 1, Neutral);
      TargetPositive(S, I);
      WeakWinner(S, I, w, z, S.After(I[..z + 1]));
    }
  }

  lemma WeakWinner(S: Slot, I: seq<Item>, w: nat, z: nat, c: Cell)
    requires w < |I| && z < |I| && StrengthOf(S, I[w]) != Strong && S.Target() > 0
    requires c.Cell? && (c.act.Some? ==> c.act.value < 0 || c.act.value == S.Target())
    requires c.act == None <==> ShiftHolds(S, I, z, Neutral)
    requires c.act.Some? && c.act.value > 0 <==> ShiftHolds(S, I, z, Strong)
    requires ReduceHolds(S, I, z + 1, Strong) <==> CellReduces(S, c, Strong)
    requires ReduceHolds(S, I, z + 1, Neutral) <==> CellReduces(S, c, Neutral)
    ensures var promised := if StrengthOf(S, I[w]) == Weak then Some(S.Target()) else None;
      Shifted(S, c, ShiftCount(S, I[z + 1..])) == promised <==> OrderSuits(S, I, w, z)
  {
    hide StrengthOf, RuleStrength, ShiftCount, ShiftHolds, ReduceHolds;
  }

  lemma RuleOf(S: Slot, it: Item)
    requires Reduces(S, it)
    ensures StrengthOf(S, it) == RuleStrength(S.Rule(it), S.Token())
  {
  }

  lemma TargetPositive(S: Slot, I: seq<Item>)
    requires exists i :: 0 <= i < |I| && Shifts(S, I[i])
    ensures S.Target() > 0
  {
  }

  lemma AfterLast(S: Slot, I: seq<Item>, z: nat)
    requires Plain(S, I) && LastReduce(S, I, z)
    ensures forall i :: z + 1 <= i < |I| ==> Silent(S, I[i]) || Shifts(S, I[i])
  {
    hide Reduces, Shifts, Silent;
  }

  /** In every slot of every state. */
  lemma StateSettledAsPromised(S: Slot, C: seq<seq<Item>>, K: seq<seq<Item>>, w: nat, z: nat)
    requires S.g.WellFormed() && Collection(S.g, C, K, S.d) && S.q < |C| && S.a in S.g.terminals
    requires var I := C[S.q]; Wins(S, I, w) && LastReduce(S, I, z) && exists i :: 0 <= i < |I| && Shifts(S, I[i])
    ensures var I := C[S.q];
      && S.After(I).Cell?
      && (S.After(I).act == Promised(S.Rule(I[w]), S.Token(), I[w].num, S.Target()) <==> OrderSuits(S, I, w, z))
  {
    hide *;
    PlainSlots(S, C, K);
    StateDistinct(S.g, C, K, S.d, S.q);
    SettledAsPromised(S, C[S.q], w, z);
  }

  /** All shifting items compare in one way with the token, and all reducing ones in another. */
  ghost predicate Agreeing(S: Slot, I: seq<Item>, shifts: Strength, reduces: Strength) {
    forall i :: 0 <= i < |I| ==> AgreesAt(S, I[i], shifts, reduces)
  }

  ghost predicate AgreesAt(S: Slot, it: Item, shifts: Strength, reduces: Strength) {
    (Shifts(S, it) ==> StrengthOf(S, it) == shifts) && (Reduces(S, it) ==> StrengthOf(S, it) == reduces)
  }

  /** Where shifts do not give way and reduces do, a shift holds the slot from the first one on. */
  lemma {:induction false} ShiftStays(S: Slot, I: seq<Item>, k: nat, i: nat)
    requires Plain(S, I) && Agreeing(S, I, Strong, Weak) && i < k <= |I| && Shifts(S, I[i])
    ensures ShiftHolds(S, I, k, Strong)
    decreases k
  {
    hide Held, Plain, Reduces, Shifts, Settle, StrengthOf, EntryOf, ShiftHolds, RuleStrength, ShiftStrength;
    var n := k - 1;
    if i < n {
      ShiftStays(S, I, n, i);
    }
    var c, it := S.After(I[..n]), I[n];
    StrengthShown(S, I, n, Strong);
    StrengthShown(S, I, k, Strong);
    HolderShown(S, I, n);
    SettledSnoc(S.g, S.d, S.la, S.q, S.a, I, n);
    assert AgreesAt(S, it, Strong, Weak);
    PlainAt(S, I, n);
    if c.Cell? && c.act == None {
      FirstIn(S, c, it);
    } else {
      var h: nat :| OnlyHolder(S, I, n, h) && c == EntryOf(S, I[h]);
      HeldWithin(S, I, n, h);
      assert AgreesAt(S, I[h], Strong, Weak);
      ShiftWins(S, I[h], it);
    }
  }

  lemma PlainAt(S: Slot, I: seq<Item>, i: nat)
    requires Plain(S, I) && i < |I|
    ensures Silent(S, I[i]) || Reduces(S, I[i]) || Shifts(S, I[i])
  {
    hide Silent, Reduces, Shifts;
  }

  lemma FirstIn(S: Slot, c: Cell, it: Item)
    requires c.Cell? && c.act == None && Shifts(S, it) && StrengthOf(S, it) == Strong
    ensures CellShifts(S, Settle(S.g, S.d, S.la, S.q, S.a, c, it), Strong) && !CellShifts(S, c, Strong)
  {
    hide Shifts, Reduces, StrengthOf, Settle, EntryOf;
    OpenEffect(S, c, it);
    EntryKind(S, it);
  }

  lemma ShiftWins(S: Slot, x: Item, it: Item)
    requires Reduces(S, x) || Shifts(S, x)
    requires AgreesAt(S, x, Strong, Weak) && AgreesAt(S, it, Strong, Weak) && (Silent(S, it) || Reduces(S, it) || Shifts(S, it))
    requires Shifts(S, it) || CellShifts(S, EntryOf(S, x), Strong)
    ensures CellShifts(S, Settle(S.g, S.d, S.la, S.q, S.a, EntryOf(S, x), it), Strong)
  {
    hide Shifts, Reduces, Silent, StrengthOf, Settle, EntryOf, CellShifts;
    HeldEffect(S, x, it);
    EntryKind(S, x);
    OneKind(S, x);
    OneKind(S, it);
    if Shifts(S, it) {
      EntryKind(S, it);
    }
  }

  /** Where the shifting items give way to the token and the reducing ones do not, or the other way round,
      the promise is kept in any order. */
  lemma AgreeingAsPromised(S: Slot, I: seq<Item>, w: nat, z: nat)
    requires Plain(S, I) && NoDuplicates(I) && Wins(S, I, w) && LastReduce(S, I, z)
    requires exists i :: 0 <= i < |I| && Shifts(S, I[i])
    requires Agreeing(S, I, Weak, Strong) || Agreeing(S, I, Strong, Weak)
    ensures S.After(I).Cell?
    ensures S.After(I).act == Promised(S.Rule(I[w]), S.Token(), I[w].num, S.Target())
  {
    hide Plain, Reduces, Shifts, NoDuplicates, StrengthOf, RuleStrength, Held, ShiftHolds, ReduceHolds, ShiftCount;
    SettledAsPromised(S, I, w, z);
    assert AgreesAt(S, I[w], Weak, Strong) || AgreesAt(S, I[w], Strong, Weak);
    if Agreeing(S, I, Weak, Strong) {
      NoneHolds(S, I, w, Weak, Strong);
    } else {
      NoneHolds(S, I, z + 1, Strong, Weak);
      if ShiftCount(S, I[z + 1..]) == 0 {
        var i := ShiftBefore(S, I, z);
        ShiftStays(S, I, z, i);
      }
    }
  }

  lemma NoneHolds(S: Slot, I: seq<Item>, k: nat, shifts: Strength, reduces: Strength)
    requires Agreeing(S, I, shifts, reduces) && k <= |I|
    ensures forall t :: t != shifts ==> !ShiftHolds(S, I, k, t)
    ensures forall t :: t != reduces ==> !ReduceHolds(S, I, k, t)
  {
    hide Enters, Displaces, StrengthOf, Reduces, Shifts;
    forall h: nat | Held(S, I, k, h) ensures AgreesAt(S, I[h], shifts, reduces) {}
  }

  lemma {:induction false} NoShifts(S: Slot, I: seq<Item>)
    requires ShiftCount(S, I) == 0
    ensures forall i :: 0 <= i < |I| ==> !Shifts(S, I[i])
  {
    hide Shifts;
    if I != [] {
      NoShifts(S, I[1..]);
      forall i | 0 <= i < |I| ensures !Shifts(S, I[i]) {
        assert i > 0 ==> I[i] == I[1..][i - 1];
      }
    }
  }

  lemma ShiftBefore(S: Slot, I: seq<Item>, z: nat) returns (i: nat)
    requires LastReduce(S, I, z) && ShiftCount(S, I[z + 1..]) == 0 && exists i :: 0 <= i < |I| && Shifts(S, I[i])
    ensures i < z && Shifts(S, I[i])
  {
    hide Shifts, Reduces, ShiftCount;
    NoShifts(S, I[z + 1..]);
    i :| i < |I| && Shifts(S, I[i]);
    OneKind(S, I[i]);
  }

  /** When all reducing items stand in front of all shifting ones, only a non-associative level can go
      wrong: it does when more than one item shifts. */
  lemma ReducesFirstAsPromised(S: Slot, I: seq<Item>, w: nat, z: nat)
    requires Plain(S, I) && Wins(S, I, w) && LastReduce(S, I, z)
    requires (forall i :: 0 <= i < z ==> !Shifts(S, I[i])) && exists i :: z < i < |I| && Shifts(S, I[i])
    ensures S.After(I).Cell?
    ensures S.After(I).act == Promised(S.Rule(I[w]), S.Token(), I[w].num, S.Target()) <==>
            StrengthOf(S, I[w]) != Neutral || ShiftCount(S, I[z + 1..]) == 1
  {
    hide Silent, Shifts, Reduces, Settle, EntryOf, StrengthOf, ShiftCount, RuleStrength, NotBefore;
    var J := I[..z + 1];
    OneKind(S, I[z]);
    FirstRuleWins(S, J);
    ReduceNotSilent(S, J[z]);
    var v: nat :| Wins(S, J, v) && S.After(J) == EntryOf(S, J[v]);
    OneWinner(S, I, z, v, w);
    EntrySign(S, I[w]);
    RuleOf(S, I[w]);
    AfterLast(S, I, z);
    ShiftsAfter(S, I, z + 1);
    TargetPositive(S, I);
    var i :| z < i < |I| && Shifts(S, I[i]);
    assert I[z + 1..][i - (z + 1)] == I[i];
    ShiftCounted(S, I[z + 1..], i - (z + 1));
    ReduceThenShifts(S, I[w], ShiftCount(S, I[z + 1..]));
  }

  lemma ReduceNotSilent(S: Slot, it: Item)
    requires Reduces(S, it)
    ensures !Silent(S, it)
  {
    assert ItemOffers(S.g, S.d, S.la, S.q, S.a, it, 0 - it.num);
  }

  lemma OneWinner(S: Slot, I: seq<Item>, z: nat, v: nat, w: nat)
    requires Wins(S, I, w) && LastReduce(S, I, z) && Wins(S, I[..z + 1], v)
    ensures v == w
  {
    hide Reduces;
    assert w <= z && I[..z + 1][w] == I[w] && I[..z + 1][v] == I[v];
    assert NotBefore(S, I, w, v) && NotBefore(S, I[..z + 1], v, w);
  }

  lemma ReduceThenShifts(S: Slot, r: Item, n: nat)
    requires Reduces(S, r) && S.Target() > 0 && n > 0
    ensures Shifted(S, EntryOf(S, r), n) == Promised(S.Rule(r), S.Token(), r.num, S.Target()) <==>
            StrengthOf(S, r) != Neutral || n == 1
  {
    hide RuleStrength, ShiftStrength;
    RuleOf(S, r);
  }

  // ----- One reducing item -----

  /** How the first shifting item would meet a reduce. */
  ghost function FirstShift(S: Slot, I: seq<Item>): Option<Strength> {
    if I == [] then None
    else
      var f := FirstShift(S, I[..|I| - 1]);
      if f == None && Shifts(S, I[|I| - 1]) then Some(StrengthOf(S, I[|I| - 1])) else f
  }

  /** One item reduces, by a rule of the given strength; `first` is how the first shift before it meets
      it, and `n` shifts follow it. */
  predicate OrderFits(first: Option<Strength>, rule: Strength, n: nat) {
    match first
    case None => rule != Neutral || n <= 1
    case Some(Strong) => rule == Weak
    case Some(Weak) => if n == 0 then rule == Strong else rule != Neutral || n == 1
    case Some(Neutral) => if n == 0 then rule == Neutral else rule == Weak
  }

  ghost predicate OnlyReduce(S: Slot, I: seq<Item>, r: nat) {
    r < |I| && Reduces(S, I[r]) && forall i :: 0 <= i < |I| && i != r ==> !Reduces(S, I[i])
  }

  /** The cell shows the first shift, or nothing. */
  ghost predicate FirstShown(S: Slot, c: Cell, first: Option<Strength>) {
    match first
    case None => c == BLANK
    case Some(t) => exists x :: Shifts(S, x) && StrengthOf(S, x) == t && c == EntryOf(S, x)
  }

  lemma {:induction false} ShiftsOnly(S: Slot, I: seq<Item>)
    requires forall i :: 0 <= i < |I| ==> Silent(S, I[i]) || Shifts(S, I[i])
    ensures FirstShown(S, S.After(I), FirstShift(S, I))
  {
    hide Silent, Shifts, Settle, EntryOf, StrengthOf;
    if I != [] {
      var I', it := I[..|I| - 1], I[|I| - 1];
      ShiftsOnly(S, I');
      if Silent(S, it) {
        SilentEffect(S, S.After(I'), it);
      } else if FirstShift(S, I') == None {
        OpenEffect(S, BLANK, it);
      } else {
        var x :| Shifts(S, x) && FirstShift(S, I') == Some(StrengthOf(S, x)) && S.After(I') == EntryOf(S, x);
        HeldEffect(S, x, it);
        OneKind(S, x);
        OneKind(S, it);
      }
    }
  }

  /** With one reducing item and any number of shifting ones the order fits or not by the first shift
      before it and the number of shifts behind it. */
  lemma OneReduceAsPromised(S: Slot, I: seq<Item>, r: nat)
    requires Plain(S, I) && OnlyReduce(S, I, r) && exists i :: 0 <= i < |I| && Shifts(S, I[i])
    ensures S.After(I).Cell?
    ensures S.After(I).act == Promised(S.Rule(I[r]), S.Token(), I[r].num, S.Target()) <==>
            OrderFits(FirstShift(S, I[..r]), StrengthOf(S, I[r]), ShiftCount(S, I[r + 1..]))
  {
    hide Silent, Shifts, Reduces, Settle, EntryOf, StrengthOf, FirstShift, ShiftCount, RuleStrength;
    var c, first := S.After(I[..r]), FirstShift(S, I[..r]);
    ShiftsOnly(S, I[..r]);
    SettledSnoc(S.g, S.d, S.la, S.q, S.a, I, r);
    RuleOf(S, I[r]);
    MeetFirst(S, c, first, I[r]);
    ShiftsAfter(S, I, r + 1);
    SomeShift(S, I, r);
    TargetPositive(S, I);
    FitsOutcome(S, first, I[r], S.After(I[..r + 1]), ShiftCount(S, I[r + 1..]));
  }

  /** The reducing item meets the first shift, or an empty slot. */
  ghost predicate Met(S: Slot, first: Option<Strength>, r: Item, c: Cell) {
    && OneHeld(S, c)
    && match first
       case None => c == EntryOf(S, r)
       case Some(Weak) => c == EntryOf(S, r)
       case Some(Neutral) => c.act == None
       case Some(Strong) => c.act == Some(S.Target())
  }

  lemma MeetFirst(S: Slot, c: Cell, first: Option<Strength>, r: Item)
    requires FirstShown(S, c, first) && Reduces(S, r)
    ensures Met(S, first, r, Settle(S.g, S.d, S.la, S.q, S.a, c, r))
  {
    hide Settle, StrengthOf;
    if first == None {
      OpenEffect(S, c, r);
    } else {
      var x :| Shifts(S, x) && StrengthOf(S, x) == first.value && c == EntryOf(S, x);
      HeldEffect(S, x, r);
    }
  }

  lemma FitsOutcome(S: Slot, first: Option<Strength>, r: Item, c: Cell, n: nat)
    requires Reduces(S, r) && Met(S, first, r, c) && S.Target() > 0 && (first == None ==> n > 0)
    ensures Shifted(S, c, n) == Promised(S.Rule(r), S.Token(), r.num, S.Target()) <==> OrderFits(first, StrengthOf(S, r), n)
  {
    hide RuleStrength, ShiftStrength;
  }

  /** Without a shift before the reducing item there is one behind it. */
  lemma SomeShift(S: Slot, I: seq<Item>, r: nat)
    requires r < |I| && Reduces(S, I[r]) && exists i :: 0 <= i < |I| && Shifts(S, I[i])
    ensures FirstShift(S, I[..r]) == None ==> ShiftCount(S, I[r + 1..]) > 0
  {
    hide Shifts, Reduces;
    OneKind(S, I[r]);
    var i :| 0 <= i < |I| && Shifts(S, I[i]);
    if i < r {
      assert I[..r][i] == I[i];
      ShiftSeen(S, I[..r], i);
    } else {
      assert I[r + 1..][i - (r + 1)] == I[i];
      ShiftCounted(S, I[r + 1..], i - (r + 1));
    }
  }

  lemma {:induction false} ShiftSeen(S: Slot, I: seq<Item>, i: nat)
    requires i < |I| && Shifts(S, I[i])
    ensures FirstShift(S, I) != None
  {
    hide Shifts;
    if i < |I| - 1 {
      ShiftSeen(S, I[..|I| - 1], i);
    }
  }

  lemma {:induction false} ShiftCounted(S: Slot, I: seq<Item>, i: nat)
    requires i < |I| && Shifts(S, I[i])
    ensures ShiftCount(S, I) > 0
  {
    hide Shifts;
    if i > 0 {
      ShiftCounted(S, I[1..], i - 1);
    }
  }

  /** Levels have one associativity each: the token's level decides its own. */
  ghost predicate OneAssoc(rule: Precedence, token: Precedence) {
    rule.level == token.level ==> rule.assoc == token.assoc
  }

  /** The shifting item's rule stands on the other side of the token than the rule to be reduced, as far
      as the token's associativity tells levels apart. */
  predicate OtherSide(shifting: Precedence, reducing: Precedence, token: Precedence) {
    match token.assoc
    case LeftAssoc => shifting.level <= token.level <==> token.level <= reducing.level
    case RightAssoc => shifting.level < token.level <==> token.level < reducing.level
    case Nonassoc =>
      && (shifting.level < token.level <==> token.level < reducing.level)
      && (shifting.level == token.level <==> reducing.level == token.level)
  }

  /** One gives way where the other stays, or both cancel. */
  predicate Mirrored(shifting: Strength, reducing: Strength) {
    match shifting
    case Strong => reducing == Weak
    case Weak => reducing == Strong
    case Neutral => reducing == Neutral
  }

  /** One shifting and one reducing item: with the reducing one in front the conflict is settled as
      promised. With the shifting one in front, its rule is compared with the token in place of the rule
      to be reduced, and the promise is kept exactly when the one beats the token and the other does not,
      or both cancel with it. As levels have one associativity each, that is to say when the two lie on
      different sides of the token; for one rule in both places, when it has the level of the token. */
  lemma TwoItemsAsPromised(S: Slot, I: seq<Item>, s: nat, r: nat)
    requires Plain(S, I) && OnlyReduce(S, I, r) && s < |I| && Shifts(S, I[s])
    requires forall i :: 0 <= i < |I| && i != s ==> !Shifts(S, I[i])
    ensures S.After(I).Cell?
    ensures var kept := S.After(I).act == Promised(S.Rule(I[r]), S.Token(), I[r].num, S.Target());
      var shifting, reducing := ShiftStrength(S.Rule(I[s]), S.Token()), RuleStrength(S.Rule(I[r]), S.Token());
      && (r < s ==> kept)
      && (s < r ==> (kept <==> Mirrored(shifting, reducing)))
      && (s < r && OneAssoc(S.Rule(I[s]), S.Token()) && OneAssoc(S.Rule(I[r]), S.Token()) ==>
            (kept <==> OtherSide(S.Rule(I[s]), S.Rule(I[r]), S.Token()))
            && (I[s].num == I[r].num ==> (kept <==> S.Rule(I[r]).level == S.Token().level)))
  {
    hide Shifts, Reduces, Settle, EntryOf, StrengthOf, FirstShift, ShiftCount;
    OneReduceAsPromised(S, I, r);
    RuleOf(S, I[r]);
    ShiftRuleOf(S, I[s]);
    OneKind(S, I[s]);
    OneShift(S, I, s, r);
  }

  lemma ShiftRuleOf(S: Slot, it: Item)
    requires Shifts(S, it)
    ensures StrengthOf(S, it) == ShiftStrength(S.Rule(it), S.Token())
  {
  }

  lemma OneShift(S: Slot, I: seq<Item>, s: nat, r: nat)
    requires r < |I| && s < |I| && s != r && Shifts(S, I[s]) && forall i :: 0 <= i < |I| && i != s ==> !Shifts(S, I[i])
    ensures FirstShift(S, I[..r]) == (if s < r then Some(StrengthOf(S, I[s])) else None)
    ensures ShiftCount(S, I[r + 1..]) == if s < r then 0 else 1
  {
    hide Shifts, StrengthOf;
    FirstOf(S, I[..r], s);
    CountOf(S, I[r + 1..], s - (r + 1));
  }

  lemma {:induction false} FirstOf(S: Slot, I: seq<Item>, s: nat)
    requires forall i :: 0 <= i < |I| ==> (Shifts(S, I[i]) <==> i == s)
    ensures FirstShift(S, I) == if s < |I| then Some(StrengthOf(S, I[s])) else None
  {
    hide Shifts, StrengthOf;
    if I != [] {
      FirstOf(S, I[..|I| - 1], s);
    }
  }

  lemma {:induction false} CountOf(S: Slot, I: seq<Item>, s: int)
    requires forall i :: 0 <= i < |I| ==> (Shifts(S, I[i]) <==> i == s)
    ensures ShiftCount(S, I) == if 0 <= s < |I| then 1 else 0
  {
    hide Shifts;
    if I != [] {
      CountOf(S, I[1..], s - 1);
    }
  }
}
