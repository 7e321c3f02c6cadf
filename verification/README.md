# A verified model of the Protocol Buffers tooling

`Protobuf/pytools` holds a bundled copy of the PLY parser generator, the preprocessor that comes with it, and a
renamer for `.proto` files built on a PLY grammar. This project models the algorithms of these tools and proves what
they are for.

* **Grammar analysis** (`Grammars`, `GrammarFacts`, `Analysis`): FIRST, FOLLOW, nullable, productive and reachable
  symbols are exactly what derivations say they are.
* **The table generator** (`Digraph`, `Items`, `Interning`, `Generator`, `Relations`, `Lookaheads`, `LalrFacts`,
  `FollowBounds`, `Coverage`, `Lookback`, `Lalr1`, `MovedItems`, `TableFill`, `Conflicts`, `SlotContents`,
  `ConflictExamples`, `Sums`): closures, interned goto sets, the LR(0) collection, the DeRemer/Pennello relations with
  their Tarjan-style solver, the lookaheads, and the way the slots of the action table are settled.
* **The parsing engine** (`ParserTables`, `Engine`, `EngineFacts`, `Soundness`, `Completeness`, `SlrLanguage`,
  `Pushback`, `Recovery`, `Futures`, `Halting`, `SlrLalr`, `GeneratedParser`): viable prefixes, soundness and
  completeness of acceptance, what panic-mode recovery does to the input with and without `error` rules, why the loop
  ends on every input, why LALR tables have no conflict where SLR tables have none, and the generator and the engine
  put together.
* **The table file** (`TableFile`, `ActiveStates`, `LostRow`): factoring and reloading the tables.
* **The preprocessor** (`MacroExpansion`, `Directives`, `ConditionalLines`, `Preprocessor`): object-like macros
  (section 6.10.3.4 of ISO/IEC 9899:1999) and conditional groups (section 6.10.1 of ISO/IEC 9899:1999).
* **The renamer** (`Protos`, `Renamer`): in-place edits with a running offset, and the bindings of type names.

Objects that the code updates in place are classes here (`Grammar`, `Digraph`, `LRGeneratedTable`, `LRParser`,
`Preprocessor`, `MyVisitor`, `LexHelper`), and their methods are proved against functions and predicates on values.
The identity of a list object is an index into a store of lists; a dictionary is a map, and where the code iterates
over one the model takes its keys in an arbitrary order. A value on the parser's stack is the derivation tree of its
symbol, as if every rule's action built the node of its production.

Where the code and what it says about itself differ, the model follows the code:

* FOLLOW is computed for the name of the first rule even when another start symbol was named. `SlrAcceptsExactly` says
  exactly when SLR tables keep their language, and `SecondRuleStartFails` gives a grammar that loses it.
* A shift is compared with the token by the rule of the item that shifts, not by the rule that would be reduced, and a
  slot left empty for a non-associative operator is filled again by the next item. So a shift/reduce conflict is not
  always settled as the comments promise. `SettledAsPromised` says exactly when it is, for any items in any order;
  `OneReduceAsPromised`, `ReducesFirstAsPromised` and `TwoItemsAsPromised` spell the condition out for one reducing
  item, for reducing items in front, and for two rules; `AgreeingAsPromised` gives a case in which any order will do.
  Tables of two grammars break the promise: with the shifting item first (`DanglingElseIsLeftOut`), and with the
  reducing item first and two shifting ones behind it (`ComparisonIsShifted`). The comments do not mention
  non-associative levels; what both branches of the code do with them, leaving no action, is taken as promised.
* A table row without entries does not survive the table file. `ReloadedStep` says what changes, `LostRowCrashes` shows
  a parser that it changes, and `ReloadedParser` says that nothing changes for LALR tables of grammars without infinite
  recursion.
* Follow sets are solved on lists that read sets may share. `Solve` bounds the result from both sides, and says who can
  share a list; in tables without conflicts nobody does (`ConflictFreeReads`), and `LalrWithinFollow` applies.
* Lookback and includes pairs are looked for from every item of a nonterminal, those with their dots moved included.
  `LookbackOfCompleted` says that this adds nothing to lookback unless a grammar symbol is written "."; to includes it
  can add pairs, and then lookaheads that are not LALR(1) (`LooksNotExact`). `LalrLooksExact` says when they are.
* The renamer leaves the argument and result types of service methods alone. `FileServicesKept` says when they keep
  their meaning, and `ServiceTypeLost` gives a file in which one does not. `FileImportsKept` says when references to
  imported types keep theirs.

`dafny verify dfyconfig.toml` verifies the whole project.

## Model

| member | source | states |
|---|---|---|
| `Analysis.Grammar.FirstOf` | Protobuf/pytools/ply/yacc.py:1706-1731 | `_first(beta)` lists exactly the FIRST symbols of the sequence, with `<empty>` only if every symbol has it. |
| `Analysis.Grammar.ComputeFirst` | Protobuf/pytools/ply/yacc.py:1740-1768 | Ends, and leaves a table in which t is listed for X exactly when X derives a string starting with t, and `<empty>` exactly when X derives the empty string. |
| `GrammarFacts.FirstIsExact` | Protobuf/pytools/ply/yacc.py:1740-1768 | A table that is sound and closed under all productions is exactly FIRST, for symbols and for sequences. |
| `Analysis.Grammar.AddFollowOf` | Protobuf/pytools/ply/yacc.py:1811-1816 | Merging FOLLOW of the production name adds exactly that set, even when it is the list being extended. |
| `Analysis.Grammar.FollowPass` | Protobuf/pytools/ply/yacc.py:1795-1817 | A pass over the productions keeps every entry justified; a pass that adds nothing leaves the table closed. |
| `Analysis.Grammar.ComputeFollow` | Protobuf/pytools/ply/yacc.py:1777-1818 | Ends with exactly FOLLOW relative to the start symbol used: the given one, the first rule's name by default, or the earlier one when sets exist already; no list has repetitions. |
| `GrammarFacts.FollowIsExact` | Protobuf/pytools/ply/yacc.py:1777-1818 | A table that is justified and closed under the FOLLOW equations is exactly FOLLOW. |
| `GrammarFacts.FollowIsLeast` | Protobuf/pytools/ply/yacc.py:1777-1818 | It is the least solution of the FOLLOW equations, with or without unreachable nonterminals. |
| `GrammarFacts.FollowFromStart` | Protobuf/pytools/ply/yacc.py:1777-1818 | When all nonterminals are reachable, a is in FOLLOW(b) exactly when b a occurs in a sentential form of the start symbol followed by `$end`. |
| `Analysis.Grammar.InfiniteCycles` | Protobuf/pytools/ply/yacc.py:1577-1632 | Returns exactly the nonterminals that derive no string of terminals. |
| `GrammarFacts.ProductiveIsExact` | Protobuf/pytools/ply/yacc.py:1577-1632 | A closed, justified set of terminating symbols is exactly the productive ones. |
| `Analysis.Grammar.FindUnreachable` | Protobuf/pytools/ply/yacc.py:1548-1567 | Returns exactly the nonterminals that occur in no sentential form of the start symbol. |
| `Analysis.Grammar.MarkReachableFrom` | Protobuf/pytools/ply/yacc.py:1551-1559 | The recursive marking ends, marks only reachable symbols, and is closed except at calls in progress. |
| `GrammarFacts.ReachableIsExact` | Protobuf/pytools/ply/yacc.py:1548-1567 | A closed, justified marking is exactly reachability. |
| `GrammarFacts.NullableAgreesWithFirst` | Protobuf/pytools/ply/yacc.py:1740-1768 | The separately coded nullable set and `<empty>` in FIRST agree on every nonterminal. |
| `Digraphs.Digraph.Absorb` | Protobuf/pytools/ply/yacc.py:1978-1979 | Appending what is missing makes one list the union of the two, also when they are one list. |
| `Digraphs.Digraph.PopComponent` | Protobuf/pytools/ply/yacc.py:1980-1987 | Popping down to the root gives every member of the component the root's list and the final stamp, and nothing else changes. |
| `Digraphs.Digraph.Traverse` | Protobuf/pytools/ply/yacc.py:1967-1987 | Keeps the stamp, stack and set invariants through nested and overlapping cycles; a node that stays stacked reaches below itself. |
| `Digraphs.Digraph.Solve` | Protobuf/pytools/ply/yacc.py:1957-1965 | Every list F(x) ends with at least the union of FP over all nodes reachable by R, and at most what R together with shared initial lists requires; two nodes end with one list only if R and shared initial lists lead from each to the other. |
| `Digraphs.SolveDigraph` | Protobuf/pytools/ply/yacc.py:1957-1965 | The same two bounds, and who can share a list, for the function as its callers use it. |
| `Digraphs.UnsharedWithin` | Protobuf/pytools/ply/yacc.py:1967-1987 | With unaliased FP, two nodes end with one list only if they are in one strongly connected component of R. |
| `Digraphs.UnsharedIsExact` | Protobuf/pytools/ply/yacc.py:1957-1987 | With unaliased FP the two bounds are one: F(x) is exactly the union of FP(z) over all z reachable from x. |
| `Digraphs.FinishedIsRequired` | Protobuf/pytools/ply/yacc.py:1957-1987 | When every node is finished the gathered sets are exactly the required ones. |
| `Digraphs.ReachesRoot` | Protobuf/pytools/ply/yacc.py:1980-1987 | Depth stamps justify a pop: every node above a component root on the stack reaches the root. |
| `Digraphs.NothingStacked` | Protobuf/pytools/ply/yacc.py:1980-1987 | With no call in progress nothing is left on the stack: some node would have to point below itself. |
| `Items.ClosureIsLeast` | Protobuf/pytools/ply/yacc.py:2036-2052 | A closure is the least superset of its kernel closed under "B after the dot adds every B: .gamma". |
| `Items.ClosureUnique` | Protobuf/pytools/ply/yacc.py:2036-2052 | A kernel of moved items has one closure list only: the order of the entries is that in which they are called for. |
| `Items.ClosureDistinct` | Protobuf/pytools/ply/yacc.py:2036-2052 | The closure of a duplicate-free goto kernel has no duplicates. |
| `Generator.LRGeneratedTable.Lr0Closure` | Protobuf/pytools/ply/yacc.py:2036-2052 | Ends with the closure of its argument although it appends to the list it reads; no production stamp exceeds the epoch counter. |
| `Generator.LRGeneratedTable.ClosurePass` | Protobuf/pytools/ply/yacc.py:2043-2050 | A pass that visits the entries it appends leaves every entry closed. |
| `Generator.LRGeneratedTable.WalkKernel` | Protobuf/pytools/ply/yacc.py:2069-2083 | The nested dictionaries are walked along the goto kernel in the order of the item list. |
| `Interning.LabelsDistinct` | Protobuf/pytools/ply/yacc.py:2069-2091 | Two dictionaries of the goto cache with the same symbol and item path are one. |
| `Interning.UniqueObject` | Protobuf/pytools/ply/yacc.py:2084-2091 | The list object stored under a path is the only one with that kernel sequence. |
| `Generator.LRGeneratedTable.Lr0Goto` | Protobuf/pytools/ply/yacc.py:2061-2092 | Empty exactly when the kernel is; otherwise the object of that kernel sequence, a new one only if there was none. |
| `Generator.LRGeneratedTable.Lr0Items` | Protobuf/pytools/ply/yacc.py:2095-2122 | Ends with the LR(0) collection: closures of distinct kernels, exactly the nonempty gotos, none back to state 0, every state reached from an earlier one. |
| `Items.KernelInUniverse` | Protobuf/pytools/ply/yacc.py:2095-2122 | The kernels that can occur are finitely many duplicate-free sequences, which bounds the loop. |
| `Items.StartItem` | Protobuf/pytools/ply/yacc.py:2095-2122 | Production 0 is started in state 0 and in no other, so the accept code 0 and the shift codes never clash. |
| `Generator.LRGeneratedTable.GotoState` | Protobuf/pytools/ply/yacc.py:2586-2588 | In a finished collection a goto is looked up as the number of the target state, or -1 when there is none, and creates no list. |
| `Relations.NullablePass` | Protobuf/pytools/ply/yacc.py:2156-2163 | A pass keeps the set sound; when the count does not change the set is exact. |
| `Generator.LRGeneratedTable.ComputeNullableNonterminals` | Protobuf/pytools/ply/yacc.py:2152-2166 | Ends with exactly the nonterminals that derive the empty string. |
| `Generator.LRGeneratedTable.FindNonterminalTransitions` | Protobuf/pytools/ply/yacc.py:2179-2188 | Lists every nonterminal transition of the automaton, once. |
| `Generator.LRGeneratedTable.DrRelation` | Protobuf/pytools/ply/yacc.py:2199-2214 | Exactly the terminals that can be shifted after the transition, and `$end` after the start symbol in state 0. |
| `Generator.LRGeneratedTable.ReadsRelation` | Protobuf/pytools/ply/yacc.py:2223-2237 | Exactly the nullable transitions out of the state that the transition leads to. |
| `Generator.LRGeneratedTable.FollowItem` | Protobuf/pytools/ply/yacc.py:2284-2308 | Running an item forward never gets stuck, and collects exactly the transitions behind which the rest is nullable. |
| `Relations.MatchingItems` | Protobuf/pytools/ply/yacc.py:2311-2320 | The items of the final state that pass the symbol-by-symbol comparison, marker included; for complete items the row of `LookbackOfCompleted` says which these are. |
| `Generator.LRGeneratedTable.ComputeLookbackIncludes` | Protobuf/pytools/ply/yacc.py:2266-2326 | Both dictionaries hold exactly the pairs that items of the nonterminal give rise to, items with an advanced dot included: lookback as spelled out by `LookbackOfCompleted`, includes by the steps of `LooksSpelledOut`. |
| `Lookback.LookbackOfCompleted` | Protobuf/pytools/ply/yacc.py:2277-2320 | For every grammar, a transition looks back from a completed item exactly when it is over the name of the item's production, and the production was begun in its state and leads over its symbols from there to the item's state: begun with the dot at the left, or behind leading symbols that are themselves written ".". |
| `Lookback.SameCompleted` | Protobuf/pytools/ply/yacc.py:2311-2320 | Two completed items of a state with one name and one length are one item. |
| `Lookback.LooksMadeOf` | Protobuf/pytools/ply/yacc.py:2380-2388 | The lookaheads of a completed item are the follow sets of the transitions over its name in the states where its production was begun, and nothing else. |
| `Lookaheads.ReadSetsSolved` | Protobuf/pytools/ply/yacc.py:2340-2344 | Read sets are exactly what DR and reads require: the initial lists are fresh. |
| `Generator.LRGeneratedTable.ComputeReadSets` | Protobuf/pytools/ply/yacc.py:2340-2344 | The same, for the solver run on the two relations; two read sets are one list only on a cycle of reads. |
| `Generator.LRGeneratedTable.ComputeFollowSets` | Protobuf/pytools/ply/yacc.py:2362-2366 | Follow sets hold what includes requires of the read sets, and no more than includes and shared read lists require. |
| `Generator.LRGeneratedTable.AddLookaheads` | Protobuf/pytools/ply/yacc.py:2380-2388 | Each item and state gets exactly the follow symbols of the transitions it looks back to, each once. |
| `Lookaheads.Origin` | Protobuf/pytools/ply/yacc.py:2277-2308 | Every item of every state was started, with its dot at the left, in a state from which its symbols lead there. |
| `Lookaheads.NoMissingLookaheads` | Protobuf/pytools/ply/yacc.py:2464 | Every completed item but that of production 0 has a lookahead list in its state: the lookup cannot fail. |
| `LalrFacts.ReadForest` | Protobuf/pytools/ply/yacc.py:2199-2237 | The first terminal of what an item still expects is shifted in its state or read behind nullable transitions. |
| `LalrFacts.FollowOfOccurrence` | Protobuf/pytools/ply/yacc.py:2199-2366 | What can follow an occurrence of a nonterminal in a production is required of the follow set of its transition. |
| `LalrFacts.LalrAdequate` | Protobuf/pytools/ply/yacc.py:2397-2414 | Lookaheads that cover the four relations are large enough for every derivation. |
| `Lookaheads.LalrLookaheads` | Protobuf/pytools/ply/yacc.py:2397-2414 | The computed lookaheads are adequate, none is missing, and each is `$end` or a terminal that can be shifted. |
| `Generator.LRGeneratedTable.AddLalrLookaheads` | Protobuf/pytools/ply/yacc.py:2397-2414 | The whole computation establishes these facts, that the lookaheads are made of follow sets as `LooksSpelledOut` needs it, and that without a cycle of nullable transitions they lie within FOLLOW, unless the transition list would outgrow any list. |
| `Lalr1.ItemApplied` | Protobuf/pytools/ply/yacc.py:2036-2122 | Every item reached over a path is that of a production applied in a right sentential form that begins with the path, when all nonterminals are productive. |
| `Lalr1.LooksSpelledOut` | Protobuf/pytools/ply/yacc.py:2397-2414 | If no path of nullable symbols leads round in a circle, a is a computed lookahead of a completed item exactly when its production was begun in some state and a is read behind the transition over its name, or behind one from which items, moved ones too, lead there over a nullable rest. |
| `Lalr1.LalrLooksExact` | Protobuf/pytools/ply/yacc.py:2397-2414 | If moreover moved items lead to no transition that others do not lead to, the computed lookaheads are exactly the LALR(1) lookaheads: what comes next in right sentential forms in which the production is applied behind a prefix that leads to the state. |
| `MovedItems.LooksNotExact` | Protobuf/pytools/ply/yacc.py:2266-2326 | A grammar where moved items do: in every collection of it z becomes a lookahead that no right sentential form gives, and two reduces compete for it. |
| `FollowBounds.BehindPath` | Protobuf/pytools/ply/yacc.py:2061-2117 | Behind a transition over A and a path alpha, whatever an item of the state reached still expects stands behind A alpha in a string that some nonterminal derives. |
| `FollowBounds.ReadWithin` | Protobuf/pytools/ply/yacc.py:2340-2344 | The read set of a transition lies within FOLLOW of its nonterminal. |
| `FollowBounds.FollowSetWithin` | Protobuf/pytools/ply/yacc.py:2362-2366 | With no read sets sharing a list, the follow set of a transition is exactly what includes requires, and lies within FOLLOW of its nonterminal. |
| `FollowBounds.LalrWithinFollow` | Protobuf/pytools/ply/yacc.py:2397-2414 | If no path of nullable symbols leads round in a circle, every lookahead of a completed item is in FOLLOW of its nonterminal, items with advanced dots and all. |
| `SlrLalr.ConflictFreeReads` | Protobuf/pytools/ply/yacc.py:2223-2240 | Adequate lookaheads that leave no conflict, LALR or SLR, leave no such circle either, when all nonterminals are productive. |
| `SlrLalr.ConflictFreeWithin` | Protobuf/pytools/ply/yacc.py:2397-2414 | So the lookaheads of LALR tables without conflicts lie within FOLLOW. |
| `SlrLalr.SlrImpliesLalr` | Protobuf/pytools/ply/yacc.py:2421-2556 | When SLR tables have no conflict and `$end` is in FOLLOW of the start symbol, LALR tables have no conflict. |
| `Coverage.LookaheadCoverage` | Protobuf/pytools/ply/yacc.py:2199-2414 | If the start symbol rightmost-derives alpha A z, then for every A: omega the path alpha omega leads to a state whose completed item has the first symbol of z, or `$end`, among its lookaheads. |
| `TableFill.ReduceSlot` | Protobuf/pytools/ply/yacc.py:2469-2513 | The entry for one lookahead becomes what the reduce rules give, and no other entry changes; `ReduceMeetsShift` and `ShiftMeetsReduce` say what that is in terms of the grammar's declarations. |
| `TableFill.ShiftSlot` | Protobuf/pytools/ply/yacc.py:2523-2556 | The same for the shift rules. |
| `SlotContents.ReduceMeetsShift` | Protobuf/pytools/ply/yacc.py:2472-2550 | In any state of any collection, a completed item in front of one that expects the terminal: the rule is reduced if its declared level is higher than the token's, or the levels are equal and it is left-associative; the slot is empty if they are equal and it is non-associative; the token is shifted otherwise. A token without a declaration has level 0 and is right-associative. |
| `SlotContents.ShiftMeetsReduce` | Protobuf/pytools/ply/yacc.py:2472-2550 | The other way round it is the rule of the shifting item that is compared, and the associativity of the token that decides between equal levels. |
| `SlotContents.SmallestLine` | Protobuf/pytools/ply/yacc.py:2493-2507 | Of completed items only, that of the rule with the smallest line is reduced, the first of them. |
| `Sums.SumsGroup` | Protobuf/pytools/ply/yacc.py:928-1170 | The grammar E: E + E or x, with tables of either method: x + x + ... + x of any length is parsed as the tree that groups to the left if `+` is left-associative, to the right if right-associative; if it is non-associative the second sign is a syntax error. |
| `Generator.LRGeneratedTable.FillRow` | Protobuf/pytools/ply/yacc.py:2445-2556 | A row holds the settled entry of every slot; it fails exactly when the state could accept and reduce on `$end`. |
| `TableFill.ClashIffAcceptClash` | Protobuf/pytools/ply/yacc.py:2456-2509 | "Unknown conflict" is raised exactly when a state offers both accept and a reduce at the end of the input. |
| `TableFill.SettledRowOk` | Protobuf/pytools/ply/yacc.py:2434-2556 | However conflicts are settled, a row holds only offered actions, and every action offered without competition. |
| `TableFill.SettledUnopposed` | Protobuf/pytools/ply/yacc.py:2434-2556 | An action without competition is the one in the slot. |
| `Conflicts.HolderShown` | Protobuf/pytools/ply/yacc.py:2469-2556 | A slot shows the action of the item that holds it: the last one that entered a vacant slot or took the place of its holder, and was not driven out or cancelled since. |
| `Conflicts.SettledAsPromised` | Protobuf/pytools/ply/yacc.py:2469-2556 | Any number of items shift and reduce, in any order: the slot is settled as the comments promise for the winning rule exactly when the order of the items, and the declared levels and associativities, suit that rule. |
| `Conflicts.StateSettledAsPromised` | Protobuf/pytools/ply/yacc.py:2445-2556 | The same for every slot of every state of the collection. |
| `Conflicts.OneReduceAsPromised` | Protobuf/pytools/ply/yacc.py:2469-2556 | With one reducing item and any number of shifting ones: exactly when the first shift before it and the number of shifts behind it fit its rule. |
| `Conflicts.AgreeingAsPromised` | Protobuf/pytools/ply/yacc.py:2469-2556 | When the shifting items all give way to the token and the reducing ones do not, or the other way round, the promise is kept, in whatever order they stand. |
| `Conflicts.ReducesFirstAsPromised` | Protobuf/pytools/ply/yacc.py:2523-2556 | With all reducing items in front: always, unless the winning rule has the level of the token, is non-associative, and more than one item shifts. |
| `Conflicts.TwoItemsAsPromised` | Protobuf/pytools/ply/yacc.py:2472-2550 | One shifting and one reducing item, of any two rules: with the reducing one first always; with the shifting one first exactly when its rule lies on the other side of the token, and for one rule in both places exactly when rule and token have the same level. |
| `ConflictExamples.DanglingElseIsLeftOut` | Protobuf/pytools/ply/yacc.py:2472-2494 | In every collection of this grammar, with any adequate lookaheads, SLR or LALR: the longer if-rule comes first, and the slot of `else` is left without the promised shift. |
| `ConflictExamples.DanglingElseRejected` | Protobuf/pytools/ply/yacc.py:2472-2494 | So the generated parser rejects the sentence `if e x else x` of its language. |
| `ConflictExamples.ComparisonIsShifted` | Protobuf/pytools/ply/yacc.py:2538-2556 | In every collection of E: E < E, E < E ? or x, with a non-associative `<`: the reducing item comes first, two items shift, and the slot that should be an error is shifted. |
| `Conflicts.FirstRuleWins` | Protobuf/pytools/ply/yacc.py:2493-2507 | Among competing reduces the rule defined first wins, and between equal lines the one whose item comes first. |
| `Generator.LRGeneratedTable.FillGoto` | Protobuf/pytools/ply/yacc.py:2580-2594 | A goto row holds exactly the nonterminal transitions of the state. |
| `Generator.LRGeneratedTable.LrParseTable` | Protobuf/pytools/ply/yacc.py:2421-2595 | All rows, for SLR or LALR, are filled from the collection with the proved lookaheads, or the run stops for one of two exact reasons. |
| `Generator.GenerateTables` | Protobuf/pytools/ply/yacc.py:2028-2033 | FIRST, FOLLOW (without naming a start symbol) and the tables, with everything above as its postcondition. |
| `Engine.LRParser.ReduceBy` | Protobuf/pytools/ply/yacc.py:997-1036 | Popping a right-hand side and pushing its name is the reduction of the step function. |
| `Engine.LRParser.Act` | Protobuf/pytools/ply/yacc.py:979-1170 | The branches of one round do what the step function says; what that makes of the tokens is said by `RoundConserves`. |
| `Engine.LRParser.Round` | Protobuf/pytools/ply/yacc.py:961-1170 | One pass through the loop, lookahead included, is one step. |
| `Engine.LRParser.ParseOptNoTrack` | Protobuf/pytools/ply/yacc.py:928-1170 | The unbounded loop, on an input on which it is known to return, leaves the stacks and the outcome of the iterated step function; `ParserDecides` says on which inputs that is. |
| `Engine.LRParser.ParseRounds` | Protobuf/pytools/ply/yacc.py:928-1170 | The same loop watched for any number of rounds, with tables and inputs of any kind. |
| `Pushback.RoundConserves` | Protobuf/pytools/ply/yacc.py:961-1170 | For all tables, those of grammars with `error` rules included: lookahead, pushed-back tokens and rest of the input stay one sequence, from which a round takes the first token if it shifts it, or if it is in the error branch with only the start state left or `error` already on top of the stack; no other round takes any. |
| `Pushback.RunConserves` | Protobuf/pytools/ply/yacc.py:928-1170 | So after any number of rounds, through any errors, the unread tokens are those at the start but for one for each such round. |
| `Pushback.ReadAgain` | Protobuf/pytools/ply/yacc.py:1145-1167 | The round after `error` was shifted acts on the token that caused the error, and shifts it if the new state does. |
| `Pushback.ErrorCaught` | Protobuf/pytools/ply/yacc.py:1145-1167 | The stacks are popped down to the topmost state that shifts `error`, nothing of the input is lost on the way, and the offending token comes next. |
| `Pushback.NothingCatches` | Protobuf/pytools/ply/yacc.py:1128-1167 | If no stacked state has an action for `error`, the stacks are popped down to the start state and exactly the offending token is dropped. |
| `Pushback.ThreeShiftsFirst` | Protobuf/pytools/ply/yacc.py:1084-1108 | After a syntax error the counter is back at 0, so that another error would be reported, only when three symbols have been shifted. |
| `EngineFacts.ItemsOnStack` | Protobuf/pytools/ply/yacc.py:997-1036 | Each item of a stacked state has its symbols before the dot topmost below it, and its initial item in the state under them. |
| `EngineFacts.ReduceFinds` | Protobuf/pytools/ply/yacc.py:997-1036 | A reduce never underflows, pops trees that spell its right-hand side, and finds its goto entry. |
| `EngineFacts.StepViable` | Protobuf/pytools/ply/yacc.py:961-1170 | Every round keeps the prefix viable and raises no exception, also through error recovery. |
| `EngineFacts.ViablePrefix` | Protobuf/pytools/ply/yacc.py:928-1170 | In every reachable configuration: no exception, stacks of equal height, every item of the top state underpinned. |
| `Soundness.StepBalanced` | Protobuf/pytools/ply/yacc.py:981-1082 | A round without an error neither loses nor invents tokens. |
| `Soundness.AcceptedIsDerivation` | Protobuf/pytools/ply/yacc.py:981-1082 | Without errors the yields of the stack, the lookahead and the rest spell the input; an accepted tree derives all of it from the start symbol, whatever way conflicts were settled. |
| `ParserTables.SlrAdequate` | Protobuf/pytools/ply/yacc.py:2466 | FOLLOW sets are adequate lookaheads exactly when `$end` is in FOLLOW of the true start symbol. |
| `SlrLanguage.FirstRuleAdequate` | Protobuf/pytools/ply/yacc.py:1790-1793 | They are when the first rule defines the start symbol. |
| `Completeness.ParseTree` | Protobuf/pytools/ply/yacc.py:961-1036 | In conflict-free tables the engine parses every subtree of a derivation, leaving the rest of the input alone. |
| `Completeness.DerivationIsAccepted` | Protobuf/pytools/ply/yacc.py:928-1082 | Every derivation tree of a terminal string is found without a syntax error, and is the value returned. |
| `Completeness.LanguageIsAccepted` | Protobuf/pytools/ply/yacc.py:928-1082 | A terminal string is accepted without a syntax error exactly when the start symbol derives it. |
| `Completeness.ConflictFreeIsUnambiguous` | Protobuf/pytools/ply/yacc.py:2434-2556 | A grammar whose tables have no conflict gives every string at most one tree. |
| `Futures.TailExists` | Protobuf/pytools/ply/yacc.py:2036-2122 | Every item of every state reached over a path can still be completed by some rest of the input. |
| `Futures.TailSuffix` | Protobuf/pytools/ply/yacc.py:2199-2366 | Whatever can come behind a stretch of nullable symbols on top of a path is among the follow symbols of each of their transitions. |
| `Futures.TailBreaks` | Protobuf/pytools/ply/yacc.py:961-1082 | On such a rest the engine gets through to a reduce of a production begun inside the stacks, or accepts. |
| `Halting.NoNullableCycle` | Protobuf/pytools/ply/yacc.py:2223-2237 | In tables without conflicts no path of nullable symbols leads from a state back to it: reads has no cycle. |
| `Halting.NoUnitCycle` | Protobuf/pytools/ply/yacc.py:997-1036 | Nor does any symbol with a transition derive itself by unit steps. |
| `Halting.Settles` | Protobuf/pytools/ply/yacc.py:961-1036 | So between two tokens there are only finitely many reduces, whatever the next token is. |
| `Halting.CleanEnds` | Protobuf/pytools/ply/yacc.py:961-1082 | From any configuration without an error the loop is left, or comes to a syntax error. |
| `Halting.ParseEnds` | Protobuf/pytools/ply/yacc.py:928-1170 | Without `error` rules the loop is left on every input, through any number of syntax errors. |
| `Halting.ParserDecides` | Protobuf/pytools/ply/yacc.py:928-1170 | The parser decides the language: the loop ends on every input, raises nothing, and ends without a syntax error exactly on the strings of the language. |
| `Halting.Parse` | Protobuf/pytools/ply/yacc.py:928-1170 | The parser object run to its end: it always returns, and on a string of the language it returns a derivation tree of it. |
| `SlrLanguage.SlrAcceptsExactly` | Protobuf/pytools/ply/yacc.py:2028-2033 | SLR tables without conflicts accept w exactly when w is in the language and the start symbol can end a form of the symbol FOLLOW was computed for. |
| `SlrLanguage.NothingAccepted` | Protobuf/pytools/ply/yacc.py:2466 | When it cannot, no input at all is accepted. |
| `SlrLanguage.SlrAcceptsLanguage` | Protobuf/pytools/ply/yacc.py:2028-2033 | SLR tables without conflicts accept exactly the language when the first rule defines the start symbol. |
| `SlrLanguage.SecondRuleStartFails` | Protobuf/pytools/ply/yacc.py:1790-1793 | A grammar that loses its language this way, its start symbol not being the first rule's name: with any SLR tables of it, no run on any input returns without a syntax error, though the string a is in the language. |
| `Recovery.ErrorRestarts` | Protobuf/pytools/ply/yacc.py:1128-1167 | Without error rules, a syntax error before the end leaves both stacks at their initial height and drops exactly the offending token. |
| `Recovery.RestartIsFreshParse` | Protobuf/pytools/ply/yacc.py:1084-1167 | From there the run equals, round for round, a fresh parse of the remaining tokens. |
| `Recovery.ResultParsesSuffix` | Protobuf/pytools/ply/yacc.py:1084-1167 | A value returned after any number of errors is a tree for a suffix of the input. |
| `Recovery.ErrorAtEnd` | Protobuf/pytools/ply/yacc.py:1115-1145 | A syntax error at the end of the input returns no value. |
| `GeneratedParser.SlrErrorFree` | Protobuf/pytools/ply/yacc.py:1777-1818 | Grammars that do not use `error` have it in no FOLLOW set. |
| `GeneratedParser.LalrErrorFree` | Protobuf/pytools/ply/yacc.py:2397-2414 | Nor in any LALR lookahead set. |
| `GeneratedParser.BuildAndParse` | Protobuf/pytools/ply/yacc.py:928-1170 | Generating tables and parsing with them raises no exception, and without error rules any value is a derivation tree of a suffix of the input. |
| `GeneratedParser.GeneratedDecides` | Protobuf/pytools/ply/yacc.py:928-1170 | Generated tables without conflicts, of a grammar without infinite recursion and error rules: the run returns on every input, and is free of syntax errors exactly on the strings of the language. |
| `GeneratedParser.SlrGrammarTables` | Protobuf/pytools/ply/yacc.py:2421-2556 | For a grammar whose SLR tables have no conflict, the tables of either method are adequate and without conflicts. |
| `GeneratedParser.NestedIsSlr` | Protobuf/pytools/ply/yacc.py:2421-2556 | The grammar of an x in nested parentheses meets the conditions of the next row, whatever collection is built for it. |
| `GeneratedParser.BuildAndDecide` | Protobuf/pytools/ply/yacc.py:928-1170 | For a grammar whose SLR tables have no conflict, without infinite recursion and error rules, both methods generate tables, or run out of memory; the parser built from them returns on every input, with a derivation tree of the input exactly when the input is in the language. |
| `TableFile.Factor` | Protobuf/pytools/ply/yacc.py:2623-2634 | The factored form lists exactly the entries of the table, the two lists of a symbol in step. |
| `TableFile.Load` | Protobuf/pytools/ply/yacc.py:2648-2654 | The loop in the file assigns exactly the listed entries. |
| `TableFile.WriteAndLoad` | Protobuf/pytools/ply/yacc.py:2623-2695 | The two tables, factored, written and loaded, keep exactly their nonempty rows. |
| `TableFile.RoundTrip` | Protobuf/pytools/ply/yacc.py:2623-2695 | Writing and loading gives back every entry of every nonempty row and nothing else. |
| `TableFile.ReloadedStep` | Protobuf/pytools/ply/yacc.py:2648-2654 | A round with reloaded tables is the original round exactly when the state has an action entry. |
| `LostRow.LostRowCrashes` | Protobuf/pytools/ply/yacc.py:2648-2654 | A grammar and an input where it matters: in every SLR table of it a row is empty, the run reaches it and reports a syntax error, and with the reloaded table it fails with an exception. |
| `ActiveStates.EveryStateActive` | Protobuf/pytools/ply/yacc.py:2434-2556 | With adequate lookaheads and no infinite recursion every state offers some action. |
| `ActiveStates.ReloadedParser` | Protobuf/pytools/ply/yacc.py:2623-2695 | So the parser with reloaded LALR tables is the original one, on every input. |
| `Preprocessing.Preprocessor.TokenStrip` | Protobuf/pytools/ply/cpp.py:304-313 | Deletes the white space at both ends. |
| `Directives.StripIsStripped` | Protobuf/pytools/ply/cpp.py:304-313 | The result is the one part between white space that neither starts nor ends with any. |
| `Preprocessing.Preprocessor.ExpandMacros` | Protobuf/pytools/ply/cpp.py:478-535 | Ends for every table, cyclic or not; splicing in place computes the recursive expansion; text without macro names and `__LINE__` comes out unchanged; table and shared dictionary are left as they were. |
| `MacroExpansion.OrdinaryInPlace` | Protobuf/pytools/ply/cpp.py:478-535 | A token that is neither a macro name nor `__LINE__` comes out as it is, between the expansions of what stands before and behind it, under every table and blocking set. |
| `MacroExpansion.NameInPlace` | Protobuf/pytools/ply/cpp.py:486-527 | A macro name that is not blocked gives way to its replacement list, expanded with the name blocked, every token moved to the line of the name and otherwise unchanged. |
| `MacroExpansion.TokensComeFrom` | Protobuf/pytools/ply/cpp.py:478-535 | Every token of the output is a token of the text or of a replacement list, perhaps on another line, or the line number of a `__LINE__`; it stands on the line of a token of the text; no `__LINE__` is left. |
| `MacroExpansion.NumeralIsDecimal` | Protobuf/pytools/ply/cpp.py:528-531 | The line number is written in decimal digits that denote it, without leading zeros. |
| `MacroExpansion.ExpandConcat` | Protobuf/pytools/ply/cpp.py:478-535 | Expansion distributes over concatenation. |
| `MacroExpansion.CleanIffAcyclic` | Protobuf/pytools/ply/cpp.py:478-535 | Every text comes out free of macro names exactly when no macro but `__LINE__` leads back to itself. |
| `Preprocessing.Preprocessor.ReadLine` | Protobuf/pytools/ply/cpp.py:621-637 | Finds the directive name and its arguments, or that the line is text; `LineTakenApart` says which tokens these are. |
| `ConditionalLines.LineTakenApart` | Protobuf/pytools/ply/cpp.py:621-637 | A line is a directive with the name `word` and the arguments `args` exactly when it is laid out as white space, `#`, white space, `word`, white space, `args`, white space, with `args` beginning and ending in no white space. |
| `ConditionalLines.LineBreaksKept` | Protobuf/pytools/ply/cpp.py:626-630 | What is kept of a directive line are its white space tokens with a line break, in their order. |
| `Preprocessing.Preprocessor.Define` | Protobuf/pytools/ply/cpp.py:783-800 | An object-like definition gives the defined name its stripped replacement list and leaves every other entry alone; a bad definition changes nothing. |
| `ConditionalLines.DefineLine` | Protobuf/pytools/ply/cpp.py:639-644 | A line `#define n` binds n to what lies between the white space at both ends of the rest, keeps all other entries, and the text before it is expanded under the old definitions. |
| `ConditionalLines.UndefLine` | Protobuf/pytools/ply/cpp.py:655-660 | A line `#undef n` removes n and nothing else. |
| `Preprocessing.Preprocessor.ProcessLine` | Protobuf/pytools/ply/cpp.py:620-722 | One line of the loop is one step of the machine, which the rows of `ConditionalLines` spell out directive by directive. |
| `ConditionalLines.OpeningLine` | Protobuf/pytools/ply/cpp.py:661-685 | In an enabled region: after `#ifdef a` the machine is enabled exactly when a is a key of the macro table, after `#ifndef a` exactly when it is not, after `#if` exactly when the expression holds; table and output stay. |
| `ConditionalLines.ContinuingLine` | Protobuf/pytools/ply/cpp.py:686-708 | In a group of an enabled region `#else` enables its section exactly when none was enabled before, `#elif` exactly when moreover its expression holds. |
| `ConditionalLines.ClosingLine` | Protobuf/pytools/ply/cpp.py:710-714 | `#endif` brings back what was in force before the group. |
| `ConditionalLines.GroupLetsThrough` | Protobuf/pytools/ply/cpp.py:661-714 | A group lets through its first section whose condition holds, with the conditions stated on the tokens of the lines and the table, and nothing of any other. |
| `ConditionalLines.TextComesOut` | Protobuf/pytools/ply/cpp.py:720-726 | Lines of text without macro names and `__LINE__` come out as they went in. |
| `ConditionalLines.OneGroup` | Protobuf/pytools/ply/cpp.py:603-726 | The output of `#ifdef a`, lines, `#else`, lines, `#endif`: the first lines if a is defined, the second if not, and the other way round for `#ifndef`. |
| `Preprocessing.Preprocessor.ParseGen` | Protobuf/pytools/ply/cpp.py:603-726 | The loop and the final flush compute the machine's run. |
| `Directives.EnabledParts` | Protobuf/pytools/ply/cpp.py:620-722 | For nested text the machine's output is that of nested reading with every line expanded under the definitions in force there, and enable, trigger and stack are restored. |
| `Directives.DisabledParts` | Protobuf/pytools/ply/cpp.py:620-722 | In a disabled region only line breaks are kept: the macro table does not change. |
| `Directives.ChosenIsFirst` | Protobuf/pytools/ply/cpp.py:661-712 | At most one section of a group is kept: the first whose condition holds where the group begins; `GroupLetsThrough` states the conditions on the tokens of the lines. |
| `Directives.WellNestedIffParts` | Protobuf/pytools/ply/cpp.py:661-714 | Exactly the well-nested line sequences are the flat forms of nested text. |
| `Preprocessing.PreprocessedText` | Protobuf/pytools/ply/cpp.py:603-726 | From the initial state: macro table and output of `parsegen` are those of nested reading, with no error reported. |
| `Protos.LexHelper.GetMaxLexspan` | Protobuf/pytools/plyproto/parser.py:87-102 | The least span around all members of a phrase that have one. |
| `Renamer.MyVisitor.DeriveLex` | Protobuf/pytools/plyproto/model.py:369-377 | The span of a dotted name runs from its first to its last element. |
| `Renamer.MyVisitor.Replace` | Protobuf/pytools/prefixize.py:39-62 | The splice, its offset update and its count, with Python's clipped slices. |
| `Renamer.MyVisitor.Prefixize` | Protobuf/pytools/prefixize.py:31-37 | Behind all earlier edits, the corrected positions replace exactly the intended characters of the original. |
| `Renamer.MyVisitor.Visit` | Protobuf/pytools/plyproto/model.py:200-308 | A node and its children are edited in the order of `accept`. |
| `Renamer.MyVisitor.RenameFile` | Protobuf/pytools/prefixize.py:130-173 | The final text is the original with all edits carried out at once; offset is the sum of the length changes. |
| `Renamer.VisitInTextOrder` | Protobuf/pytools/plyproto/model.py:200-308 | The visit makes its edits in the order in which the names stand in the file. |
| `Renamer.FileEditsOrdered` | Protobuf/pytools/prefixize.py:130-173 | The edited spans are disjoint and increasing. |
| `Renamer.RenamedText` | Protobuf/pytools/prefixize.py:39-62 | The final text is the tokens of the renamed tree in the gaps of the original: every other byte is preserved. |
| `Renamer.WhatIsRenamed` | Protobuf/pytools/prefixize.py:130-181 | Messages, enumerations and extended messages get the prefix in front of their names, and fields in front of the first name of a type that is no keyword; the names of services, methods and fields and all else stay. |
| `Renamer.JoinedAsWritten` | Protobuf/pytools/plyproto/model.py:362-377 | What replaces a dotted name written without white space is the prefix and the name as it stands in the text, dots and all. |
| `Renamer.FileBindingsKept` | Protobuf/pytools/prefixize.py:130-173 | When imported files are renamed too, every undotted type reference of a field or extension resolves to the same definition as before, in the file or in an import. |
| `Renamer.FileImportsKept` | Protobuf/pytools/prefixize.py:130-173 | When they are not, this holds exactly when the references that the file itself does not define name nothing imported, before or after. |
| `Renamer.FileServicesKept` | Protobuf/pytools/prefixize.py:175-181 | The types of service methods are not renamed: they keep their bindings exactly when none of them names a type of the file, before or after. |
| `Renamer.ServiceTypeLost` | Protobuf/pytools/prefixize.py:175-181 | A file where they do not: its message A is renamed, and its service method still takes A, which no longer names anything. |

## Left out

- Engine.LRParser.ParseOptNoTrack: returns by assumption where conflicts have been settled one way or the other, since then the loop need not end; for grammars with infinite recursion, which `yacc` refuses when it checks for it (Protobuf/pytools/ply/yacc.py:3253-3261), nothing is claimed.
- Engine: user actions that raise `SyntaxError`, a `p_error` that calls `errok` or `restart` or returns a token, and parser-wide flags they set; `errorok` is always 0.
- Engine: `parsedebug` and `parseopt`, which repeat the machine with logging or position tracking; the value of the `error` token is not the token that caused it.
- Engine: with fewer stack entries than a right-hand side needs, Python's slices would be clipped where the model stops; `ViablePrefix` shows that generated tables never get there.
- Generator.LRGeneratedTable.AddLalrLookaheads: with 2^63 - 1 or more nonterminal transitions, more than a Python list can hold, the model reports that memory is exhausted.
- Generator.LRGeneratedTable.ComputeReadSets: DR and reads are tabulated before the solver starts, where the code evaluates each once per transition during the walk; both give the same values.
- Generator.LRGeneratedTable.ComputeFollowSets: nothing but the two bounds is said of follow sets that share a list, which happens only on a cycle of nullable transitions, and such tables have conflicts (`ConflictFreeReads`).
- Lalr1.LalrLooksExact: that moved items lead nowhere else is sufficient for exact lookaheads and not shown to be necessary; without it `LooksSpelledOut` still says exactly what is computed.
- The counters of reductions, the conflict lists and the debugging output of the table generator.
- The generator's reflection on the user's module, docstring grammars, `add_production` and `set_precedence`: a grammar is taken as they leave it, with reserved names apart from the user's.
- Termination of recovery for grammars that use `error` rules.
- Pickled tables, file writing, signatures and the printed form of names in the table file.
- `lex.py`: tokens come from a given finite sequence.
- Function-like macros, `#include`, trigraphs and the grouping of lines: the run stops at the first two; the lines are given, none of them empty, as `group_lines` yields them.
- `evalexpr`: an arbitrary function of the macro table and the tokens, which raises no exception.
- The sanitize mode of the renamer, its command line and files, and the parse itself: a tree is given whose tokens stand in the file at the positions they claim.
- Renamer.FileBindingsKept: says nothing about dotted references, whose first element only is prefixed.
- The Objective-C and C sources of the repository, `wordcount.py` and `pkgconfig.py`.
