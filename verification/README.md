# RulesForge: a verified model of its parsers and its agenda

RulesForge compiles RFL rules with an LALR(1) parser that the in-tree Lemon generator produces,
rewrites the syntax tree, parses the right-hand sides of rules with a hand-written parser, and
schedules firings through an agenda. This project models that hard core in Dafny and proves what it
is for. `dafny verify dfyconfig.toml` checks everything.

**The generator and the generated parser** (`tools/lemon/lemon.c`, `tools/lemon/lempar.c`). The
whole chain is modelled, step by step, and composed in `Generator.dfy`:

| stage | files | main result |
|---|---|---|
| grammars and derivations | `Grammars.dfy`, `Trees.dfy` | the specification everything is measured against |
| nullability and FIRST | `FirstSets.dfy` | both are exact with respect to derivations |
| LR(0) automaton | `Closures.dfy`, `Automata.dfy` | the mutually recursive construction ends and is exact |
| follow sets | `Lookaheads.dfy`, `FollowSets.dfy`, `LookaheadPaths.dfy` | least fixpoint, also on cyclic links; exactly the tokens that can come after a configuration on some path |
| actions and conflicts | `Actions.dfy`, `Precedence.dfy`, `ActionLists.dfy`, `PrecedenceRun.dfy` | one live action per lookahead, the one that the declared levels call for |
| no conflicts, all sentences | `Completeness.dfy` | parsing from the lists follows every parse tree |
| default reduces, shift-reduce | `Compress.dfy`, `Machine.dfy`, `TableGen.dfy`, `CompressionRuns.dfy` | the finished lists accept exactly what the lists accepted |
| packed tables | `ActionTable.dfy`, `Packing.dfy` | the overlaid array answers as sparse maps do |
| the driver | `StackInvariant.dfy`, `Driver.dfy` | accepting means the tokens are a sentence |
| driver and lists | `DriverRuns.dfy` | on the emitted arrays the driver takes the turns of the lists |
| how long a token takes | `Turns.dfy`, `CyclicRun.dfy` | bounded where no nonterminal derives itself; a grammar where it never ends |
| the composition | `Generator.dfy` | grammar in; out comes a parser that accepts sentences only, and without conflicts all of them |

`MergeSort.dfy` and `HashTables.dfy` hold the list sort and the growing hash tables the generator
works with.

**The agenda** (`rulesforge/include/engine/agenda.hpp`) is in `AgendaModel.dfy`: a lazily cleaned
priority queue over a map refines "remove the greatest activation in focus".

**Native right-hand sides** (`parser/src/rhs_parser.cpp`, `parser/src/expression_descriptor.cpp`). The
parser ends on every input and accepts exactly the good programs of a grammar, giving their actions:

| what | files |
|---|---|
| tokens, how they are scanned and how they can be spelled | `RhsLexer.dfy`, `RhsText.dfy`, `RhsPrint.dfy` |
| references in emitted texts, and what checking them says about the tokens behind | `ExpressionRefs.dfy`, `RhsScope.dfy` |
| expressions: trees, their tokens, the texts emitted for them | `RhsGrammar.dfy` |
| compiled actions, when they are in scope, which tokens write them | `RhsActions.dfy` |
| statements: trees, their tokens, their actions, which of them are good | `RhsStatements.dfy`, `RhsOperators.dfy` |
| what comes next is read: expressions, values, statements | `RhsReading.dfy`, `RhsValues.dfy`, `RhsAccepting.dfy` |
| what is written is in the grammar | `RhsTrees.dfy` |
| the parser | `RhsParser.dfy` |

**Rewrites and texts** are in `ForallRewrite.dfy` (`parser/src/ast_transformer.cpp`),
`ConstraintText.dfy` (`parser/src/decision_table_compiler.cpp`) and `EditDistance.dfy`
(`parser/src/semantic_analyzer.cpp`). `Wrappers.dfy` holds an option type, `Characters.dfy` a
character class.

## What turned out not to hold

- *Packing is not always exact.* The hole search of `acttab_insert` (tools/lemon/lemon.c:827) stops at
  `nActionAlloc - mxLookahead` and then uses that place even if the offset belongs to another set. The
  other set then answers lookaheads it does not have. `ActTab.Insert` states the exact condition
  (`Placeable`: the set is already there, or the search finds a hole, or the offset it gives up at is
  unused), `OverlapExample` is a run of insertions that fails, and `RoomySearchSucceeds` shows that sets
  with `mn + mx <= nsymbol` always fit. The sets the generator makes safe hold terminals only, and those
  are always placeable (`TerminalsPlaceable`), so terminal lookups are exact for every grammar; only
  lookups of nonterminals a state does not act on can meet a false match, and the parser never makes
  them. What no insertion ever damages is the entries: they are read back in every case.
- *After an insertion that makes terminal lookups safe, `nAction` may exceed the allocation.* It stays
  inside exactly if the set is not made safe or `o + mn + nterminal < nActionAlloc` (`ActTab.Insert`);
  `BeyondExample` is a run of two insertions that ends with `nAction` 82 and 64 slots allocated. The
  next insertion reallocates, so only the final size scan (tools/lemon/lemon.c:869-873) and the emission
  (tools/lemon/lemon.c:4803-4855) read behind the array. Whatever they find there is a parameter
  (`mem`), and the tables are sound for every value of it: all lookups of the parser stay inside the
  allocation.
- *Parsing a token need not end.* `CyclicExample` is the parser generated for a grammar with `A ::= A`,
  which reduces forever on a sentence. `AcyclicEnds` bounds the turns per token for every grammar in
  which no nonterminal derives itself.
- *Cancelling an activation group with a hash that is still live breaks the group index*: that
  activation stays live and is no longer listed (`CancelLiveExample`). `CancelEffect` proves that the
  index stays complete exactly if the excepted activation is not a live member of the group.
- *The forall rewrite is wrong for operators without an opposite* (`contains`, `matches` and the like):
  `negate_compare_op` returns them unchanged. `NegatedConstraint` and `NegatedTree` say for all
  operators what the negation means, and `RightIffOpposite` that a forall with one constraint as its
  restriction is rewritten correctly exactly if its operator has an opposite.
- *One pass of the forall expansion does not look into the base of a forall.* `LeftoverForalls` gives
  the exact condition under which a forall is left behind.
- *Negating twice is not the identity on existence checks*, which become comparisons with nil
  (`NegatedTwice`, an if and only if).
- *Not every variable in a condition is checked.* A lone `$` is lexed as a variable but is no reference
  to the expression compiler. In accepted code every other variable token of a condition is declared
  (`ParseCondition`, `MentionsChecked`); a variable token passes the check exactly if it is `$` or is
  declared (`VariablePasses`, and `ParseIfHalt` for whole programs); `LoneDollarExample` accepts
  `if $ { halt }` with nothing declared. A variable's name inside a string literal, on the other hand,
  is checked like the variable (`QuotedVariablePasses`, `StringExample`).
- *Not every operator can join two variables in a value.* A value whose text starts with `$` and holds
  none of `+ - * / > < ! =` is taken as the name of one variable, so that `$a % $b` is rejected although
  both are declared. With both declared, `$a op $b` is accepted exactly if the operator is none of `%`,
  `^`, `&&` and `||` (`OperatorAccepted`, and `AcceptsOperator` for whole programs).

## Assumptions

- Grammars are as the grammar reader leaves them (`ValidGrammar`) and the start symbol is on no
  right-hand side, which `FindStates` reports as an error. No `%nonassoc`, wildcard, fallback or error
  symbol. Numbers are unbounded; allocation always succeeds.
- An activation's hash always names the same rule.
- `is_exprtk_builtin`, the leaf parser of decision-table constraints, operators that are not
  orderings, and the hash functions of the hash tables are parameters.

## Model

| member | source | states |
|---|---|---|
| FirstSets.FindLambdas | tools/lemon/lemon.c:933-946 | the nullability loop ends with flags that are sound and closed under all rules |
| FirstSets.ScanRule | tools/lemon/lemon.c:951-970 | one rule of the second loop keeps the sets sound, and either strictly shrinks the missing pairs or the rule is closed |
| FirstSets.FindFirstSets | tools/lemon/lemon.c:919-975 | the lambda flag is set iff the nonterminal derives the empty string; t is in the first set iff some derived form begins with t |
| FirstSets.ClosedIsExact | tools/lemon/lemon.c:929-974 | any sound and closed analysis misses no derivation |
| FirstSets.FirstOfSeqExact | tools/lemon/lemon.c:1501-1517 | the scan over a symbol string computes exactly the terminals its derivations can begin with |
| FirstSets.AllLambdaExact | tools/lemon/lemon.c:1501-1518 | a string of symbols is flagged nullable iff it derives the empty string |
| Closures.ScanRest | tools/lemon/lemon.c:1501-1518 | the scan behind a nonterminal gives FIRST of what follows and whether all of it can vanish |
| Closures.Closure | tools/lemon/lemon.c:1480-1522 | the growing list ends; its configurations, first follow symbols and links are exactly those of the closure |
| Automata.KeyUnique | tools/lemon/lemon.c:5775-5787 | sorted keys with the same configurations are equal lists, so comparing keys compares sets |
| Automata.SortItems | tools/lemon/lemon.c:1525-1539 | sorting gives the unique key of the set of configurations |
| Automata.CollectBasis | tools/lemon/lemon.c:1124-1135 | the inner loop collects exactly the configurations moved over the symbol and marks them used |
| Automata.Builder.Find | tools/lemon/lemon.c:5911-5924 | the state with the given key, or none if there is none |
| Automata.Builder.GetState | tools/lemon/lemon.c:1044-1082 | returns a state with the requested basis; existing states stay, new ones are complete; the mutual recursion ends |
| Automata.Builder.BuildShifts | tools/lemon/lemon.c:1104-1152 | afterwards the state has exactly one shift for each symbol after a dot, to the state of the moved set |
| Automata.Builder.FindStates | tools/lemon/lemon.c:982-1038 | the result is the LR(0) automaton: every state closed and complete, no two bases equal, state 0 from the start rules, every state reached from it along shifts |
| MergeSort.Merge | tools/lemon/lemon.c:1958-1998 | the loop computes the stable merge of two runs |
| MergeSort.MergedSorted | tools/lemon/lemon.c:1958-1998 | merging sorted runs gives a sorted run |
| MergeSort.MergedStable | tools/lemon/lemon.c:1958-1998 | within each class of equals the first run stays ahead of the second |
| MergeSort.CarriedKeeps | tools/lemon/lemon.c:2021-2027 | adding a run to the buckets, top bucket included, keeps all elements seen and the order of equals |
| MergeSort.Carry | tools/lemon/lemon.c:2021-2027 | the bucket loop is that addition, in place |
| MergeSort.Msort | tools/lemon/lemon.c:2010-2034 | for lists of any length: sorted, a permutation, ties in input order |
| HashTables.MaskIsRemainder | tools/lemon/lemon.c:5494-5495 | masking a hash with the size less one is its remainder by the size |
| HashTables.Push | tools/lemon/lemon.c:5530-5538 | prepending a node keeps every chain threaded newest first and complete |
| HashTables.FirstWritesIsFirst | tools/lemon/lemon.c:5487-5504 | the map of a sequence of inserts holds for each key the data of its earliest insert |
| HashTables.DistinctCount | tools/lemon/lemon.c:5742-5744 | rows with distinct keys are as many as the keys of the map |
| HashTables.Rethread | tools/lemon/lemon.c:5505-5529 | doubling and rehashing keeps the rows in order and all chains complete |
| HashTables.Table.Find | tools/lemon/lemon.c:5714-5727 | the data stored under the key, none if the key was never inserted |
| HashTables.Table.Insert | tools/lemon/lemon.c:5655-5710 | succeeds iff the key is new; only then the map gains it; prior data is never overwritten |
| HashTables.Table.Grow | tools/lemon/lemon.c:5672-5697 | twice the slots, the same rows in the same order |
| HashTables.Table.Count | tools/lemon/lemon.c:5742-5745 | the number of distinct keys |
| HashTables.Table.Nth | tools/lemon/lemon.c:5730-5739 | the n-th successful insert, none outside the range |
| HashTables.Table.InsertAll | tools/lemon/lemon.c:5854-5924 | any sequence of inserts leaves the first-write-wins map of that sequence |
| Lookaheads.FindLinks | tools/lemon/lemon.c:1157-1186 | the forward links are exactly the pairs that propagate inside a closure or over a shift |
| Lookaheads.CollectSeeds | tools/lemon/lemon.c:1022-1031 | every configuration starts with the follow symbols of its closure, all of them terminals |
| Lookaheads.StartFollow | tools/lemon/lemon.c:1026-1031 | configurations of start rules are followed by at most the end marker |
| Lookaheads.FollowsClosed | tools/lemon/lemon.c:1192-1224 | the follow sets contain the seeds of the closures and are closed under propagation inside states and over shifts |
| FollowSets.PassOn | tools/lemon/lemon.c:1211-1221 | passing one set on keeps the marks truthful and either grows a set or leaves the configuration complete |
| FollowSets.FindFollowSets | tools/lemon/lemon.c:1192-1224 | t is in a follow set iff it is in the initial set of some configuration that reaches this one; ends on cycles |
| FollowSets.AllPassed | tools/lemon/lemon.c:1192-1224 | when every configuration is marked complete the sets are the least solution |
| LookaheadPaths.FollowSetsExact | tools/lemon/lemon.c:1157-1224 | t is in the follow set of a configuration iff some path of the automaton and some chain of closures leads to it with t next behind the rule, for grammars whose token classes are not empty |
| Actions.ActionCmpOrders | tools/lemon/lemon.c:594-610 | the action ordering is a total preorder |
| Actions.ResolveKillsOne | tools/lemon/lemon.c:1319-1379 | resolving two live actions leaves exactly one of them live |
| Actions.PassLeavesChampion | tools/lemon/lemon.c:1277-1289 | after the pairwise pass the only live action on a symbol is the champion of all candidates |
| Actions.PassCounts | tools/lemon/lemon.c:1277-1289 | the reported number of conflicts is the number of actions marked as conflicts |
| Actions.QuietPass | tools/lemon/lemon.c:1277-1289 | without precedences a pass that reports no conflict has met no two actions on one symbol |
| Actions.ResolveConflicts | tools/lemon/lemon.c:1277-1289 | the two nested loops compute that pass, in place |
| Precedence.FindRulePrecedences | tools/lemon/lemon.c:890-912 | a rule without a precedence symbol gets the leftmost symbol of its right-hand side, token classes read in order, that has a precedence; none iff there is none; declared ones stay |
| Precedence.PassOnSymbol | tools/lemon/lemon.c:1277-1289 | what the pairwise pass does on one symbol depends on the actions on that symbol only: their champion, and as many conflicts |
| ActionLists.CollectActions | tools/lemon/lemon.c:1242-1274 | the list holds an action iff it is a shift along an edge, a reduce on a follow symbol, or the accept of state 0 |
| ActionLists.SortedIsResolvable | tools/lemon/lemon.c:1277-1289 | after sorting, every pair on one symbol meets the shift-before-reduce demand of conflict resolution |
| ActionLists.FindStateActions | tools/lemon/lemon.c:1230-1289 | every symbol with an action keeps exactly one live action; for one shift and one reduce, and for two reduces, it is the one the levels call for, and whether a conflict is counted is told from the levels; without precedences a count of 0 means there was no conflict; where the levels decide every pair the count is 0 |
| ActionLists.ShiftReduceLaw | tools/lemon/lemon.c:1330-1352 | a state entitled to one shift on t and one reduce on t: with both levels declared the shift stays iff the level of t is higher, or equal with t right-associative, else the reduce stays, and no conflict is marked; with a level missing the shift stays and exactly one conflict is marked |
| ActionLists.TwoReducesLaw | tools/lemon/lemon.c:1353-1366 | a state entitled to two reduces on t: with different levels declared the rule of the higher level stays and no conflict is marked; otherwise the earlier rule stays and one conflict is marked |
| ActionLists.DecidedQuiet | tools/lemon/lemon.c:1277-1289 | if the levels decide every two actions a state is entitled to on a token, no conflict is counted |
| PrecedenceRun.PrecedenceExample | tools/lemon/lemon.c:1330-1352 | the grammar of sums and products with two left-associative levels, through the whole generator: no conflict, after a sum PLUS reduces and STAR is shifted, after a product both reduce |
| ActionLists.QuietIsFree | tools/lemon/lemon.c:1277-1289 | without precedences, no reported conflict means no state is entitled to two actions on a symbol |
| Completeness.SpawnFollows | tools/lemon/lemon.c:1480-1522 | a configuration brought into a state is followed by what can come behind its parent's nonterminal |
| Trees.SentenceHasTree | tools/lemon/lempar.c:915-968 | every sentence has a parse tree, so that what is proved along trees is proved for sentences |
| Completeness.SentencesAccepted | tools/lemon/lempar.c:915-968 | where lists say all that states are entitled to, every sentence is accepted in as many turns, and with no more stack, than its tree has nodes and leaves |
| Completeness.FreeIsComplete | tools/lemon/lemon.c:1230-1289 | resolved lists of a grammar without conflicts accept every sentence, given that stack |
| Compress.PickDefault | tools/lemon/lemon.c:5186-5205 | the chosen rule is a most frequent reduce and no start rule; none only if there is no candidate |
| Compress.InstallDefault | tools/lemon/lemon.c:5215-5223 | the first reduce by the rule becomes the default, the others are retired |
| Compress.CompressionPreservesMoves | tools/lemon/lemon.c:5215-5224 | every lookahead with an action keeps its move, explicitly or by default; the others get the default reduce |
| Compress.CompressState | tools/lemon/lemon.c:5180-5234 | the first pass for one state, exactly: the default is a most frequent reduce that is no start rule, if there is one; the other entries keep their moves; the state is auto-reduce iff it has no other action |
| Compress.FusedLookup | tools/lemon/lemon.c:5240-5250 | the second pass changes shifts into auto-reduce states and no other answer |
| Machine.DefaultsKeepRuns | tools/lemon/lemon.c:5180-5234 | a run that meets no syntax error is the same run after defaults were chosen |
| Machine.FusedTurn | tools/lemon/lempar.c:549-608 | one turn with shift-reduce corresponds to one turn of the machine that shifts and then takes the default |
| Machine.FusionKeepsRuns | tools/lemon/lempar.c:705-716 | for every configuration and every number of turns both machines stay in step |
| Machine.DefaultsKeepAccepting | tools/lemon/lemon.c:5180-5234 | every accepting run is still one after defaults were chosen, with the same turns and stack |
| Machine.FusionKeepsAccepting | tools/lemon/lemon.c:5236-5250 | the fused lists accept iff the lists they were made from do, in as many turns and with the same stack |
| TableGen.AutoIsForced | tools/lemon/lemon.c:5226-5233 | the rule of an auto-reduce state is never empty |
| TableGen.CompressAll | tools/lemon/lemon.c:5180-5234 | all states: lists sound for the automaton, deterministic, moves kept |
| TableGen.FuseAll | tools/lemon/lemon.c:5236-5250 | all states: every shift-reduce stands for a shift into a state where that reduce is forced |
| CompressionRuns.ValidFollows | tools/lemon/lemon.c:5180-5234 | a token that can come once a configuration is complete on this very stack is in its follow set |
| CompressionRuns.GoesOn | tools/lemon/lemon.c:5180-5234 | if the compressed lists go on to accept, the next token may follow on this stack, so that a default reduce was an explicit one |
| CompressionRuns.Converse | tools/lemon/lemon.c:5180-5234 | what the lists with defaults accept, the lists without defaults accept, in as many turns and with the same stack |
| CompressionRuns.PassesAcceptAlike | tools/lemon/lemon.c:5171-5250 | both passes together: the finished lists accept an input iff the resolved lists do |
| CompressionRuns.PassesKeepSteps | tools/lemon/lemon.c:5171-5250 | a run that meets no error is, turn by turn, a run of the finished lists |
| CompressionRuns.AutoMapExact | tools/lemon/lemon.c:5226-5233 | a state is treated as auto-reduce iff all its actions reduce by one rule that is no start rule |
| CompressionRuns.FinalEntries | tools/lemon/lemon.c:5180-5250 | every entry of a finished list is the one of the resolved list, the default, or the shift-reduce that stands for a shift into an auto-reduce state |
| CompressionRuns.CompressTables | tools/lemon/lemon.c:5171-5250 | both passes: finished lists are sound, accept exactly what the lists accepted, keep their error-free runs, and hold exactly the entries the passes call for |
| TableGen.ResortStates | tools/lemon/lemon.c:5311-5347 | state 0 first, busier states earlier; every state that is not auto-reduce keeps a number, numbers and states correspond |
| ActionTable.ShowsIsSparseMap | tools/lemon/lempar.c:567-607 | a set shown at an offset answers a lookup of x iff x is in the set, with the set's action |
| ActionTable.ActTab.Action | tools/lemon/lemon.c:719-752 | the pending set gains the entry; its least and greatest lookahead are up to date |
| ActionTable.ActTab.TestDuplicate | tools/lemon/lemon.c:791-815 | true iff exactly this set is stored at the place |
| ActionTable.ActTab.TestFit | tools/lemon/lemon.c:827-842 | true iff all slots are free and no slot in use would answer for the offset |
| ActionTable.ActTab.Choose | tools/lemon/lemon.c:790-843 | the place is the last duplicate, else the first hole, else where the search gives up |
| ActionTable.DuplicateShows | tools/lemon/lemon.c:791-815 | the counting test for duplicates is right: the stored slots are exactly this set |
| ActionTable.StoreKeepsOld | tools/lemon/lemon.c:852-857 | storing a set in free slots disturbs no set shown at another offset |
| ActionTable.RoomySearchSucceeds | tools/lemon/lemon.c:766-843 | the allocation margin suffices for every set with mn + mx <= nsymbol |
| ActionTable.InsertIntact | tools/lemon/lemon.c:760-863 | all sets stay intact after an insertion iff the set was placeable |
| ActionTable.InsertTokensExact | tools/lemon/lemon.c:760-863 | terminal lookups of all safe sets stay free of false matches when terminal sets are placeable and other sets hold nonterminals only |
| ActionTable.TerminalsPlaceable | tools/lemon/lemon.c:821-843 | after insertions as the generator makes them, a set of terminals is always placeable |
| ActionTable.InsertProper | tools/lemon/lemon.c:760-863 | such insertions keep the room behind terminal entries that makes the next terminal set placeable |
| ActionTable.ChosenNear | tools/lemon/lemon.c:821-843 | the offset settled on is at most one past the used part, so lookups of terminals stay inside the allocation |
| ActionTable.ActTab.Insert | tools/lemon/lemon.c:760-863 | entries inserted before are never disturbed; all sets stay exact iff the new set is placeable; terminal lookups stay exact; nAction stays inside the allocation iff the set is not made safe or ends early enough |
| ActionTable.OverlapExample | tools/lemon/lemon.c:821-843 | twenty legal insertions after which the table no longer shows the inserted sets exactly |
| ActionTable.BeyondExample | tools/lemon/lemon.c:843-862 | two legal insertions after which nAction is 82 with 64 slots allocated |
| Packing.EntriesAnswer | tools/lemon/lemon.c:4706-4733 | the set handed to the packer says for each symbol what the state's list says |
| Packing.PackAll | tools/lemon/lemon.c:4684-4735 | all sets with entries and no others are placed, larger ones before smaller ones; every row is found at its offsets, rows without actions have none, and terminal lookups are exact |
| Packing.ActionSize | tools/lemon/lemon.c:869-873 | the trimmed size: no slot up to nAction is in use beyond it, whatever lies behind the array, and the last one below it is |
| Packing.TokenRead | tools/lemon/lempar.c:560-607 | whatever lies behind the array, reading a terminal is in bounds and hits iff the row has an action, then with its code |
| Packing.GotoRead | tools/lemon/lempar.c:614-645 | reading a nonterminal the row acts on always finds its code |
| StackInvariant.RuleOnStack | tools/lemon/lempar.c:742-789 | when a rule is complete in the top state, its right-hand side is on the stack |
| StackInvariant.ReduceDerives | tools/lemon/lempar.c:742-789 | replacing a matched right-hand side by its left-hand side keeps the consumed tokens derivable |
| StackInvariant.ShiftDerives | tools/lemon/lempar.c:685-725 | shifting a token extends the derived string by it |
| Driver.ReduceRuns | tools/lemon/lempar.c:742-789 | after a reduce the stack again follows a path of the automaton, or the start symbol lies alone on the bottom |
| Driver.ShiftRuns | tools/lemon/lempar.c:685-725 | after a shift or shift-reduce the stack follows a path and derives one token more |
| Driver.Parser.Reduce | tools/lemon/lempar.c:742-789 | pops exactly the right-hand side and lands in a state, a pending reduce, or the accept |
| Driver.Parser.Shift | tools/lemon/lempar.c:685-725 | the token is consumed iff there is room on the stack; else the stack is emptied |
| Driver.Parser.FindShiftAction | tools/lemon/lempar.c:549-608 | the entry read is in bounds and is an error, a reduce by a complete rule, or a shift along the automaton |
| Driver.Parser.ReduceTurn | tools/lemon/lempar.c:920-957 | goes on with a running stack, overflows, or accepts a sentence on the end marker |
| Driver.Parser.OneStep | tools/lemon/lempar.c:915-1067 | one turn of the loop keeps the stack invariant and the error counter; accepting needs the end marker and a sentence |
| Driver.Parser.Parse | tools/lemon/lempar.c:879-1067 | accepts only on token 0, and then the tokens shifted are a sentence; an error discards the token and is reported iff there was none before or three tokens were shifted since |
| DriverRuns.SameReduce | tools/lemon/lempar.c:742-789 | driver and machine reduce by the same rule and land on the same |
| DriverRuns.RoundIsTurn | tools/lemon/lempar.c:915-968 | on tables that say what the lists say, a round of the driver is the turn of the machine: same stack, same acceptance, errors where there is no move |
| DriverRuns.FedIsRun | tools/lemon/lempar.c:879-968 | feeding a token is running the machine until the token is shifted or the run ends, for every outcome |
| DriverRuns.FeedFails | tools/lemon/lempar.c:879-968 | where the driver gives up or shifts the end marker, the machine does not accept |
| Turns.ReductionsAbove | tools/lemon/lempar.c:742-789 | while part of the stack is not touched, the symbols above it derive what was above it before, in at least one step per reduce |
| Turns.RepeatIsCyclic | tools/lemon/lempar.c:915-957 | reduces that come back to the same stack mean a nonterminal derives itself |
| Turns.AcyclicEnds | tools/lemon/lempar.c:915-968 | where no nonterminal derives itself, feeding a token ends within a bound given by the tables and the stack size |
| Generator.AnswerOk | tools/lemon/lemon.c:3695-3719 | every table answer for a terminal is an error, a shift along the automaton, a forced shift-reduce or a complete rule |
| Generator.TokenRow | tools/lemon/lemon.c:4803-4925 | the emitted arrays give a sound terminal entry for every state and terminal |
| Generator.GotoRow | tools/lemon/lemon.c:4803-4925 | the emitted arrays give a sound entry for every awaited nonterminal |
| Generator.Analyse | tools/lemon/lemon.c:919-1224 | FIRST sets, states, links and follow sets together meet what the action lists rely on; the follow sets are exact |
| Generator.TokenMirrors | tools/lemon/lemon.c:4803-4925 | read through the arrays, every terminal entry says what the finished list says, by default or as an error included |
| Generator.GotoMirrors | tools/lemon/lemon.c:4803-4925 | read through the arrays, every nonterminal entry says what the finished list says, and there is one wherever the parser looks |
| Generator.BuildTables | tools/lemon/lemon.c:4684-4925 | the tables are sound for the automaton and say what the finished lists say, which accept what the resolved lists accept |
| Generator.Generate | tools/lemon/lemon.c:919-1289 | for every valid grammar the generator ends with sound tables over exact follow sets, conflicts settled as the levels call for, and lists compressed as both passes call for; no conflict is counted where the levels decide; without conflicts and precedences the lists accept every sentence |
| Generator.Feed | tools/lemon/lempar.c:879-968 | feeding tokens and the end marker accepts only sentences, only what the finished lists accept, and all they accept with enough turns |
| Generator.Recognize | tools/lemon/lempar.c:879-968 | a generated parser accepts only sentences; it accepts what the resolved lists accept and nothing else; with no conflict and no precedences it accepts every sentence whose tree fits the stack, given that many turns or the bound for acyclic grammars |
| CyclicRun.ListsEndless | tools/lemon/lemon.c:1319-1379 | on the grammar with A ::= A first, the conflict is resolved so that the run on a sentence never ends |
| CyclicRun.CyclicExample | tools/lemon/lempar.c:915-968 | the parser generated for it shifts the token and then neither accepts nor fails in any number of turns |
| AgendaModel.BestUnique | rulesforge/include/engine/agenda.hpp:89-130 | the greatest activation in focus is unique |
| AgendaModel.Agenda.SetFocus | rulesforge/include/engine/agenda.hpp:218-220 | the group becomes the focus |
| AgendaModel.Agenda.PopFocus | rulesforge/include/engine/agenda.hpp:224-229 | the top group leaves the stack; an empty stack gives the empty string |
| AgendaModel.Agenda.Add | rulesforge/include/engine/agenda.hpp:35-41 | the map holds the activation under its hash, the group index lists it as well, and nothing else changes |
| AgendaModel.Agenda.Remove | rulesforge/include/engine/agenda.hpp:69-87 | exactly this activation and its membership go; tells whether it was there; the rest of the index stays |
| AgendaModel.Agenda.CompactIfNeeded | rulesforge/include/engine/agenda.hpp:322-334 | the queue is rebuilt iff more than 64 stale entries were skipped and it is more than twice as long as the map; then it holds every live activation once and nothing else |
| AgendaModel.Agenda.PopNext | rulesforge/include/engine/agenda.hpp:89-130 | with no group focused, none iff every live rule has a group other than "MAIN"; with g on top, none iff no live rule has group g, nor, if g is "MAIN", no group; else one that may fire, greatest by salience and hash among those, and only it is removed |
| AgendaModel.Agenda.PopTimes | rulesforge/include/engine/agenda.hpp:89-130 | repeated pops take what may fire under the stack of focused groups, greatest first, until none is left |
| AgendaModel.Agenda.PopBatch | rulesforge/include/engine/agenda.hpp:132-203 | the same draining as repeated pops, in the same order, with the popped memberships taken from the index |
| AgendaModel.UngroupedExample | rulesforge/include/engine/agenda.hpp:235-237 | a new agenda fires an activation whose rule has no group |
| AgendaModel.OtherFocusExample | rulesforge/include/engine/agenda.hpp:104-109 | with the focus on another group it does not fire |
| AgendaModel.DrainsUnique | rulesforge/include/engine/agenda.hpp:89-203 | a draining is determined by the map, the focus and the number, so batch and repeated pops agree |
| AgendaModel.DrainsRemoves | rulesforge/include/engine/agenda.hpp:132-203 | a draining leaves exactly the map without the activations taken |
| AgendaModel.Agenda.Requeue | rulesforge/include/engine/agenda.hpp:205-216 | the tail of the batch is filed again, in map, queue and index |
| AgendaModel.RestoreUndoes | rulesforge/include/engine/agenda.hpp:132-216 | putting back a batch from index k leaves exactly its first k activations removed |
| AgendaModel.Agenda.PopBatchAndRequeue | rulesforge/include/engine/agenda.hpp:132-216 | pop then requeue from k: map and index lack the first k only; for k = 0 both are as before |
| AgendaModel.MembersDetermine | rulesforge/include/engine/agenda.hpp:174-187 | two indexes without empty groups and with the same members are equal |
| AgendaModel.CancelEffect | rulesforge/include/engine/agenda.hpp:274-291 | with a complete index a cancel removes exactly the other live members; the index stays complete iff the excepted one is no live member |
| AgendaModel.CancelLiveExample | rulesforge/include/engine/agenda.hpp:274-291 | a cancel around a live hash after which that activation is live and not listed |
| AgendaModel.Agenda.CancelActivationGroup | rulesforge/include/engine/agenda.hpp:274-291 | the listed activations but the excepted one are removed, nothing outside the group; what the index lists afterwards |
| AgendaModel.Agenda.RemoveActivationsWithFact | rulesforge/include/engine/agenda.hpp:297-315 | exactly the activations whose token chain mentions the fact go, from the map and from the index |
| AgendaModel.MentionsExact | rulesforge/include/engine/agenda.hpp:299-310 | when depths count the chain, the walk sees every fact of the token |
| RhsLexer.Lexer.SkipWhitespace | parser/src/rhs_parser.cpp:20-38 | blanks and line comments are skipped and nothing else |
| RhsLexer.Lexer.NextToken | parser/src/rhs_parser.cpp:168-286 | the next token and the rest of the text, or the peeked ones |
| RhsLexer.Lexer.Peek | parser/src/rhs_parser.cpp:288-294 | the next token, which stays next |
| RhsLexer.ScanHereShrinks | parser/src/rhs_parser.cpp:168-286 | every token consumes at least one character |
| RhsText.NextOk | parser/src/rhs_parser.cpp:40-286 | each kind of token has only texts of its shape |
| RhsText.LexName | parser/src/rhs_parser.cpp:40-89 | a name in front of a character that does not continue it lexes to itself |
| RhsText.LexNumber | parser/src/rhs_parser.cpp:91-116 | a number in front of a delimiter lexes to itself |
| RhsText.LexString | parser/src/rhs_parser.cpp:118-166 | quoted contents without quotes and backslashes lex to the same contents |
| RhsPrint.ContentsBack | parser/src/rhs_parser.cpp:118-166 | any characters, escaped, are read back as the contents of a string |
| RhsPrint.StringsLexed | parser/src/rhs_parser.cpp:118-166 | either quote ends the string it starts; a string that is not closed reaches to the end |
| RhsPrint.BlankSkipped | parser/src/rhs_parser.cpp:20-38 | blanks, tabs and line ends in front of a token do not matter |
| RhsPrint.CommentSkipped | parser/src/rhs_parser.cpp:20-38 | a line comment does not matter |
| RhsPrint.WrittenLexesBack | parser/src/rhs_parser.cpp:40-286 | tokens of every kind, spelled out with one keyword or symbol per kind and escapes in strings, lex back to themselves |
| RhsPrint.LexedWritable | parser/src/rhs_parser.cpp:40-286 | whatever the lexer returns but a stray character can be spelled out so |
| RhsPrint.Respaced | parser/src/rhs_parser.cpp:168-286 | a text without stray characters and its tokens spelled out lex alike |
| RhsText.RenamedCalls | parser/src/rhs_parser.cpp:975-980 | exactly the names to_upper and to_lower are renamed, and only where they are called |
| RhsText.EmitsBinary | parser/src/rhs_parser.cpp:871-942 | an operand, a spaced operator and an operand stand for the tokens they were read from |
| RhsText.EmittedLexesBack | parser/src/rhs_parser.cpp:851-1015 | lexing an emitted text gives the consumed tokens, up to the renamed functions |
| RhsGrammar.TreeStands | parser/src/rhs_parser.cpp:851-1015 | the text emitted for an expression tree lexes back to the tokens the tree is written with, up to the renamed functions, and mentions all its variables |
| RhsReading.TernaryReads | parser/src/rhs_parser.cpp:856-869 | an expression that comes next, read as a test and then its branches, is read whole |
| RhsReading.ChainGoesOn | parser/src/rhs_parser.cpp:871-942 | after an operand of a chain the next operator of the level continues it, and nothing else does |
| RhsReading.CallRead | parser/src/rhs_parser.cpp:963-1000 | a call that comes next is read with all its arguments and emitted under its new name, `concat` as a sum |
| RhsReading.ExpressionHead | parser/src/rhs_parser.cpp:944-1015 | what an expression can begin with |
| RhsParser.Parser.Advance | parser/src/rhs_parser.cpp:317-321 | the current token is consumed; consumed and pending tokens together stay those of the input |
| RhsParser.Parser.ParseTernary | parser/src/rhs_parser.cpp:856-869 | ends; without an error text and tokens are those of an expression; an expression that comes next is accepted, taken whole and emitted as its text |
| RhsParser.Parser.ParseBinary | parser/src/rhs_parser.cpp:871-942 | the six operator levels: ends; text and tokens are those of an expression of the level; such an expression that comes next is accepted, taken whole and emitted as its text |
| RhsParser.Parser.ParseTerm | parser/src/rhs_parser.cpp:944-1015 | terms, paths and calls: ends; text and tokens are those of a term; a term that comes next is accepted, taken whole and emitted as its text |
| RhsParser.EmitExpression | parser/src/rhs_parser.cpp:851-1015 | the emitted text is that of an expression written with the tokens read, and lexing it returns them; a text that is an expression is accepted and emitted as such |
| ExpressionRefs.ExtractVariableName | parser/src/expression_descriptor.cpp:26-72 | the whole reference at a dollar sign, name and fields, and an end before the next dollar sign |
| ExpressionRefs.Compile | parser/src/expression_descriptor.cpp:85-121 | fails on the empty text only; the collected names are exactly the references of the text, with their fields, each once |
| ExpressionRefs.PathRead | parser/src/expression_descriptor.cpp:26-72 | a dollar sign with a name and fields is read as exactly that |
| ExpressionRefs.SpacedRead | parser/src/expression_descriptor.cpp:26-72 | white space in front of a name and around the dot of a field is passed over |
| ExpressionRefs.CollectedRefsOk | parser/src/rhs_parser.cpp:362-369 | if all collected bases are available, so is every reference in the text |
| RhsScope.MentionsChecked | parser/src/rhs_parser.cpp:338-369 | if a text passes the check, every named variable token it stands for is available |
| RhsScope.VariablePasses | parser/src/rhs_parser.cpp:40-89 | a variable token passes the check iff it is a lone dollar sign or is available |
| RhsScope.QuotedVariablePasses | parser/src/expression_descriptor.cpp:85-121 | a string literal holding a variable's name passes the check iff that variable is available |
| RhsActions.ReferenceChars | parser/src/rhs_parser.cpp:807-813 | which characters make an expression of a text that starts with a dollar sign |
| RhsActions.UpperNames | parser/src/rhs_parser.cpp:757-760 | which names are string literals |
| RhsParser.Parser.CheckReference | parser/src/rhs_parser.cpp:338-360 | an error iff the base of the reference is not a fact binding, a loop variable or a global |
| RhsParser.Parser.CheckExpression | parser/src/rhs_parser.cpp:362-369 | an error iff the text is empty or has a reference that is not available |
| RhsParser.Parser.ParseCondition | parser/src/rhs_parser.cpp:501-540 | without an error the text is that of an expression written with the tokens consumed, and every named variable token among them is available; a condition that comes next is rejected iff a reference in its text is not available |
| RhsParser.Parser.ParseAction | parser/src/rhs_parser.cpp:384-415 | ends; without an error the action is well scoped and written by exactly the tokens consumed; a statement that comes next is accepted iff it is good, and gives its action; loop variables are as before |
| RhsParser.Parser.ParseUpdate | parser/src/rhs_parser.cpp:417-433 | keyword, target and assignments in order are the tokens consumed; accepted iff the target is a fact binding or a loop variable in scope and the values are good |
| RhsParser.Parser.ParseRetract | parser/src/rhs_parser.cpp:465-479 | keyword and target are the tokens consumed; accepted iff the target is a fact binding or a loop variable in scope |
| RhsParser.Parser.ParseIf | parser/src/rhs_parser.cpp:501-540 | condition, first block and else part are written by the tokens in that order, `else if` included; accepted iff all three are good |
| RhsParser.Parser.ParseFor | parser/src/rhs_parser.cpp:542-600 | variable, source and body are written by the tokens in that order; accepted iff the sources are in scope and the body is good with the loop variable added |
| RhsParser.Parser.ParseLoopBody | parser/src/rhs_parser.cpp:588-596 | the set of loop variables is restored exactly, also for nested loops over the same name |
| RhsParser.Parser.ParseWhile | parser/src/rhs_parser.cpp:602-627 | condition and body are written by the tokens in that order; accepted iff both are good |
| RhsParser.Parser.ParseSwitch | parser/src/rhs_parser.cpp:629-698 | expression and cases, each with its value and block, are written by the tokens in that order; accepted iff all are good |
| RhsParser.Parser.ParseValue | parser/src/rhs_parser.cpp:732-829 | literals, references and expressions are told apart as the tokens say; a value that comes next is accepted iff it calls a known function and its references are available |
| RhsParser.Parser.Parse | parser/src/rhs_parser.cpp:371-382 | ends on every input; without an error all tokens were consumed, and they write the actions one after the other; a program is accepted iff it is good, and gives its actions |
| RhsParser.ParseRhs | parser/src/rhs_parser.cpp:1021-1035 | code is accepted iff it is a program of the grammar that is good, and the actions are those of that program; accepted code gives well-scoped actions that all its tokens write in order, rejected code none |
| RhsParser.ParseGiven | parser/src/rhs_parser.cpp:1021-1035 | for each program of the grammar: code with its tokens is accepted iff that program is good, and gives its actions |
| RhsTrees.StatementTree | parser/src/rhs_parser.cpp:384-712 | tokens that write an action are those of a statement of the grammar that compiles to it |
| RhsTrees.ValueTree | parser/src/rhs_parser.cpp:732-829 | tokens that write a value are a literal or an expression that does not start with one |
| RhsParser.ReadWritten | parser/src/rhs_parser.cpp:1021-1035 | round trip: a program spelled out from its syntax tree is read back to the actions of that tree, iff it is good |
| RhsParser.AcceptsOperator | parser/src/rhs_parser.cpp:805-826 | assigning two declared variables joined by an operator is accepted iff the operator is none of `%`, `^`, and the logical two |
| RhsOperators.OperatorAccepted | parser/src/rhs_parser.cpp:338-360 | the exact set of operators with which a value of two declared variables is good |
| RhsValues.ComputedRead | parser/src/rhs_parser.cpp:805-826 | an expression in the place of a value is classified by its emitted text and accepted iff its references are available |
| RhsValues.TrailingComma | parser/src/rhs_parser.cpp:714-730 | a comma may follow the last assignment |
| RhsAccepting.IfRead | parser/src/rhs_parser.cpp:501-540 | an `if` that comes next, read as condition, block and else part, is accepted iff it is good and gives its action |
| RhsAccepting.ForRead | parser/src/rhs_parser.cpp:542-600 | a `for` that comes next is accepted iff its source is in scope and its body good with the variable added |
| RhsAccepting.SwitchRead | parser/src/rhs_parser.cpp:629-698 | a `switch` that comes next is accepted iff its expression and cases are good |
| RhsAccepting.ProgramGoesOn | parser/src/rhs_parser.cpp:371-382 | statements that come one after the other are read one after the other |
| RhsParser.ParseIfHalt | parser/src/rhs_parser.cpp:501-540 | `if` variable `{ halt }` is accepted iff the variable is a lone dollar sign or declared |
| RhsParser.LoneDollarExample | parser/src/rhs_parser.cpp:40-89 | `if $ { halt }` is accepted with nothing declared |
| RhsParser.StringExample | parser/src/expression_descriptor.cpp:85-121 | a condition that is the string "$x" is accepted iff $x is declared |
| ForallRewrite.NegatedConstraint | parser/src/ast_transformer.cpp:7-21 | a negated constraint says the opposite iff its operator has one, else the same as before |
| ForallRewrite.NegatedTree | parser/src/ast_transformer.cpp:24-41 | De Morgan on every tree and fact, with operators without opposite read the wrong way round |
| ForallRewrite.NegationFlips | parser/src/ast_transformer.cpp:24-41 | negating a tree of orderings and existence checks flips its value on every fact |
| ForallRewrite.NegatedTwice | parser/src/ast_transformer.cpp:24-41 | negating twice gives the tree back iff it holds no bare existence check |
| ForallRewrite.Node.Negate | parser/src/ast_transformer.cpp:24-41 | the in-place recursion turns the tree into its negation and keeps its nodes |
| ForallRewrite.ExpandForalls | parser/src/ast_transformer.cpp:61-121 | the loop over the list expands every pattern, nested patterns first; afterwards a pattern is of kind FORALL iff it was one with fewer than two sub-patterns |
| ForallRewrite.ExpandedParts | parser/src/ast_transformer.cpp:71-119 | a forall with two or more sub-patterns becomes a NOT around its first one, which keeps its constraints and gains the denial of the constraints of all the others; any other pattern stays |
| ForallRewrite.RewriteMeaning | parser/src/ast_transformer.cpp:71-119 | what the resulting NOT pattern says, for all operators |
| ForallRewrite.RewriteKeepsMeaning | parser/src/ast_transformer.cpp:71-119 | the NOT pattern holds on a set of facts iff every fact matching the base satisfies all restrictions |
| ForallRewrite.RightIffOpposite | rulesforge/include/core/constraint_types.hpp:80-90 | a single-constraint restriction is rewritten correctly on all sets of facts iff its operator has an opposite |
| ForallRewrite.ExpandKeepsMeaning | parser/src/ast_transformer.cpp:61-121 | expanding foralls at every depth changes the truth of no pattern |
| ForallRewrite.LeftoverForalls | parser/src/ast_transformer.cpp:61-121 | a forall with two or more sub-patterns is left behind iff it stands inside the base of another |
| ConstraintText.TrimText | parser/src/decision_table_compiler.cpp:85-90 | removes white space at both ends |
| ConstraintText.TrimPad | parser/src/decision_table_compiler.cpp:85-90 | white space around a trimmed text is exactly what trimming removes |
| ConstraintText.ScanWrapped | parser/src/decision_table_compiler.cpp:94-110 | the scan decides whether a text is fully wrapped |
| ConstraintText.WrappedMeaning | parser/src/decision_table_compiler.cpp:94-110 | fully wrapped means: one pair of parentheses around a balanced text |
| ConstraintText.StripOuterParens | parser/src/decision_table_compiler.cpp:92-116 | strips until the text is no longer wrapped; ends |
| ConstraintText.SplitTopLevelLogical | parser/src/decision_table_compiler.cpp:201-263 | the loop computes the split at whole keywords outside quotes and parentheses |
| ConstraintText.SplitTopLevelComma | parser/src/decision_table_compiler.cpp:265-309 | the loop computes the split at commas outside quotes and parentheses |
| ConstraintText.PartsShorter | parser/src/decision_table_compiler.cpp:201-309 | two or more parts of any text are each non-empty and strictly shorter |
| ConstraintText.SplitBalanced | parser/src/decision_table_compiler.cpp:201-309 | parts of a balanced text are balanced |
| ConstraintText.GluedSplit | parser/src/decision_table_compiler.cpp:201-309 | operands joined by a comma or a keyword are split into exactly those operands |
| ConstraintText.SplitOnce | parser/src/decision_table_compiler.cpp:201-263 | a keyword in any case splits two operands if white space or a parenthesis stands on either side of it |
| ConstraintText.WordNotSplit | parser/src/decision_table_compiler.cpp:201-263 | a keyword inside a longer word splits nothing |
| ConstraintText.KeywordCases | parser/src/decision_table_compiler.cpp:201-263 | `a Or b` and `(a)AND(b)` are split, `color` is not |
| ConstraintText.QuotedKept | parser/src/decision_table_compiler.cpp:201-309 | what stands in quotes is not split, whatever it is |
| ConstraintText.ParseConstraint | parser/src/decision_table_compiler.cpp:567-599 | the recursive parser ends on every text and computes the specified tree |
| ConstraintText.ParseText | parser/src/decision_table_compiler.cpp:567-599 | a text laid out from operands, parentheses, commas and keywords, with `or` loosest, then the comma, then `and`, is parsed to the tree it means |
| ConstraintText.MixedSeparators | parser/src/decision_table_compiler.cpp:583-590 | `a or b, c and d` is or of a and (b and (c and d)); `a, b` and `a and b` are an AND, `a or b` an OR |
| ConstraintText.RoundTrip | parser/src/decision_table_compiler.cpp:567-599 | rendering a tree with parentheses only where needed, AND written with commas or with the keyword, and parsing the text returns the tree |
| ConstraintText.ParsedBranching | parser/src/decision_table_compiler.cpp:571-582 | logical nodes of a parsed tree have at least two children |
| EditDistance.Levenshtein | parser/src/semantic_analyzer.cpp:20-39 | the two-row loop returns the recursive minimum-edit distance |
| EditDistance.DistanceCountsEdits | parser/src/semantic_analyzer.cpp:20-39 | that distance is the least number of single-character insertions, deletions and replacements |
| EditDistance.ZeroIffEqual | parser/src/semantic_analyzer.cpp:20-39 | the distance is zero iff the strings are equal |
| EditDistance.Symmetric | parser/src/semantic_analyzer.cpp:20-39 | the distance is symmetric |
| EditDistance.Triangle | parser/src/semantic_analyzer.cpp:20-39 | the triangle inequality |

## Left out

- Driver.Parser.Parse: carries a bound on the turns of its loop, because a cyclic grammar can make it run forever (`CyclicExample`); the stack has a fixed limit and is not grown.
- Generator.Recognize: that all sentences are accepted is stated for grammars without conflicts and without declared precedences, because a conflict resolved by precedence can drop sentences without being counted.
- Automata.Builder.Find: a linear search stands for the hash lookup; that the hash table is such a map is proved in `HashTables.dfy`.
- LookaheadPaths.FollowSetsExact: asks that no token class is empty, because no path goes through an empty one.
- ActionLists.DecidedQuiet: asks that every token class lists each of its tokens once; one listed twice meets itself as a conflict.
- Lookaheads.FindLinks: links are computed from the closures and shifts, not by moving back-link lists between states.
- MergeSort.Msort: lists are sequences; the rewiring of next pointers and the offset arithmetic are not modelled.
- HashTables.Table.Insert: `from` pointers, which nothing reads, and failing allocations are not modelled.
- RhsParser.Parser.ParseBinary: one method with a level stands for the six identical operator methods.
- RhsParser.ParseRhs: that a text has one syntax tree only is not stated; what is stated holds for each of its trees (`ParseGiven`).
- RhsParser.Parser.ParseValue: a value classified as a reference by character search has only its leading base checked, as in the code; number literals are kept as text.
- ForallRewrite.ExpandForalls: patterns are values; only the constraint tree is also modelled as objects rewritten in place.
- ForallRewrite.NegatedTree: the condition for flipping is exact per constraint and, for trees, given through the misread tree, because a constraint without opposite can be masked by its neighbours.
- The tables `yy_shift_ofst` and `yy_reduce_ofst` are not cut after the last state with an offset (tools/lemon/lemon.c:4857-4895).
- The shortcut for unit rules (tools/lemon/lemon.c:5252-5280), `%nonassoc`, `%wildcard`, `%fallback` and error symbols.
- Lemon's grammar reader, command line, reports and code emission.
- Delayed activations, clocks, no-loop and lock-on-active in the agenda.
- Ternaries, `concat` and strings that need escapes are outside the text round trip, because their emitted texts are not what was read; the texts themselves are stated for every tree. Positions and messages of errors.
- The regular-expression parser of single constraints, literal values, and everything else in the decision-table compiler and the semantic analyzer.
- The rule language's own lexer and grammar, the C interface, sessions, truth maintenance, metrics, logging and data import.
