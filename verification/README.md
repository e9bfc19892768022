# The SQL parser of WCDBOptimizedSQLCipher, verified

This project models the executable core of the SQL front end in `WYChat/Pods/WCDBOptimizedSQLCipher` and proves
what the rest of the library relies on.

* **The LALR(1) driver** (`lr_*.dfy`). The compressed tables are a parameter. `Certified` is a check of a set of
  tables, entry by entry, against a grammar; every theorem about runs holds for all tables that pass it.
  `LrMachine` is the push-down machine as a function on states, `LrParser` is the driver over a fixed array of
  100 entries with the index `yytos`, changed in place and proved equal to the machine. Acceptance is sound,
  every value is owned exactly once, calls terminate, the bounded stack agrees with an unbounded one, and the
  driver, which parks reductions and skips unit rules, simulates a textbook shift/reduce machine that does
  neither.
* **Keyword recognition** (`keyword_*.dfy`). The hash tables are the real ones; the lookup equals a linear
  case-insensitive search of a list of the 124 keywords and their codes that is written out without the tables.
* **Compound SELECT** (`select_*.dfy`). The reduce actions build a heap chain of Select objects that means what
  the statement means, and link it in both directions.
* **Expressions** (`expr_*.dfy`). The reduce actions, which overwrite union members of the stack slots, build
  trees in normal form that keep the three-valued meaning, and text spans that are exact.
* **Trigger steps** (`trigger_steps.dfy`) and **referential actions** (`refargs.dfy`).

A semantic value of the driver is the parse tree of the reductions that made it; this covers every choice of
reduce actions at once. The actions themselves are modelled in the `select_*`, `expr_*`, `trigger_*` and
`refargs` files.

## Where the code needs a condition

* The lookup takes DEL (0x7F) for an underscore, because the comparison clears bit 5.
  `KeywordCode.AgreesUnlessDel` is the exact condition.
* `yyStackOverflow` steps back over an entry that an empty rule never pushed, so the top value is dropped
  without its destructor. `LrValues.RunLoses` says exactly when, and `LrLossExample.ValuesCanBeLost` has a run.
* The span of `expr IN table(args)` stops before the arguments. `ExprSpans.SpanIsExact` is the exact condition.
* Two table rows may share an offset only if they are identical. `LrTables.CompressionExact` is the exact
  condition.

## Model

| member | source | states |
|---|---|---|
| `LrTables.CompressionExact` | WYChat/Pods/WCDBOptimizedSQLCipher/parse.c:367-385 | for every packing of sparse rows into the shared arrays, the offset and `yy_lookahead` test returns exactly the sparse entry (or nothing) for all states and symbols if and only if states that share an offset have identical rows |
| `LrTables.ShiftRefinesSparse` | WYChat/Pods/WCDBOptimizedSQLCipher/parse.c:1721-1778 | with such a packing, the compressed shift lookup equals the choice made in the state's own sparse row: exact entry, fallback's entry, wildcard's entry (never for token 0), default |
| `LrTables.GotoRefinesSparse` | WYChat/Pods/WCDBOptimizedSQLCipher/parse.c:1784-1809 | the unchecked goto lookup finds the entry of the state's own sparse row where there is one; a state with YY_REDUCE_USE_DFLT, or past the end of the offsets, has none |
| `LrTables.UseDefaultAlwaysMisses` | WYChat/Pods/WCDBOptimizedSQLCipher/parse.c:1731-1734 | a state whose offset is the table length takes its default on every token |
| `Grammars.TreeDerives` | WYChat/Pods/WCDBOptimizedSQLCipher/parse.c:1900-2233 | the leaves of a parse tree, each read as itself, as its fallback or as ANY, are derivable by rewriting from any symbol the root can be read as through optimised-out unit rules |
| `Grammars.ParsedIsInLanguage` | WYChat/Pods/WCDBOptimizedSQLCipher/parse.c:4020-4033 | the leaves of a parse tree for the start symbol form a sentence of the grammar |
| `LrMachine.GoodReady` | WYChat/Pods/WCDBOptimizedSQLCipher/parse.c:1795-1806 | in every stack that satisfies the shape invariant no lookup can miss: the state is in range, a reduction finds its right-hand side above slot 0 and a goto entry below it |
| `LrMachine.ReduceUncovers` | WYChat/Pods/WCDBOptimizedSQLCipher/parse.c:3955-3972 | when a rule is about to be reduced, its right-hand side is spelled by the top entries, slot 0 stays uncovered, and the goto check holds in the uncovered state |
| `LrMachine.NonEmptyReductionDescends` | WYChat/Pods/WCDBOptimizedSQLCipher/parse.c:3955-3972 | where one-symbol rules lead to lower symbols and a token is read as nothing higher, every reduction by a non-empty rule lowers the stack, or keeps its height and lowers the top symbol, optimised-out unit rules and fallback tokens included |
| `LrMachine.CombineGood` | WYChat/Pods/WCDBOptimizedSQLCipher/parse.c:3955-3972 | a reduction keeps the shape invariant; it accepts, and then only slot 0 is left and the tree is a parse tree for the start symbol, or it lowers a potential made of the bound on empty reductions, the stack height and the symbol order |
| `LrMachine.StepGood` | WYChat/Pods/WCDBOptimizedSQLCipher/parse.c:4089-4201 | every turn of the driver loop keeps the shape invariant, overflow included, and a turn that does not end the loop lowers that potential |
| `LrExample.ExampleCertified` | WYChat/Pods/WCDBOptimizedSQLCipher/parse.c:351-385 | a small grammar with an empty rule, a fallback token, the wildcard, parked reductions and an optimised-out unit rule is certified, both with tables that keep the unit rule and with tables that skip it, so the results about certified tables are not empty |
| `LrExample.ExampleOptimises` | WYChat/Pods/WCDBOptimizedSQLCipher/parse.c:3896-3951 | the two sets of tables of that example differ as optimising out the unit rule demands, so the results that compare such tables are not empty |
| `LrSoundness.RunInv` | WYChat/Pods/WCDBOptimizedSQLCipher/parse.c:4089-4201 | in every reachable state the stack symbols yield exactly the tokens shifted since the stack was last emptied, accepted trees are parse trees of what was shifted, and every shifted token has exactly one owner |
| `LrSoundness.AcceptanceIsSound` | WYChat/Pods/WCDBOptimizedSQLCipher/parse.c:4089-4201 | for every token stream and every certified table, whenever a run accepts, the tokens shifted since the stack was last emptied form a sentence derivable from the start symbol |
| `LrSoundness.FeedVerdict` | WYChat/Pods/WCDBOptimizedSQLCipher/parse.c:4089-4201 | each call of the driver ends in exactly one of: one shift of its token, one syntax error, one overflow report after destructor calls, or, at the end of input only, one acceptance; after the last two only slot 0 is left |
| `LrSoundness.CleanRunShiftsAll` | WYChat/Pods/WCDBOptimizedSQLCipher/parse.c:4089-4095 | before the end of input, a run without errors has shifted exactly the tokens it was given |
| `LrSoundness.CleanRunRecognises` | WYChat/Pods/WCDBOptimizedSQLCipher/parse.c:4089-4201 | a run without errors over a closed token stream accepts a parse tree whose leaves are exactly that stream |
| `LrValues.RunLoses` | WYChat/Pods/WCDBOptimizedSQLCipher/parse.c:2270-2272 | a whole run drops as many values without a destructor as it has calls that meet a full stack with an empty rule; none if and only if no turn does |
| `LrValues.FittingRunsLoseNothing` | WYChat/Pods/WCDBOptimizedSQLCipher/parse.c:2270-2272 | a run that never needs more entries than there are loses nothing |
| `LrLossExample.ValuesCanBeLost` | WYChat/Pods/WCDBOptimizedSQLCipher/parse.c:1814-1822 | at every depth of the stack, the parser's 100 included, a certified grammar and a token stream whose run loses a value that a reduction built |
| `LrValues.RunOwned` | WYChat/Pods/WCDBOptimizedSQLCipher/parse.c:4089-4201 | in every reachable state each value that a shift or a reduction made, of an empty rule or not, is owned exactly once: by the stack, by the destructor, by an accepting caller, inside a value made of it, or it is lost |
| `LrValues.FreeConservesValues` | WYChat/Pods/WCDBOptimizedSQLCipher/parse.c:1669-1705 | after any run followed by freeing the parser, each value ever made was destroyed once, handed off once, or lost |
| `LrSoundness.DrainReleases` | WYChat/Pods/WCDBOptimizedSQLCipher/parse.c:1663-1690 | emptying the stack by destructor calls releases exactly the values on it, each once, and changes no other account |
| `LrSoundness.DrainDestroysEach` | WYChat/Pods/WCDBOptimizedSQLCipher/parse.c:1669-1705 | emptying the stack calls, for every entry above slot 0, the destructor of that entry's own symbol with that entry's value, once, top first |
| `LrSoundness.StepDestroys` | WYChat/Pods/WCDBOptimizedSQLCipher/parse.c:1814-1832 | a step calls destructors only when it overflows, and then, by symbol and value, once for every entry on the stack, except the one an empty rule loses |
| `LrSoundness.RunDestroysByRoot` | WYChat/Pods/WCDBOptimizedSQLCipher/parse.c:1549-1681 | in every run, and in every run followed by freeing the parser, each value is given to the destructor of the symbol it is a value of |
| `LrSoundness.ActionsSeeTheirTerminals` | WYChat/Pods/WCDBOptimizedSQLCipher/parse.c:1735-1769 | in every run, when a rule is reduced whose symbol is a terminal that is neither ANY nor a fallback target, the slot's `major` is the very terminal the rule names |
| `LrParser.YyParser.YyFindShiftAction` | WYChat/Pods/WCDBOptimizedSQLCipher/parse.c:1721-1778 | the fallback loop returns the pending reduce, or the declarative priority choice, for every state and token |
| `LrParser.YyParser.YyFindReduceAction` | WYChat/Pods/WCDBOptimizedSQLCipher/parse.c:1784-1809 | the unchecked read returns the goto entry that the asserts promise |
| `LrParser.YyParser.YyStackOverflow` | WYChat/Pods/WCDBOptimizedSQLCipher/parse.c:1814-1832 | steps `yytos` back once, destroys every remaining value from the top down to slot 1 once, then reports the overflow once |
| `LrParser.YyParser.YyShift` | WYChat/Pods/WCDBOptimizedSQLCipher/parse.c:1857-1892 | pushes the original token with its shift or parked-reduce state in place, or overflows; the array and index afterwards are the functional machine's next stack |
| `LrParser.YyParser.YyReduce` | WYChat/Pods/WCDBOptimizedSQLCipher/parse.c:2241-2283 | reduces in place by the rule table, with the overflow test for empty right-hand sides; the new state is the functional machine's, and on acceptance only slot 0 is left |
| `LrParser.YyParser.Sqlite3ParserFree` | WYChat/Pods/WCDBOptimizedSQLCipher/parse.c:1692-1705 | runs the destructor of every entry above slot 0, top first, and leaves slot 0 |
| `LrParser.YyParser.Sqlite3Parser` | WYChat/Pods/WCDBOptimizedSQLCipher/parse.c:4055-4201 | the driver loop over the 100-entry array keeps `yytos` within the array and the shape invariant, terminates, and refines the functional machine |
| `LrBounds.FeedAgrees` | WYChat/Pods/WCDBOptimizedSQLCipher/parse.c:1864-1882 | one call with a bounded stack does what the unbounded machine does, unless that machine needs one entry too many during the call; then the overflow is reported once and only slot 0 is left |
| `LrBounds.RunAgrees` | WYChat/Pods/WCDBOptimizedSQLCipher/parse.c:1814-1832 | a whole run reports no overflow if and only if the unbounded machine never needs more entries than there are, and then both make the same run |
| `LrBounds.NonEmptyReductionsBounded` | WYChat/Pods/WCDBOptimizedSQLCipher/parse.c:3955-3972 | a stretch of non-empty reductions on one lookahead is bounded by the stack height and the symbol order alone |
| `LrBounds.EmptyReductionsBounded` | WYChat/Pods/WCDBOptimizedSQLCipher/parse.c:2262-2283 | one call reduces no more empty rules before its last turn than the certificate allows for its state and lookahead |
| `LrBounds.TurnsBounded` | WYChat/Pods/WCDBOptimizedSQLCipher/parse.c:4089-4201 | every call ends, within a number of turns given by the stack height, the bound on empty reductions and the height of the symbol order |
| `LrTextbook.EveryTableParks` | WYChat/Pods/WCDBOptimizedSQLCipher/parse.c:351-365 | every set of tables is the parked form of a textbook machine that has a state of its own for each parked reduction |
| `LrTextbook.StepsAlike` | WYChat/Pods/WCDBOptimizedSQLCipher/parse.c:1884-1888 | each turn of the driver, shift, parked reduction, reduction, overflow, error or acceptance, is one step of the textbook machine |
| `LrTextbook.ParkingIsPlain` | WYChat/Pods/WCDBOptimizedSQLCipher/parse.c:3959-3966 | on every token stream the textbook shift/reduce machine gets through, in exactly one way, with the same events, values and stack but for the top `stateno`, in which the driver may park a reduction |
| `LrTextbook.OptimisedRefinesTextbook` | WYChat/Pods/WCDBOptimizedSQLCipher/parse.c:3896-3951 | parking and optimised-out unit rules together: on every token stream the driver and the textbook machine with all rules in place report the same shifts, syntax errors, overflows and acceptances in the same order, with the same trees up to unit nodes, on the stack and among lost values too |
| `LrUnitRules.SettleStep` | WYChat/Pods/WCDBOptimizedSQLCipher/parse.c:3896-3951 | where tables that keep a unit rule have its reduction parked, the optimised tables already are in the state that this reduction reaches |
| `LrUnitRules.MatchStep` | WYChat/Pods/WCDBOptimizedSQLCipher/parse.c:3896-3951 | on equal top states, tables with and without the unit rules take corresponding steps, overflow included |
| `LrUnitRules.UnitRulesMayBeOptimisedOut` | WYChat/Pods/WCDBOptimizedSQLCipher/parse.c:3896-3951 | on every token stream, tables with unit rules optimised out and tables that keep them agree on all events in order, with the same trees up to nodes of those rules |
| `LrUnitRules.StripKeepsYield` | WYChat/Pods/WCDBOptimizedSQLCipher/parse.c:3896-3951 | trees that agree up to unit nodes have the same leaves |
| `KeywordFacts.AllFound` | WYChat/Pods/WCDBOptimizedSQLCipher/keywordhash.h:16-134 | each of the 124 keywords lies inside the pool and is what the chain of its own hash bucket yields for its text, and chains only lead to smaller indices |
| `KeywordMatch.TablesMatchList` | WYChat/Pods/WCDBOptimizedSQLCipher/keywordhash.h:16-134 | the pool, the lengths, the offsets and the codes spell, entry by entry, the 124 keywords and token codes of a list written out without them |
| `KeywordCode.ChainIsSearch` | WYChat/Pods/WCDBOptimizedSQLCipher/keywordhash.h:135-155 | for every string of at least two bytes, walking one bucket's chain gives what a linear, case-insensitive search of all keywords gives |
| `KeywordCode.Unique` | WYChat/Pods/WCDBOptimizedSQLCipher/keywordhash.h:16-134 | the keywords are pairwise distinct |
| `KeywordCode.SqlKeywordCode` | WYChat/Pods/WCDBOptimizedSQLCipher/keywordhash.h:135-284 | for every string, the lookup returns the code that the written list gives the keyword equal to it up to case and up to DEL for underscore, and TK_ID if there is none; every pool access is in range and the walk ends |
| `KeywordCode.AgreesUnlessDel` | WYChat/Pods/WCDBOptimizedSQLCipher/keywordhash.h:143-148 | the lookup equals the plain case-insensitive search if and only if the input is not a keyword written with DEL (0x7F) for an underscore |
| `KeywordCode.DelTakenForUnderscore` | WYChat/Pods/WCDBOptimizedSQLCipher/keywordhash.h:143-148 | a concrete input on which the two differ |
| `KeywordCode.LikeTokensAreShort` | WYChat/Pods/WCDBOptimizedSQLCipher/keywordhash.h:84-134 | a token that the lookup takes for LIKE, GLOB, REGEXP or MATCH has at most six bytes |
| `SelectMeaning.LowerKeepsMeaning` | WYChat/Pods/WCDBOptimizedSQLCipher/parse.c:2704-2794 | for every nesting of UNION, UNION ALL, EXCEPT, INTERSECT, multi-row VALUES and subqueries, folding the `pPrior` chain with each node's `op` gives the rows of the left-associative statement |
| `SelectMeaning.CompoundRows` | WYChat/Pods/WCDBOptimizedSQLCipher/parse.c:2704-2726 | a row is in a UNION iff it is in either operand, in an EXCEPT iff in the left one and not in the right one, in an INTERSECT iff in both, none of the three repeats a row, and UNION ALL has the multiset sum; of the statement as written and of the lowered chain |
| `SelectMeaning.ChainOperators` | WYChat/Pods/WCDBOptimizedSQLCipher/parse.c:2718-2719 | every chain starts with a fresh Select and ends with the operator of the statement |
| `SelectMeaning.CompoundFlag` | WYChat/Pods/WCDBOptimizedSQLCipher/parse.c:2722 | the compound flag stands for some operator other than UNION ALL anywhere in the statement |
| `SelectMeaning.ErrorsCounted` | WYChat/Pods/WCDBOptimizedSQLCipher/parse.c:106-111 | the limit errors below a statement are one for each subquery, at any depth, that is a compound of too many terms |
| `SelectMeaning.UnwrappedWouldMean` | WYChat/Pods/WCDBOptimizedSQLCipher/parse.c:2709-2716 | without the subquery around a right operand of several terms, the operator would apply to its first row only |
| `SelectMeaning.LimitAppliesToCompounds` | WYChat/Pods/WCDBOptimizedSQLCipher/parse.c:106-111 | the length check of a finished chain fires exactly for compounds whose terms exceed a positive limit, and never for a VALUES list alone |
| `SelectBuild.SubsKept` | WYChat/Pods/WCDBOptimizedSQLCipher/parse.c:90-105 | linking one chain leaves the chains inside it, at any depth, linked and marked |
| `SelectBuild.NextInvertsPrior` | WYChat/Pods/WCDBOptimizedSQLCipher/parse.c:90-105 | on a chain linked in both directions, `p.pPrior.pNext == p` for every node that has a prior |
| `SelectBuild.Parse.DoubleLinkSelect` | WYChat/Pods/WCDBOptimizedSQLCipher/parse.c:90-112 | on every chain the `pPrior` order is unchanged; with at least two nodes `pNext` becomes its inverse with a null at the head and every node is marked compound; the limit error is raised exactly when the head is not multi-value and the length exceeds a positive limit |
| `SelectBuild.Parse.Multiselect` | WYChat/Pods/WCDBOptimizedSQLCipher/parse.c:2704-2726 | links the left chain under a right operand that is wrapped when it has several terms, clears both multi-value marks, and records a compound exactly when the operator is not UNION ALL |
| `SelectBuild.Parse.NextRow` | WYChat/Pods/WCDBOptimizedSQLCipher/parse.c:2782-2794 | a further VALUES row becomes the head over the previous rows, joined by UNION ALL, and alone keeps the multi-value mark |
| `SelectBuild.Parse.SelectStatement` | WYChat/Pods/WCDBOptimizedSQLCipher/parse.c:2689-2794 | the chain built in place for any statement evaluates to the rows of the statement as written and obeys the law of its operator; it and every chain inside it, wrapped operands and subqueries at any depth, are linked in both directions and marked as compound; the compound flag and the limit errors are those of the operators and subqueries of the statement |
| `ExprMeaning.LowerKeepsMeaning` | WYChat/Pods/WCDBOptimizedSQLCipher/parse.c:3135-3519 | for every expression, nested in any way, and every environment, the tree that is built has the three-valued meaning of the expression as written |
| `ExprNormal.LowerIsNormal` | WYChat/Pods/WCDBOptimizedSQLCipher/parse.c:3135-3519 | every tree that is built is in normal form: each node has the operands and the content of its operation and no others, a literal has its own kind, no conjunction has a signed zero, no IS or IS NOT has a NULL node on the right, and no IN keeps a list of fewer than two |
| `ExprMeaning.InExprsMeaning` | WYChat/Pods/WCDBOptimizedSQLCipher/parse.c:3392-3446 | IN () as the constant 0 or 1, IN (x) as = or <>, and longer lists, negated or not, have the value of three-valued IN |
| `ExprMeaning.IsKeepsMeaning` | WYChat/Pods/WCDBOptimizedSQLCipher/parse.c:3338-3353 | IS and IS NOT against a NULL node, rewritten to ISNULL and NOTNULL, keep their value |
| `ExprMeaning.NullNodes` | WYChat/Pods/WCDBOptimizedSQLCipher/parse.c:178-190 | an operand whose node is TK_NULL always means null, parentheses included, so the rewriting is never applied wrongly |
| `ExprMeaning.AndKeepsMeaning` | WYChat/Pods/WCDBOptimizedSQLCipher/src/expr.c:882-904 | replacing a conjunction that has an operand known to be zero by the constant 0 keeps its three-valued value, even when the other operand is null |
| `ExprMeaning.IntegerValue` | WYChat/Pods/WCDBOptimizedSQLCipher/src/expr.c:1814-1843 | an expression recognised as a 32-bit integer constant evaluates to that integer |
| `ExprMeaning.WhensKeepMeaning` | WYChat/Pods/WCDBOptimizedSQLCipher/parse.c:3489-3519 | the flat list of a CASE, read in pairs, picks what the WHEN clauses pick in order, before whatever follows them |
| `ExprMeaning.CaseListRecoverable` | WYChat/Pods/WCDBOptimizedSQLCipher/parse.c:3489-3519 | the flat list determines the WHEN/THEN pairs, and its odd last entry is the ELSE, present exactly when the length is odd |
| `ExprSpans.SpanIsExact` | WYChat/Pods/WCDBOptimizedSQLCipher/parse.c:112-205 | every built span starts with the first byte of the first token; it ends with the last byte of the last token if and only if the expression does not end in the arguments of IN table(...), and before it otherwise |
| `ExprSpans.SpanContainsOperands` | WYChat/Pods/WCDBOptimizedSQLCipher/parse.c:3135-3503 | the span of every expression contains the spans of its operands (for IN table(...), of its left operand) |
| `ExprSpans.ArgumentsAreOutside` | WYChat/Pods/WCDBOptimizedSQLCipher/parse.c:3466-3476 | the arguments of IN table(...) begin after the recorded span has ended |
| `ExprSpans.TableArgumentsAreOutside` | WYChat/Pods/WCDBOptimizedSQLCipher/parse.c:3466-3476 | a concrete IN table(...) whose span stops before the arguments |
| `ExprBuild.NotBitRoundTrip` | WYChat/Pods/WCDBOptimizedSQLCipher/parse.c:3292-3302 | the NOT flag and the length packed into `Token.n` are both recovered if and only if the length is below 2^31 |
| `ExprBuild.LikeTokenExact` | WYChat/Pods/WCDBOptimizedSQLCipher/parse.c:3292-3327 | a LIKE rule builds the call as written, negated as written, if and only if the length of its token is below 2^31 |
| `ExprBuild.SpanSet` | WYChat/Pods/WCDBOptimizedSQLCipher/parse.c:112-115 | sets both ends of a span from two tokens, also when the output slot is the slot of the start token |
| `ExprBuild.SpanUnaryPrefix` | WYChat/Pods/WCDBOptimizedSQLCipher/parse.c:192-205 | builds the prefix node and its span in the very slot that holds the operator token |
| `ExprBuild.BinaryToUnaryIfNull` | WYChat/Pods/WCDBOptimizedSQLCipher/parse.c:178-190 | turns the node into the unary form and drops its right operand exactly when the other expression is a NULL node |
| `ExprBuild.ReduceLike` | WYChat/Pods/WCDBOptimizedSQLCipher/parse.c:3297-3311 | in place: arguments swapped, flag split off the token, the call wrapped in NOT when flagged, span from the left operand to the right one |
| `ExprBuild.ReduceCall` | WYChat/Pods/WCDBOptimizedSQLCipher/parse.c:3227-3241 | the call is built aside and copied over the slot of the name it was built from, with its DISTINCT mark and the span from the name to the closing parenthesis |
| `ExprBuild.ReduceDottedTwice` | WYChat/Pods/WCDBOptimizedSQLCipher/parse.c:3163-3174 | the names are read before the span overwrites the first of them; the node nests to the right |
| `ExprBuild.ReduceInTable` | WYChat/Pods/WCDBOptimizedSQLCipher/parse.c:3466-3478 | in place: the subselect from the table, wrapped in NOT when negated, with the span ending at the last part of the table's name |
| `ExprBuild.Build` | WYChat/Pods/WCDBOptimizedSQLCipher/parse.c:3135-3525 | reducing an expression bottom-up in union slots that overwrite each other leaves exactly the lowered tree and its span in the output slot |
| `ExprBuild.Expression` | WYChat/Pods/WCDBOptimizedSQLCipher/parse.c:3135-3525 | what the output slot finally holds means what was written in every environment, is in normal form, a literal being a node with the operation code of its token, and its span is exact unless the expression ends in IN table(...) arguments |
| `TriggerSteps.AppendStep` | WYChat/Pods/WCDBOptimizedSQLCipher/parse.c:3676-3683 | the constant-time append through `pLast` refines appending to the list read through `pNext`, and leaves all other links alone |
| `TriggerSteps.TriggerBody` | WYChat/Pods/WCDBOptimizedSQLCipher/parse.c:3676-3690 | after any number of steps the heap list is the steps in source order and the head's `pLast` is its final node |
| `TriggerSteps.OneReading` | WYChat/Pods/WCDBOptimizedSQLCipher/src/trigger.c:690 | the heap determines the list: reading it through `pNext` gives one sequence of nodes |
| `TriggerSteps.LastHasNoSuccessor` | WYChat/Pods/WCDBOptimizedSQLCipher/parse.c:3676-3690 | the head's `pLast` is the one step without a successor |
| `TriggerSteps.Walk` | WYChat/Pods/WCDBOptimizedSQLCipher/src/trigger.c:690 | following `pNext` from the head visits the commands in source order and stops after the last |
| `Refargs.ReduceRefargs` | WYChat/Pods/WCDBOptimizedSQLCipher/parse.c:2527-2581 | for every list of clauses, the low byte read back is the action of the last ON DELETE clause, the next byte that of the last ON UPDATE clause, NO ACTION where there is none, and nothing else is stored |
| `Refargs.CodesAreRead` | WYChat/Pods/WCDBOptimizedSQLCipher/src/pragma.c:241-253 | the reader of a stored action understands each of the five codes that the parser writes |
| `Refargs.PackedReadsBack` | WYChat/Pods/WCDBOptimizedSQLCipher/src/build.c:2693-2694 | two action codes packed into one integer are read back if and only if each is below 256 |
| `Refargs.MatchAndInsertAreIgnored` | WYChat/Pods/WCDBOptimizedSQLCipher/parse.c:2537-2547 | leaving out all MATCH and ON INSERT clauses changes neither action |

## Left out

- The literal action tables and the 332 rules: the driver is proved for all tables that satisfy `Certified`. That
  the generated tables satisfy it is not part of this model.
- Completeness of the parser (every sentence is accepted): a property of the table generator.
- Out-of-memory branches, tracing, assertions that only print, SELECTTRACE naming, the stack-depth statistics and
  `yyGrowStack`, which is compiled out at a depth of 100.
- Error recovery with an ERROR symbol, which the build disables, and the destructor call for a rejected token,
  which has none.
- LrParser.YyParser.YyShift: the token that does not fit on a full stack is discarded, and is not counted as shifted.
- LrParser.YyParser.YyReduce: the switch over the rules is one action that combines the values of the right-hand
  side; the actions with logic of their own are modelled in their own files.
- SelectBuild.Parse.SelectStatement: a plain SELECT is given by its result rows; WITH, ORDER BY and LIMIT are not
  modelled, and the rows of set operations are kept in order of first appearance, although SQL leaves the order open.
- ExprMeaning.LowerKeepsMeaning: the theorem is about values only. The zero short-cut of AND and IN () delete an
  operand together with what it would do besides having a value: a RAISE in it no longer fires, and an aggregate call in
  it no longer makes the query an aggregate query. `sqlite3PExpr` is taken with no earlier error in the parse (with one, the
  conjunction is built without looking for zeros, and the statement is abandoned). Affinity, and collation in comparisons,
  with the flags EP_Generic and EP_Collate, are not modelled; numbers are exact; operators other than
  those of three-valued logic, names, functions, casts, COLLATE, row values and subqueries are parameters of the
  environment.
- ExprBuild.Build: Expr nodes are values, so updating a node in place is updating the one reference to it; nothing
  else refers to it at that time. The precondition on LIKE tokens holds for all tokens the keyword lookup makes
  (`KeywordCode.LikeTokensAreShort`). The limit on function arguments, which only reports an error, and `#N` registers of nested parses are not modelled.
- ExprMeaning.InExprsMeaning: affinity and collation of the comparison, which EP_Generic and EP_Collate control, are
  not modelled.
- `sqlite3ExprListAppend`, `sqlite3SelectNew` and `sqlite3ExprFunction` are plain constructors; height limits and
  the code generator behind them are not modelled.
- The EBCDIC variant of the keyword lookup.
- `opcodes.c`, `opcodes.h`, `parse.h`, `sqlite3.h` and `fts5.h` hold constants and declarations; the Objective-C
  headers of the application hold no bodies.
