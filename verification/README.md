# aholyc: models and proofs

aholyc compiles HolyC to C, LLVM IR and JavaScript. This project models the passes in
which structured source becomes something flatter, its class layout and formatter, and the
fixed-buffer allocators of its library, and proves what they promise for all inputs and all
runs.

* **Exceptions** (`ExceptionAst`, `Effects`, `EffectBounds`, `SourceSemantics`, `TryFrames`,
  `TryDepth`, `TryLowering`, `TargetSemantics`, `TryCorrectness`, `TryTheorems`, `TryLimit`,
  `TryLabels`). A fixed point over the whole program decides which functions can throw: those
  that a run can throw from are flagged, and the flagged ones are those with a chain of calls
  to a throw. Then each `try` becomes nothing, a
  branch, or a setjmp frame (section 7.13 of ISO/IEC 9899:1999). The source semantics puts a
  handler at every `try`; the target is C-like code with labels and the runtime's frame
  stack. The two end alike, until a run holds more dynamic tries at once than the runtime has
  room for; `TryDepth` counts them on the source. The native backends pop their frames before the operand of a
  `return`; `PopFirst` is that order, `Direct` the order of the JavaScript backend.
* **Switch** (`SwitchLowering`, `SwitchLabels`, `SwitchCorrectness`, `SwitchDefault`,
  `SwitchRuns`). The dispatch chain, the sub_switch porches and their selectors, against a walk
  over the items; for one run, and for all runs of a call; and the labels they take.
* **The pc machine** (`JsControl`, `JsBlocks`, `JsTerminators`, `JsMachine`, `JsSimulation`,
  `JsLabels`, `JsRuns`, `JsEmitter`). A function with goto as a `switch (pc)` over blocks,
  against statements under a continuation.
* **LLVM code** (`LlCode`, `LlBlocks`, `LlLabels`, `LlMachine`, `LlValues`, `LlKonts`, `LlPlaces`,
  `LlRuns`, `LlEmitter`). Statements become lines: labels, instructions on registers, branches.
  The lines are closed basic blocks, and running them ends as the statements do under a
  continuation. `LlGen` is the emitter, proved to write those lines.
* **Preprocessor** (`ConstExpr`, `PpEvaluator`, `ParserLadder`, `Precedence`, `Macros`,
  `Conditionals`). The `#if` evaluator against trees and a printer, its agreement with the
  parser's own ladder and `eval_const`, the grouping and the values of all operators, macro
  rescanning, and conditional directives in one flat pass.
* **Allocators** (`Alignment`, `PoolBlocks`, `PoolAllocator`, `Pools`, `BumpAllocators`).
  The pool's free list inside the blocks, byte by byte, over all calls and client writes;
  the linear and the stack allocator, with the blocks their clients hold.
* **Layout and runtime parts** (`ClassLayout`, `RtChunks`). Offsets of class members, and the
  parts of the JavaScript runtime a program needs.
* **Formatter** (`Formatter`, `FmtScanner`, `FmtLevels`, `FmtHeaders`, `FmtIdempotence`). What
  formatting leaves alone, for any scanner; the scanner of the source, and how far it indents
  nested code; and exactly when formatting twice is formatting once. `Basics` holds what
  several modules share.

Emission is modelled as lists of instructions, labels and blocks, not as text. A class and
its methods follow a part of the source that updates state in place; each method is proved
against a function or a predicate on values, and the lemmas are about those.

Where the code does less than one would expect, the exact limit is proved:

* a `return` operand that throws inside a `try` skips the handler (`TryFaithfulIff`,
  `ReturnInTryFaithfulIff`, `ReturnOperandSkipsCatch`);
* the 257th dynamic try of a run stops the program (`LoweringPreservesMeaning`, `TriesRunOut`);
* a `default` before the first case of its group runs with the selector of the last time: the
  first run in a call is faithful, a later one need not be (`FirstRunHarmless`,
  `PorchDefaultFaithfulIff`, `CallsFaithfulIff`, `SecondRunFails`);
* a second `#else` makes its text live again and uses up the level, if the condition is true
  (`SecondElseHarmlessIff`), and a missing `#endif` is not noticed (`Unterminated`);
* macros that reach each other in a cycle are rescanned for ever (`RunsOnIff`, `LineEndsIff`,
  `CycleRunsOn`);
* `#if` and `eval_const` differ on shift counts, chained comparisons and logical operators
  (`LaddersAgree`, `LogicalDiffers`, `ChainDiffers`, `FarShiftDiffers`);
* releasing a pool block twice closes the free list to a circle, unless all blocks are free
  (`ReleaseKeepsIff`, `DoubleRelease`, `Pool.Free`, `Pool.FreeTwice`);
* allocating stack blocks and freeing them in reverse order gives everything back exactly if no
  block that fits needs padding where it lands (`StackAllocator.UseAsStack`, `LifoEndsAt`,
  `StackAllocator.ByteAndWord`);
* with brace moving on, formatting twice changes the text when a split header leaves something
  open before its brace (`FmtTwiceIff`, `KeptPlainly`, `TwoBracesChange`).

`doc/language.md` says that `break` inside a group jumps to `end:`; so does the code. It also
says that the porch runs before every grouped case, and does not mention the jump of
`default` into a porch, which the code makes without setting the selector.

## Model

| member | source | states |
|---|---|---|
| Effects.ExprEffectMonotone | src/effects.c:40-59 | more `can_throw` flags never remove an effect of an expression |
| Effects.EffectMonotone | src/effects.c:32-59 | the same for statements, try blocks included |
| Effects.FlagsIgnoreOrder | src/effects.c:61-80 | programs with the same functions in any order get the same flags and the same mode for every try |
| Effects.ExceptionAnalysis.Initialize | src/effects.c:62-64 | start flags: below every closed set, and all externs that may throw are in |
| Effects.ExceptionAnalysis.Sweep | src/effects.c:66-72 | one sweep grows the flags strictly or finds them closed, and stays below every closed set |
| Effects.ExceptionAnalysis.Effect | src/effects.c:40-59 | the effect of a statement, and on the way the modes of its tries |
| Effects.ExceptionAnalysis.AssignModes | src/effects.c:74-79 | the last pass: the modes of every function under the final flags, and whether the startup code throws |
| Effects.ExceptionAnalysis.Analyze | src/effects.c:61-80 | the do-while loop ends, with the least closed set of flags, and modes and startup flag are those of that set |
| EffectBounds.ExprEffectIff | src/effects.c:54-56 | an expression may raise exactly if one of its calls goes to `throw`, to a pointer or to a flagged function |
| EffectBounds.StmtEffectIff | src/effects.c:40-59 | both bits of a statement: it throws by a statement of its own, or it has such a call, where a try holds back what its body raises |
| EffectBounds.ModeIff | src/effects.c:47-51 | a try gets no handler exactly if its body neither throws nor has such a call, a branch exactly if it throws and has none, and a frame exactly if it has one |
| EffectBounds.AnyIff | src/effects.c:40-59 | a statement has an effect exactly if one of the calls it can reach may raise, handlers that never run apart |
| EffectBounds.FlaggedIff | src/effects.c:61-80 | a function of the program is flagged exactly if a finite chain of direct calls leads from it to a `throw`, a call through a pointer or a throwing extern |
| SourceSemantics.ExprThrowsOnlyIfFlagged | src/effects.c:40-59 | an expression without effects raises nothing in any run |
| SourceSemantics.CallThrowsOnlyIfFlagged | src/effects.c:61-80 | no run of a function with a clear flag lets an exception escape, through any recursion and any function pointer |
| SourceSemantics.StmtThrowsOnlyIfFlagged | src/effects.c:47-51 | a statement without effects, so also the body of a try that gets no handler, never throws |
| TryFrames.Runtime.TryPush | runtime/rt.c:85-91 | pushes exactly when fewer than 256 frames are active, and leaves the others |
| TryFrames.Runtime.TryPop | runtime/rt.c:93-95 | removes the top frame only |
| TryFrames.Runtime.Throw | runtime/rt.c:124-139 | records the exception as not caught, and resumes at the top frame after removing it, if there is one |
| TryLowering.LowerFailsIffTooDeep | src/back_c.c:635-640 | lowering fails exactly when more than 256 handlers are nested in the source |
| TryLowering.CGen.EmitStmt | src/back_c.c:676-809 | the emitter's code is the specified lowering, and its handler stack and depth are restored |
| TryLowering.CGen.EmitLocalTry | src/back_c.c:773-791 | the branch form of try |
| TryLowering.CGen.EmitDynamicTry | src/back_c.c:792-809 | the setjmp form of try |
| TryLowering.CGen.EmitFunction | src/back_c.c:838-860 | whole functions: fails exactly when nested too deep |
| TryCorrectness.ExprSim | src/back_c.c:645-663 | expressions end alike in source and lowered code, frames unchanged, and a throw resumes at the innermost active handler; the machine stops for too many tries exactly when the run of the source exceeds their number |
| TryCorrectness.StmtSim | src/back_c.c:676-809 | every statement under any handlers: same outcome and data; normal exits keep the frames of the statement's entry, a return leaves those of the function's entry, an exception goes to the nearest handler; too many tries exactly when the source exceeds them |
| TryCorrectness.LocalTrySim | src/back_c.c:773-791 | a try by branch acts as a handler at that try |
| TryCorrectness.DynamicTrySim | src/back_c.c:792-809 | a try by frame acts as a handler; at catch entry the frames are those before the push |
| TryTheorems.LoweringPreservesMeaning | src/back_c.c:642-674 | for every program and run the C code stops for too many tries exactly when the run of the source enters a dynamic try inside 256 active ones; otherwise it ends with the value, globals or uncaught exception of the source, in the order that pops frames before a return operand; no frame is left |
| TryTheorems.LoweringMatchesDirect | src/back_js.c:568-586 | the same against the order of the JavaScript backend, for programs whose return operands inside try cannot throw |
| TryTheorems.StmtOrders | src/back_c.c:738-747 | the two orders agree on all statements with such operands |
| TryTheorems.TryFaithfulIff | src/back_c.c:738-747 | a try is faithful for every handler exactly when the run of its body, tries inside it included, reaches no return operand that raises |
| TryTheorems.ReturnInTryFaithfulIff | src/back_c.c:738-747 | so for a return directly inside a try, exactly when its operand raises nothing |
| TryTheorems.ReturnOperandSkipsCatch | src/back_c.c:738-747 | a program on which the handler is skipped |
| TryLimit.TriesRunOut | runtime/rt.c:85-91 | a program that recurses inside a try: compiled, it stops for too many tries |
| TryLabels.LoweredIsTidy | src/back_c.c:774-787 | the labels of lowered code are new, and its branches stay inside it or go to the nearest outer handler |
| TryLabels.FunctionLabels | src/back_c.c:838-860 | in a function every label is defined once and every branch has its label |
| SwitchLowering.SwitchParser.FirstPass | src/parse.c:1949-2046 | cases, groups and statement chain are those of the specified scan; fails exactly on unbalanced or more than 64 groups |
| SwitchLowering.SwitchParser.BuildDispatch | src/parse.c:2061-2093 | the chain of tests, with the running index of each grouped case |
| SwitchLowering.SwitchStmt | src/parse.c:1924-2131 | the whole lowering; a parse error exactly on badly nested groups; behind it the parser's counter has passed one label for the end, one for each case or default, two for each group and those the statements took |
| SwitchLabels.AcceptedIff | src/parse.c:2004-2046 | accepted are exactly the bodies with each `start:` outside a group and fewer than 64 before it, each `end:` inside one, and none open at the end |
| SwitchLabels.LabelsDefined | src/parse.c:1949-2131 | the labels of the block are its end and those of its items, each with a number counted from the items alone |
| SwitchLabels.StatementsKeepTheirs | src/parse.c:248-250 | none of them has a number that a statement of the body took |
| SwitchLabels.NumberedOnce | src/parse.c:248-250 | no two of them have the same number |
| SwitchLowering.SpliceMatches | src/parse.c:2097-2123 | the splice puts the selectors of group g at the anchor of group g |
| SwitchCorrectness.RunDispatch | src/parse.c:2061-2094 | the chain enters the first case in source order whose range holds the value, through its porch when grouped |
| SwitchCorrectness.RunSelectors | src/parse.c:2102-2116 | the selectors jump to the chosen case, or fall into the first |
| SwitchCorrectness.WalkSim | src/parse.c:1949-2039 | from any item on, the emitted nodes do what the items say, breaks and groups included |
| SwitchCorrectness.SwitchMeaning | src/parse.c:1924-2131 | for every accepted switch, value, start state and behaviour of its statements the block ends as the switch means |
| SwitchDefault.SwitchFaithful | src/parse.c:2055-2094 | without a default before the first case of its group the old selector does not matter |
| SwitchDefault.PorchDefaultFaithfulIff | src/parse.c:2055-2094 | with one, a value no case covers is handled faithfully, whatever the statements do, exactly when nothing stands between the first case and the one the stale selector picks |
| SwitchDefault.FirstRunHarmless | src/parse.c:2055-2094 | a fresh selector is harmless, so the first run of a switch in a call is always faithful |
| SwitchDefault.SelectorValues | src/parse.c:2061-2094 | a run leaves the old selector, -1 or the number of a case in its group |
| SwitchDefault.SelectorAfterCase | src/parse.c:2077-2086 | a run that chose a case of the last group leaves the number of that case |
| SwitchDefault.SecondRunFails | src/parse.c:2055-2094 | a switch run with 2 and then with 9: the second run skips the first statement |
| SwitchRuns.RunLeaves | src/parse.c:2061-2116 | a run that chose a case of a group leaves its number or -1, and -1 for certain if a group starts before any statement; any other run leaves the old value or -1 |
| SwitchRuns.CallsFaithfulIff | src/parse.c:2055-2116 | all runs of every sequence of runs in one call are faithful, whatever the statements do, exactly when the number of each case that some value chooses and whose run can leave it is harmless |
| JsBlocks.EmitGrows | src/back_js.c:597-726 | emission changes no ended block, and only the current block, the label blocks it places and new ones |
| JsTerminators.EveryBlockEnds | src/back_js.c:810-817 | in a function whose gotos have labels every block is straight code and exactly one terminator, so no case falls through |
| JsLabels.LabelMatch | src/back_js.c:66-78 | the block of a label runs what a goto to it continues with in the source, inside loops and branches too |
| JsLabels.FoundIff | src/back_js.c:714-725 | a goto finds its target exactly among the labels defined |
| JsRuns.StepSim | src/back_js.c:597-726 | one source step is matched by instructions that reach the matching place in the same state |
| JsRuns.MachineMeaning | src/back_js.c:730-821 | for every body with distinct labels and defined targets the blocks, run from block 0, end with a value and a state exactly when the structured program does |
| JsEmitter.EmitFits | src/back_js.c:40-78 | what fits the tables was made from what fits |
| JsEmitter.JsGen.NewBlock | src/back_js.c:40-47 | a fresh block, or failure exactly at 1024 |
| JsEmitter.JsGen.LabelBlock | src/back_js.c:66-78 | the block of a label, made at its first use; failure exactly when a table is full |
| JsEmitter.JsGen.EmitStmt | src/back_js.c:597-726 | succeeds exactly when the code fits, and then is the specified code |
| JsEmitter.JsGen.EmitFunc | src/back_js.c:744-757 | the same for a function body |
| LlBlocks.Blocks | src/back_ll.c:33-52 | lines that obey the discipline are blocks: a label, straight code, one terminator |
| LlLabels.StmtGrows | src/back_ll.c:871-1026 | the code of a statement keeps the discipline, places each of its named labels as often as the statement has it and numbered ones at most once, and branches to its gotos, to the handler in force where it throws, and else only to labels it places |
| LlLabels.FunctionBlocks | src/back_ll.c:1041-1106 | a function with distinct, defined labels: closed blocks only, exactly the named labels of the body, its gotos among the targets, no label twice, every target placed once |
| LlLabels.UsesForce | src/back_ll.c:842-869 | the handler in force matters only for what is thrown, or thrown further |
| LlValues.ValRuns | src/back_ll.c:580-606 | running the code of an expression, the short-circuit operators through their slot and three labels, puts its value in the operand, leaves the state of the source and keeps older registers |
| LlPlaces.LabelLands | src/back_ll.c:972-976 | the line of a label runs what a goto to it continues with in the source, inside loops, branches, tries and handlers too |
| LlRuns.StepSim | src/back_ll.c:871-1026 | one source step is matched by lines that reach the matching place in the same state |
| LlRuns.CodeMeaning | src/back_ll.c:871-1106 | for every body with distinct labels and defined gotos and every meaning of its operations the lines, run from the entry block, end with a value or an exception and a state exactly when the source does |
| LlEmitter.LlGen.EnsureBlock | src/back_ll.c:33-38 | opens a fresh block exactly when none is open |
| LlEmitter.LlGen.PlaceLabel | src/back_ll.c:46-52 | an open block branches into the label first |
| LlEmitter.LlGen.EmitShortcircuit | src/back_ll.c:580-606 | writes the lines that `ValRuns` is about |
| LlEmitter.LlGen.EmitCatchEnd | src/back_ll.c:842-869 | behind a handler: to the outer handler or to a rethrow if the exception was not caught, else on |
| LlEmitter.LlGen.EmitStmt | src/back_ll.c:871-1026 | writes the lines that `CodeMeaning` is about, and restores handlers and depth; fails exactly at the 257th nested handler |
| LlEmitter.LlGen.EmitFunc | src/back_ll.c:1041-1106 | the same for a whole function from its entry block, closed by a return |
| PpEvaluator.ReadInvertsPrint | src/lexpp.c:181-302 | reading the printed tokens of a tree gives the tree back and leaves any suffix that does not continue it |
| PpEvaluator.ReadSound | src/lexpp.c:181-302 | whatever is read was the printed form of a tree with the ladder's precedence, and the rest does not continue it |
| PpEvaluator.EvalIsValue | src/lexpp.c:181-302 | evaluating while reading gives the strict value of the tree, or its first error |
| PpEvaluator.PpCursor.PpPrim | src/lexpp.c:181-202 | parentheses, numbers and undefined names |
| PpEvaluator.PpCursor.PpUnary | src/lexpp.c:204-210 | prefix operators |
| PpEvaluator.PpCursor.PpLevel | src/lexpp.c:212-302 | each rung of the ladder, as a loop that advances the cursor |
| PpEvaluator.PpEvalLine | src/lexpp.c:333-353 | a line has a value exactly when it is the printed form of a tree with that value |
| ParserLadder.SameRead | src/parse.c:1432-1654 | on numbers and operators the parser builds the node that corresponds to the tree `#if` reads |
| ParserLadder.SameValue | src/parse.c:850-888 | `eval_const` has a value only on plain trees, and there the value of `#if` wherever that has one |
| ParserLadder.LaddersAgree | src/parse.c:850-888 | both ladders on any tokens: same value exactly when the tree is plain and all shift counts are in range |
| ParserLadder.LogicalDiffers | src/parse.c:850-888 | `1 && 1` and the like have a value in `#if` alone |
| ParserLadder.ChainDiffers | src/parse.c:1572-1603 | so has `3 > 2 > 1` |
| ParserLadder.FarShiftDiffers | src/lexpp.c:212-219 | `1 << 64` and larger counts have one in the parser alone |
| ParserLadder.PrintedAgree | src/lexpp.c:175-178 | on every literal tree printed with as few parentheses as possible |
| ParserLadder.Parser.UnaryExpr | src/parse.c:1432-1489 | prefix operators, minus folding into numbers |
| ParserLadder.Parser.Level | src/parse.c:1496-1650 | the rungs of the parser |
| ParserLadder.Parser.Relational | src/parse.c:1572-1603 | comparisons, swapped for > and >=, chained through a temporary |
| Precedence.TighterInside | src/lexpp.c:212-302 | for any two operators of different rungs, written out, and any operands: in `#if` the tighter one is inside, on either side |
| Precedence.SameRungLeft | src/lexpp.c:212-302 | operators of one rung group to the left |
| Precedence.ParserTighterInside | src/parse.c:1496-1650 | the parser's nodes for the same, comparisons swapped and logical operators included |
| Precedence.ParserSameRungLeft | src/parse.c:1496-1650 | the same for one rung |
| Precedence.ParserChains | src/parse.c:1572-1603 | two comparisons share their middle operand through a temporary |
| Precedence.PowerInside | src/parse.c:1496-1510 | the power operator is inside every operator but the shifts, its operands in order |
| Precedence.PowerGroupsLeft | src/parse.c:1496-1510 | with shifts and other powers it groups to the left |
| Precedence.Sums | src/lexpp.c:221-264 | sums, differences and products on numbers, where they fit |
| Precedence.Quotients | src/lexpp.c:221-237 | quotients rounded towards zero with their remainders; division by zero has no value |
| Precedence.Comparisons | src/lexpp.c:266-275 | the orders on numbers |
| Precedence.Equalities | src/lexpp.c:277-284 | `==` and `!=` |
| Precedence.Logicals | src/lexpp.c:286-302 | the logical operators, which use both operands |
| Precedence.Shifts | src/lexpp.c:212-219 | shifts by 0 to 63, rounding down to the right |
| Precedence.BitOperators | src/lexpp.c:239-255 | the bit operators, bit by bit |
| Precedence.Prefixes | src/lexpp.c:204-210 | the prefix operators |
| Precedence.NameIsZero | src/lexpp.c:195-199 | a name left in the line is worth 0 |
| Precedence.ParenthesesFirst | src/lexpp.c:181-190 | parentheses come first |
| Macros.NameReplaced | src/lexpp.c:588-617 | a macro's name becomes what its body becomes, with the name itself frozen in it |
| Macros.OtherStays | src/lexpp.c:588-617 | frozen names, names without macro and other tokens stay |
| Macros.SelfNamed | src/lexpp.c:608-610 | a macro whose body names only itself ends, with that name left in its place |
| Macros.ScanIsSubst | src/lexpp.c:588-617 | rescanning ends after exactly as many steps as the weight of the tokens, with the full substitution in order |
| Macros.EndsIff | src/lexpp.c:588-617 | rescanning ends exactly when expansion nests no deeper than there are macros |
| Macros.RunsOnIff | src/lexpp.c:608-610 | it runs on for ever exactly when a token is caught in a set of macros that each mention another of them |
| Macros.CycleRunsOn | src/lexpp.c:608-610 | `#define A B`, `#define B A`, and the token A |
| Macros.ExpandLine | src/lexpp.c:588-617 | the loop computes the substitution |
| Macros.BoundedLineEnds | src/lexpp.c:119-173 | the line of a directive is finished for every table of bounded depth, whatever its bodies ask |
| Macros.LineEndsIff | src/lexpp.c:119-173 | when questions end inside the bodies that ask them, the line of a directive is finished exactly when its names nest no deeper than there are macros, operands of `defined` and what follows an error apart |
| Macros.LineMeaning | src/lexpp.c:119-173 | when questions end inside the bodies that ask them, they are answered unexpanded, other names get the meaning of their bodies, and errors are those of the source |
| Macros.ResolveIsSubst | src/lexpp.c:119-173 | without questions that is the full substitution |
| Macros.OpenQuestion | src/lexpp.c:125-148 | a question that a body leaves open asks for the token behind it |
| Macros.QuestionStep | src/lexpp.c:123-146 | `defined X` and `defined(X)`, the tokens written out, become 1 if X is in the table and 0 otherwise |
| Macros.NoQuestionStep | src/lexpp.c:129-141 | any other `defined` is an error |
| Macros.QuestionAnywhere | src/lexpp.c:125-148 | the same at any place of a line |
| Macros.PpExpand | src/lexpp.c:119-173 | the loop takes those steps; the lines `defined X` and `defined(X)` give 1 or 0 |
| Conditionals.SkipTree | src/lexpp.c:305-328 | skipping passes over a whole nested conditional at any depth |
| Conditionals.ScanIsMeaning | src/lexpp.c:403-540 | a well-nested file gives the texts and macro changes of its live branches, in order, and depth 0, or the error of a live condition |
| Conditionals.SecondElse | src/lexpp.c:523-531 | what a second `#else` does, for every value of the condition |
| Conditionals.SecondElseHarmlessIff | src/lexpp.c:523-531 | it is as good as absent exactly when the condition is false or in error, or the live branch before it is |
| Conditionals.Unterminated | src/lexpp.c:305-328 | a conditional without `#endif` is no error: a live one counts as text, another swallows the rest |
| Conditionals.Preprocessor.SkipCond | src/lexpp.c:305-328 | the skip loop |
| Conditionals.Preprocessor.Preprocess | src/lexpp.c:403-540 | the flat loop |
| Alignment.ValidPower | lib/alloc/alloc.hc:18-21 | the alignment test accepts only powers of two |
| Alignment.PowerValid | lib/alloc/alloc.hc:18-21 | and all of them |
| Alignment.Padding | lib/alloc/pool.hc:129-132 | the padding by masks reaches the next multiple |
| Alignment.OperatorsAgree | lib/alloc/pool.hc:55-56 | quotients and remainders by repeated sums are those of the operators |
| PoolBlocks.LoadStore | lib/alloc/pool.hc:5-8 | a word stored in a block reads back |
| PoolAllocator.BlockGeometry | lib/alloc/pool.hc:135-140 | blocks are aligned, inside the buffer and disjoint |
| PoolAllocator.LookupIs | lib/alloc/pool.hc:82-91 | the tests on an address find exactly the block that starts there |
| PoolAllocator.PushChain | lib/alloc/pool.hc:92-95 | storing the old head into a block puts it in front of the list in memory |
| PoolAllocator.ChainApart | lib/alloc/pool.hc:10-11 | a change inside a block that is not listed leaves the list |
| PoolAllocator.TakePartition | lib/alloc/pool.hc:43-46 | taking the first block keeps the books |
| PoolAllocator.LinkedTwice | lib/alloc/pool.hc:92-95 | linking a free block closes the list in memory to a circle that no books fit |
| PoolAllocator.ReleaseKeepsIff | lib/alloc/pool.hc:92-95 | after a release some books fit the list in memory exactly when the block was held |
| PoolAllocator.DoubleRelease | lib/alloc/pool.hc:92-95 | two blocks, one held: releasing the other again links it to itself |
| Pools.Pool.Init | lib/alloc/pool.hc:116-153 | succeeds exactly when a padded block fits, with as many blocks as fit, all free |
| Pools.Pool.Reset | lib/alloc/pool.hc:99-114 | all blocks free, in order of address |
| Pools.Pool.Realloc | lib/alloc/pool.hc:25-69 | allocation, resizing and release at any address: exact results and refusals; the list stays acyclic with the available blocks, disjoint from the live ones and together with them all blocks, except when a free block is released while others are held; contents of live blocks unchanged |
| Pools.Pool.Free | lib/alloc/pool.hc:71-97 | at any address: the books are kept exactly when the request is refused (no block there, bad size or alignment, or all blocks free) or the block is held |
| Pools.Pool.FreeTwice | lib/alloc/pool.hc:71-97 | freeing a held block twice is harmless exactly when it was the last one held |
| Pools.Pool.ClientWrites | lib/alloc/pool.hc:10-11 | a client's write into its block disturbs neither the list nor other blocks |
| BumpAllocators.FindPlace | lib/alloc/linear.hc:58-68 | finds the first aligned place behind the mark, exactly when a block fits in the rest of the buffer |
| BumpAllocators.BooksAdd | lib/alloc/linear.hc:67-69 | a block placed there is new, and all blocks stay aligned, apart and below the mark |
| BumpAllocators.LinearAllocator.Realloc | lib/alloc/linear.hc:16-73 | granted exactly when it can be: in place for the last block and for a block that does not grow, else moved with its bytes; refused requests change nothing, bytes below the mark never change |
| BumpAllocators.LinearAllocator.Rewind | lib/alloc/linear.hc:95-102 | accepts exactly the marks up to the present one, and keeps the blocks that end below |
| BumpAllocators.StackAllocator.Realloc | lib/alloc/stack.HC:16-71 | a new block goes on top; only the block on top is resized or released; anything else is refused and changes nothing |
| BumpAllocators.StackAllocator.Free | lib/alloc/stack.HC:73-95 | releases exactly the block on top, back to its start |
| BumpAllocators.StackAllocator.Request | lib/alloc/stack.HC:31-43 | granted exactly when the block fits where it lands, and then it is there |
| BumpAllocators.StackAllocator.UseAsStack | lib/alloc/stack.HC:73-95 | allocating blocks, whatever is refused, and freeing them in reverse order: the mark is where `PushPop` ends on the blocks that fit and their paddings, which is the old mark exactly when none of these was padded; no other block is lost |
| BumpAllocators.StackAllocator.ByteAndWord | lib/alloc/stack.HC:73-95 | sizes 1 and 8 with alignments 1 and 8 in an empty aligned buffer: eight bytes stay in use |
| BumpAllocators.LifoGivesBackIff | lib/alloc/stack.HC:91-94 | for any blocks and paddings `PushPop` ends at the old mark exactly when none was padded |
| BumpAllocators.LifoEndsAt | lib/alloc/stack.HC:91-94 | otherwise at the start of the last padded block |
| BumpAllocators.LifoStops | lib/alloc/stack.HC:91-94 | once a later block was padded, freeing the earlier one has no effect |
| BumpAllocators.LifoKeepsPadding | lib/alloc/stack.HC:91-94 | the granted blocks of the requests for 1 and 8 bytes, and where the mark ends |
| ClassLayout.AlignUp | src/parse.c:345-347 | the mask form gives the next multiple of a power of two, and leaves a multiple alone |
| ClassLayout.PlacedInOrder | src/parse.c:2549-2657 | members never overlap each other or the parent |
| ClassLayout.PlacedAligned | src/parse.c:2624-2633 | every member lies at a multiple of the alignment its hint, or the hint for all, asks for |
| ClassLayout.LayoutHolds | src/parse.c:2549-2662 | both together; with hints the size is a multiple of the class alignment, which is a power of two no smaller than any asked for |
| ClassLayout.ArrayAligned | src/parse.c:2661-2662 | so members of array elements are aligned as they ask |
| ClassLayout.PackedOffsets | src/parse.c:2544-2546 | without hints each member lies exactly behind the ones before |
| ClassLayout.PaddingLeast | src/parse.c:2624-2660 | no more padding than needed: each member starts at the first place behind the one before that suits it, the size is the first multiple behind the last, and the class alignment is the parent's or one that a member asks for |
| ClassLayout.NaturalMost | src/parse.c:2643-2659 | without hints the class has the largest alignment of its parent and its members |
| ClassLayout.ParseClass | src/parse.c:2549-2662 | the loop computes that layout |
| RtChunks.JsRuntime.MarkChunk | src/back_js.c:120-135 | ends on every graph, cycles included; marks the chunk with all it depends on, and nothing a closed set can do without |
| RtChunks.JsRuntime.Request | src/back_js.c:137-143 | any sequence of requests marks the smallest closed set that has them, with the names used without exceptions |
| RtChunks.NeededOnce | src/back_js.c:120-143 | that set does not depend on order or repetition |
| RtChunks.WithExceptions | src/back_js.c:120-143 | with exceptions every requested or needed name marks the chunk of that name, if there is one |
| RtChunks.WithoutExceptions | src/back_js.c:121-123 | without them `hcThrow` marks the chunk `hcCrashFn`, and no chunk `hcThrow` is ever marked |
| Formatter.FmtKeepsText | src/fmt.c:337-488 | for every input and option only whitespace changes |
| Formatter.FmtTwice | src/fmt.c:337-488 | with brace moving off, formatting the output again returns it, whatever the scanner |
| FmtScanner.ScanTheLine | src/fmt.c:145-251 | the loop over a line gives the state that its tokens give |
| FmtScanner.FindBrace | src/fmt.c:273-319 | the loop of the search gives the last brace and what surrounds it |
| FmtLevels.NestedLevels | src/fmt.c:381-490 | nested code comes out with each statement one level in for every brace, switch and pending header around it and for going on, whatever its indentation was |
| FmtHeaders.SplitFacts | src/fmt.c:256-329 | where a brace is split off nothing is open, and the line is code up to it |
| FmtHeaders.HeaderThenBrace | src/fmt.c:145-251 | scanning the line is scanning the header and then the brace alone |
| FmtIdempotence.FmtTwiceIff | src/fmt.c:337-488 | with brace moving on, formatting the output again returns it exactly when every split header leaves no block open and both its lines get the level of the line |
| FmtIdempotence.KeptPlainly | src/fmt.c:386-417 | unless a statement goes on from the line before, that is: no brace, no parenthesis and no carriage return is left before the brace |
| FmtIdempotence.TwoBracesChange | src/fmt.c:307-326 | `a() { {` is formatted differently the second time |
| Formatter.FmtRun | src/fmt.c:337-488 | the loop computes the specified output, for the scanner of the source too |
| Formatter.WsEqual | src/fmt.c:491-504 | true exactly when the texts agree without whitespace |
| Formatter.Checked | src/fmt.c:553-558 | the refusal to write cannot happen |

## Left out

- TryTheorems.LoweringPreservesMeaning: both sides are bounded by the same fuel for calls and loop turns; goto, and a break out of a try, are excluded (doc/language.md calls leaving a try so undefined), and loops are `while` only.
- TryTheorems.LoweringPreservesMeaning: locals keep their values across longjmp; their indeterminate values (7.13.2.1 of ISO/IEC 9899:1999) are not modelled.
- TryLowering.CGen.EmitStmt: the `do`, `for`, `goto`, label and `asm` cases of the cited lines are not modelled.
- TryLowering.CGen.EmitFunction: local declarations and the final `return 0` are not emitted.
- SwitchCorrectness.SwitchMeaning: case bounds are unbounded integers; the 64-bit wrap of a caseless case after the largest value is not modelled, and statements may break, leave or fall through but not jump back in.
- JsRuns.MachineMeaning: expressions are opaque actions on a state; the restored frame pointer and a try without exceptions in the pc machine are not modelled; labels are assumed distinct, which the parser does not enforce.
- LlRuns.CodeMeaning: operations do not raise, so calls that throw are not modelled; where an exception goes to the runtime the run ends, and coming back to a frame is a push that gives 0. Labels are assumed distinct and gotos defined.
- LlEmitter.LlGen.EmitStmt: an instruction stands for one or more, types and addresses are not modelled, and an operation of the source is one instruction on its operands.
- LlEmitter.LlGen.EmitFunc: an inline assembly block is one operation; parameters and local variables are not emitted; a return in a function without value has no operand, which the parser sees to.
- JsEmitter.JsGen.EmitStmt: a try without exceptions and the text for the frame pointer are not modelled, nor is the frame layout in `EmitFunc`.
- PpEvaluator.PpEvalLine: the tokens of the line are given, with their macros expanded.
- ParserLadder.Parser.UnaryExpr: dereference, address and increment prefixes are not modelled.
- ParserLadder.LaddersAgree: names, floating point, casts, calls, subscripts and member access in the parser's expressions are outside; arithmetic overflow has no value on either side.
- PpEvaluator.EvalIsValue: which of two errors is reported is exact only when the whole line can be read.
- Macros.LineMeaning: where a body leaves a question open, the meaning is that of the steps (`LineSteps`) alone, and bounded depth is enough for an end (`BoundedLineEnds`) but not necessary.
- Macros.ExpandLine: the table is fixed during a scan, and the location names (`__LINE__` and the like) are ordinary tokens.
- Conditionals.ScanIsMeaning: `#include`, `#exe`, `#assert` and the other directives are not items, here and in `Preprocess`; a text stands for tokens up to the next directive. At the end of the input the source leaves its #else flag unset, the model takes it as false; only a depth that nobody reads depends on it.
- Pools.Pool.Realloc: the null pool and its damaged fields are not modelled, nor are calls after a release that broke the books.
- The structured path of the JavaScript backend (`native_stmt`), which is the meaning the other backends are compared with.
- Expression code of the backends, register and temporary names, the text of the output.
- BumpAllocators.StackAllocator.Realloc: clients pass a block they hold with its size, or what is no block at all, here and in `Free`.
- BumpAllocators.LinearAllocator.Realloc: clients pass a block they hold with its size, or what is no block at all; the null object and its damaged fields are not modelled, nor are the arena and the default heap.
- ClassLayout.ParseClass: unions, `$$` moves and overflow of 32-bit offsets are not modelled.
- ClassLayout.PlacedInOrder: sizes are not negative. The parser accepts a negative array length (src/parse.c:53-55, 2614-2616), and a member of negative size moves the next one back: in `I64 a; U8 b[-8]; I64 c;` the member c lies on a.
- RtChunks.JsRuntime.Request: the chunk table is given; how it is read from the runtime text is not modelled.
- FmtLevels.NestedLevels: parentheses close on their line, closing braces stand alone, `asm` and initializers are not among the lines, and brace moving is off.
- FmtIdempotence.FmtTwiceIff: behind a split header whose first word is `asm` the condition is that the rest comes out alike from both states; texts hold no NUL.
- The tokenizer, the driver, inline assembly, floating point and printing.
