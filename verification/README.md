# Saphyr: a verified model

Saphyr is a compiler front end for a C-like language.  This project models its logic in Dafny and proves
what that logic is for.  LLVM appears only as what it is to the front end: a container of blocks,
instructions and types.

The project has four parts.

**Lowering and clean-up.**  `Source` is the structured language with its semantics: a run evaluates
expressions against a `World` that answers reads and calls, and leaves a trace of events.  `Cfg` is the
control-flow graph with a small-step machine.  `CodeContexts.CodeContext` is the mutable context that emits
blocks, with the scope table and the three stacks of jump targets; the visitors of `CgnExpressions` and
`CgnStatements` emit into it.  Each visitor is proved to report an error exactly when its input is invalid, and
otherwise to leave code that `Layout` describes, in a state that stays well formed (`Emission.Sound`: one
open block, every other placed block terminated, every phi in agreement with the branches to its block).
`Expressions`, `Unwinding`, `ForScopes` and `Statements` prove that such code runs along with the source.
What is invalid is not taken on trust: `Errors` lists the places of a function and says of each, in literal terms,
what may stand there, and proves that these are exactly the functions accepted.  `Evaluation` and `LoopLaws` do the
same for the semantics: order of operands, values in the range of their type, loops by their usual equations.

A `for` is emitted in a way that does not always keep to its meaning, so runs of the source have readings:
`AsMeant` is the meaning, `AsEmitted` what the emitted code does, and `AsChecked` follows both as long as they
agree and stops where they part.  `Functions.LoweringIsEmitted` proves, for every body and every world, that
the graph stops with a result after some events exactly when the emitted reading does, and never gets stuck.
`ForMeaning` proves that a round is emitted as it is meant if and only if its guard holds, and `ForOutcomes` says
exactly when a whole loop ends as it is meant to; it counts destructables (`Heights`) and uses that a run that has
ended stays as it is (`Fuel`).  `Functions.LoweringPreservesMeaning` puts this together for the meaning of whole
bodies, and `ForExamples` shows both kinds of failed guards at work.  `Destruction` and
`Lifetimes` prove that every destructable local is destroyed exactly once, last constructed first, but for the
very local that a `return` moves out; locals are told apart by their declarations.  `SimpleBlockClean` is the
clean-up pass over the block list, updated in place; `BlockRuns` proves that its edits keep every run, and
`BlockCircles` says exactly when it goes wrong.  `Compile` joins generation and clean-up.

**Formatter and grammar.**  `FormatTree` holds the trees and tokens, `FormatExpression` and `FormatStatement`
the printing, `Reader` and `StatementReader` a recursive-descent reading.  `Grammar` and `StatementGrammar` are the
grammar itself, as a relation between tokens and trees with one nonterminal per rule of src/Parser.y;
`Derivations`, `Readings` and `StatementReadings` prove that the reading accepts exactly what the grammar derives,
and that no text has two trees.  `ExpressionRoundTrip`, `StatementRoundTrip` and `Formatting` prove printing and
reading inverse to each other.
`FormatContexts` and `FormatWriter` are the visitors that write line by line, proved to write what is printed.

**Types, numbers and arrays.**  `TypeTable` and `TypeManagers` are the table of interned types; `Numeric` the
common type of two operands, integer casts and compound assignment; `NewSizes` the bytes that `new` asks for;
`ArrayLoops` the emitted loops that construct and destroy the elements of an array; `NewArrays` puts the last two
together.

**Names.**  `Imports` is the depth-first loading of files, `Overloads` the choice among functions, `Symbols`
the table of global names, `Labels` the labels and gotos of a function.

## What the proofs found

- `for` (src/CGNStatement.cpp:400-428) does not always keep lifetimes.  A round is emitted as it is meant if and
  only if its guard holds: when the condition is false, or the body ends normally or in `redo`, the header may
  declare nothing with a destructor; when the body ends in `continue`, neither may the header nor the body's own
  scope.  `break` and `return` are always right (`ForMeaning.RoundAgreesExactly`).  A loop that ends, ends as it is
  meant to if and only if all its guards hold, or its first round ends normally and both readings end right there,
  showing nothing between the two places where the header is destroyed (`ForOutcomes.ForEndsExactly`).
  Where a guard fails, lifetimes break at once (`ForLeaks.FailedGuardBreaks`): leaving the loop by its condition
  leaves exactly the header's objects alive, a completed round or a `redo` destroys them too early, and a
  `continue` destroys what is destroyed already or was never constructed.  The graph of
  `for (C x(0); 0; ) { }` means what it should in no world (`ForExamples.HeaderIsLeft`); that of
  `for (C x(1); y; ) { y = 0; }` does wherever `y` keeps what is stored in it, though a guard fails
  (`ForExamples.RightThoughParting`).
- The clean-up pass takes a block that branches to itself for one it can skip.  After the pass, a block that the
  entry leads to branches to an erased block if and only if the entry led to a circle of one-branch blocks; if it
  did not, every run is kept (`SimpleBlockClean.Function.RunOnFunction`).  `loop ;` is such a circle
  (`Compile.EmptyLoopIsCircle`, `Compile.IdleLoopIsCircle`).
- The formatter drops the object of a destructor call when one token of it is `this`: `this->f.~this();`
  becomes `~this();` (`Formatting.LosesTheObject`).  `Formatting.TreeKeptExactly` says exactly when the tree is kept.
- The grammar takes a list that begins with a comma, as in `f(, a)`, and the formatter writes it without
  (`ExpressionRoundTrip.LosesTheComma`).  The tokens of an expression come back from the formatter as they were if and
  only if none of them is a comma right after `(` or `{` (`ExpressionRoundTrip.TextKeptExactly`).
- Scanner and grammar both mix up the names of `^=` and `|=` (src/Scanner.l:39-40, src/Parser.y:815-816); the two
  mistakes cancel.
- The const form of a struct that has got its body is without a size if and only if it was asked for before the
  struct had its body, over any run of the type manager (`TypeManagers.ConstSizedExactly`).
- `const [3]int` and `const [3]const int` are different types in the table, though their elements are the same
  const type; isConstEQ takes them for equal (`TypeTable.ConstArraysStayTwo`).
- Loops over arrays compare addresses, so that elements of size 0 end them early.  The end is addressed by the length
  without a cast (src/Instructions.cpp:816-818, src/Instructions.cpp:910-914), which extends its bits by their sign:
  an unsigned length, or a bool, with its top bit set sends the loop past the array, unless its range is a multiple
  of the address space in elements (`ArrayLoops.ConstructorRuns`, `ArrayLoops.DestructorRuns`).  The bytes that `new`
  asks for come from the value of the length, so that the loop leaves them (`NewArrays.NewArrayRuns`,
  `NewArrays.NarrowLengthOverruns`).
- The constructor's loop has no test before the first element: on an array of length 0 it goes on until addresses
  repeat (`ArrayLoops.ConstructsWithoutElements`).
- The main file is known by a relative path (src/main.cpp:56, src/main.cpp:82) and imported files by canonical ones
  (src/Builder.cpp:752), so that the main file is visited a second time, under its canonical name, if and only if
  it imports itself by way of others (`Imports.LoadProgram`).
- Functions of different classes share an emitted name exactly if the one class's name begins with the other's and
  the rest is where the function's own name begins, as for `f` in class `A_B` and `B_f` in class `A`
  (`Symbols.NamesMeetExactly`); two such functions of one type are one function (src/Builder.cpp:352-363).

## Model

| member | source | states |
|---|---|---|
| `Expressions.ExpRuns` | src/CGNExpression.cpp:28-62 | running the code of any expression, at any nesting, ends with the value and exactly the events of the source evaluation, and leaves older registers alone |
| `Expressions.LogicalRuns` | src/CGNExpression.cpp:273-295 | the right operand of `&&` and `||` acts exactly when the left one does not decide |
| `Expressions.BranchingRuns` | src/CGNExpression.cpp:170-228 | `?:` with blocks: exactly the chosen operand acts, and the phi takes its value |
| `Expressions.SelectRuns` | src/CGNExpression.cpp:170-228 | `?:` as a select gives the value of the chosen operand, and evaluating both shows no event |
| `Expressions.SelectIsBranching` | src/CGNExpression.cpp:170-228 | the select and the branching form give the same value and the same events wherever both are possible |
| `Expressions.CoalesceRuns` | src/CGNExpression.cpp:313-354 | `??` gives the left value unless it tests false |
| `Expressions.PickRuns` | src/CGNExpression.cpp:313-354 | `??` with a simple right operand, as a select |
| `Expressions.FallbackRuns` | src/CGNExpression.cpp:313-354 | `??` with a complex right operand: it acts only when the left one tests false |
| `Expressions.AssignRuns` | src/CGNExpression.cpp:92-168 | an assignment stores the value cast to the variable's type, after the right-hand side has acted |
| `Expressions.UpdateRuns` | src/CGNExpression.cpp:154-160 | `x op= e` loads `x` after `e` has acted |
| `Expressions.PhiRuns` | src/CGNExpression.cpp:211-214 | a phi gives the operand of the block that control came from |
| `Expressions.ArgsRun` | src/CGNExpression.cpp:377-413 | arguments act from left to right, and earlier values survive |
| `Expressions.BranchRuns` | src/Instructions.cpp:418-425 | a test takes the side its value says |
| `Expressions.CondRuns` | src/Instructions.cpp:418-425 | a missing condition is true |
| `Unwinding.DtorsRun` | src/Instructions.cpp:940-948 | the emitted destructor calls run last first and pass over the spared slot |
| `Unwinding.ReturnUnwinds` | src/CGNStatement.cpp:263-295 | what a `return` destroys is the unwinding of all scopes, but for the moved local |
| `Unwinding.AllUnwinds` | src/CodeContext.cpp:269-277 | what a jump destroys is the unwinding of exactly the scopes it leaves |
| `Statements.PlainRuns` | src/CGNStatement.cpp:88-91 | expression statements and declarations run as in the source |
| `Statements.CoalesceToRuns` | src/CGNExpression.cpp:138-165 | `x ??= e` as a statement: `e` acts only when `x` tests false |
| `Statements.ReturnRuns` | src/CGNStatement.cpp:263-295 | a `return` evaluates, destroys and stops with the value |
| `Statements.JumpRuns` | src/CGNStatement.cpp:487-537 | a jump destroys the scopes it leaves and gets to its target |
| `Statements.StmtRuns` | src/CGNStatement.cpp:30-65 | the graph of any statement runs along with its semantics as emitted, however far that is followed, with no condition on loops or destructors |
| `Statements.ListRuns` | src/CGNStatement.cpp:67-71 | the same for statement lists |
| `Statements.IfRuns` | src/CGNStatement.cpp:430-453 | the same for `if` |
| `Statements.LoopRuns` | src/CGNStatement.cpp:297-313 | the same for `loop`, with break, continue and redo at any level |
| `Statements.WhileRuns` | src/CGNStatement.cpp:315-338 | the same for while, until and the do forms |
| `Statements.ForRuns` | src/CGNStatement.cpp:400-428 | the same for `for`, whatever its header and body declare: the semantics as emitted says what is destroyed when |
| `Statements.SwitchRuns` | src/CGNStatement.cpp:340-398 | the same for `switch` |
| `Statements.SelectedTarget` | src/CGNStatement.cpp:340-398 | the switch instruction goes to the case that the source selects, the default, or the end |
| `Statements.CasesRun` | src/CGNStatement.cpp:356-391 | cases fall through as in the source |
| `Statements.PostRuns` | src/CGNStatement.cpp:400-428 | after the body, or a `continue` that has destroyed its locals already, the post expressions run, the scope is destroyed, and control is at the condition |
| `ForMeaning.GuardIsExact` | src/CGNStatement.cpp:400-428 | after the body, the emitted code does what the meaning asks if and only if the guard holds: nothing destructable in the header, nor in the body if it ended in `continue`; after `break` and `return` there is no guard |
| `ForMeaning.RoundAgreesExactly` | src/CGNStatement.cpp:400-428 | one round of any `for` is emitted as it is meant if and only if its guard holds |
| `ForMeaning.LoopAgreesExactly` | src/CGNStatement.cpp:400-428 | the rounds of emitted and meant loop are the same, one by one, if and only if their guards hold; then the loops end alike |
| `Fuel.OneEnd` | src/CGNStatement.cpp:67-71 | a list that has ended has the same end however much further it is followed |
| `Fuel.ForFurther` | src/CGNStatement.cpp:400-428 | the same for `for` |
| `Heights.StmtKeeps` | src/CGNStatement.cpp:30-65 | at no time does a statement, as it is meant, destroy what was there before it; when it ends, as many more destructables are alive as its scope has gained, and a spared one |
| `Heights.ForKeepsBelow` | src/CGNStatement.cpp:400-428 | the header of a loop, as it is meant, is destroyed with the very last events of the loop, and nothing below it at any time |
| `ForOutcomes.MeantSilent` | src/CGNStatement.cpp:400-428 | a meant loop that shows nothing but the destruction of its header ends by its condition or by a `break`, at once |
| `ForOutcomes.AfterSurplus` | src/CGNStatement.cpp:400-428 | once the header was destroyed too early, the emitted loop ends as it should if and only if both readings end right there, unseen |
| `ForOutcomes.LoopEndsExactly` | src/CGNStatement.cpp:400-428 | an emitted loop that ends does so as it is meant to if and only if the guards of all its rounds hold, or its first round ends normally and both readings end right after it without showing anything but the header destroyed |
| `ForOutcomes.ForEndsExactly` | src/CGNStatement.cpp:400-428 | the same for every valid `for` statement whose body is emitted as it is meant |
| `ForMeaning.StraysExactly` | src/CGNStatement.cpp:400-428 | the checked reading of a loop stops if and only if the guard of one of its rounds fails |
| `ForMeaning.ListAgrees` | src/CGNStatement.cpp:67-71 | wherever the checked reading of a list does not stop, emitted and meant reading are the same run |
| `ForMeaning.ListStays` | src/CGNStatement.cpp:400-428 | lists whose `for` loops declare nothing destructable where it matters never stop the checked reading |
| `Emission.SoundEmit` | src/CodeContext.cpp:345-371 | emitting keeps the state between visits well formed |
| `Emission.SoundCreate` | src/CodeContext.cpp:367-371 | so does creating a block |
| `Emission.SoundMove` | src/CodeContext.cpp:345-350 | so does ending the current block and going on in another one |
| `Laying.ArmsSound` | src/CGNExpression.cpp:184-214 | two arms and the block that joins them: its phi's blocks are exactly its predecessors |
| `Laying.PhiStep` | src/CGNExpression.cpp:211-214 | placing a phi for the two predecessors keeps the state well formed |
| `CodeContexts.LevelResolves` | src/CodeContext.cpp:101-106 | a level finds the construct it names, counted from inside or outside, or there is none; levels are 32-bit |
| `CodeContexts.LevelsCoincide` | src/CodeContext.cpp:101-106 | level k is level k - (depth + 1), and no level is level 1 |
| `CodeContexts.CodeContext.PopLocalTable` | src/CodeContext.cpp:229-236 | ends the innermost scope and destroys its destructables, last first |
| `CodeContexts.CodeContext.CallDestructables` | src/Instructions.cpp:940-948 | destroys the scopes from a level inwards, but for the spared slot |
| `CodeContexts.CodeContext.GetDestructables` | src/CodeContext.cpp:269-277 | the destructables of the scopes from a level inwards |
| `CodeContexts.CodeContext.StoreLocalSymbol` | src/CodeContext.cpp:22-28 | a local joins the innermost scope |
| `CodeContexts.CodeContext.LoadSymbolLocal` | src/CodeContext.cpp:254-262 | finds the innermost local of the name |
| `CodeContexts.CodeContext.CreateBreakBlock` | src/CodeContext.cpp:378-383 | a break target with the number of scopes open at that time |
| `CodeContexts.CodeContext.CreateContinueBlock` | src/CodeContext.cpp:390-395 | the same for continue |
| `CodeContexts.CodeContext.CreateRedoBlock` | src/CodeContext.cpp:402-407 | the same for redo |
| `CodeContexts.CodeContext.PopLoopBranchBlocks` | src/CodeContext.cpp:352-360 | takes away the innermost targets of the chosen kinds |
| `CodeContexts.CodeContext.PushBlock` | src/CodeContext.cpp:345-350 | places a block and goes on in it |
| `CodeContexts.CodeContext.AddCase` | src/CGNStatement.cpp:360-371 | the table of a switch grows in place |
| `CgnExpressions.Visit` | src/CGNExpression.cpp:28-62 | visiting an expression reports an error exactly when it is ill typed; else its code is laid out, in exactly as many blocks as its operators need, and the state stays well formed |
| `CgnExpressions.VisitLogical` | src/CGNExpression.cpp:273-295 | the same for `&&` and `||` |
| `CgnExpressions.VisitTernary` | src/CGNExpression.cpp:170-228 | the same for `?:` |
| `CgnExpressions.VisitNullCoalescing` | src/CGNExpression.cpp:313-354 | the same for `??` |
| `CgnExpressions.VisitAssignment` | src/CGNExpression.cpp:92-168 | the same for assignments |
| `CgnExpressions.VisitInvoke` | src/CGNExpression.cpp:377-413 | the same for calls |
| `CgnExpressions.VisitBinary` | src/CGNExpression.cpp:305-311 | the same for binary operators |
| `CgnExpressions.VisitCompare` | src/CGNExpression.cpp:297-303 | the same for comparisons |
| `CgnExpressions.Branch` | src/Instructions.cpp:418-425 | tests an expression and branches |
| `CgnExpressions.CastMatch` | src/Instructions.cpp:28-49 | brings two operands to their common type |
| `CgnStatements.VisitStmt` | src/CGNStatement.cpp:30-65 | visiting a statement reports an error exactly when it is invalid; else its code is laid out, blocks are placed, and scopes and targets are as before |
| `CgnStatements.VisitList` | src/CGNStatement.cpp:67-71 | the same for lists |
| `CgnStatements.VisitPlain` | src/CGNStatement.cpp:88-91 | the same for statements that always end normally |
| `CgnStatements.VisitVariableDecl` | src/CGNStatement.cpp:101-158 | the same for a declaration |
| `CgnStatements.VisitCoalesceTo` | src/CGNExpression.cpp:138-165 | the same for `x ??= e` |
| `CgnStatements.VisitReturn` | src/CGNStatement.cpp:263-295 | the same for `return`; no error exactly for no value where nothing is returned, for a well-typed scalar where a number is, and where a class is, for an object that has no destructor or is moved |
| `CgnStatements.VisitLoopBranch` | src/CGNStatement.cpp:487-537 | the same for break, continue and redo |
| `CgnStatements.VisitLoop` | src/CGNStatement.cpp:297-313 | the same for `loop` |
| `CgnStatements.VisitWhile` | src/CGNStatement.cpp:315-338 | the same for while, until and the do forms |
| `CgnStatements.VisitSwitch` | src/CGNStatement.cpp:340-398 | the same for `switch` |
| `CgnStatements.VisitCases` | src/CGNStatement.cpp:356-391 | the loop over the cases: an error for each value or default that was there before, and the block of the default |
| `CgnStatements.VisitFor` | src/CGNStatement.cpp:400-428 | the same for `for` |
| `CgnStatements.VisitIf` | src/CGNStatement.cpp:430-453 | the same for `if` |
| `Functions.CreateFunction` | src/Builder.cpp:32-79 | generating a function reports no error exactly when it returns nothing or ends in a return or jump and nothing is wrong at any place of its body, and then the graph is its code |
| `Errors.ErrorsExactly` | src/CGNStatement.cpp:30-537 | a body is accepted if and only if at every place, with the constructs around it, nothing is wrong: operands that are chosen from are of one type, names are declared once in a scope, cases have different values, a jump names one of the constructs around it that it can name, and a return fits the function |
| `Errors.ExpExactly` | src/CGNExpression.cpp:170-354 | an expression is ill typed if and only if some part of it chooses between operands of two types |
| `Functions.ValidExactly` | src/Builder.cpp:46-52 | the same for functions, which may not run past their end unless they return nothing |
| `Evaluation.ValuesAreTyped` | src/CGNExpression.cpp:28-62 | whatever its operands are, a condition is 0 or 1 |
| `Evaluation.FirstOperandFirst` | src/CGNExpression.cpp:28-62 | the first operand of every expression acts before all else |
| `Evaluation.ArgumentsInOrder` | src/CGNExpression.cpp:377-413 | arguments act one after the other |
| `Evaluation.BlocksCounted` | src/CGNExpression.cpp:170-354 | two blocks for `&&` and `||`, three for a ternary and two for `??`, but none where what they choose from is constants and variables |
| `Evaluation.CastsAreNumeric` | src/Instructions.cpp:28-49 | casts and common types of the lowering are those of the numeric types |
| `LoopLaws.UntilIsWhileNot` | src/CGNStatement.cpp:315-338 | over all runs, `until` is `while` with the condition turned round |
| `LoopLaws.DoIsBodyFirst` | src/CGNStatement.cpp:315-338 | `do` runs its body first, and goes on as the loop without it |
| `LoopLaws.ForIsWhile` | src/CGNStatement.cpp:400-428 | over all runs, a `for` as it is meant, with nothing before and after its rounds, is a `while` |
| `LoopLaws.CasesAreBlocks` | src/CGNStatement.cpp:356-391 | control falls through the cases as through a list of blocks, each a scope of its own |
| `LoopLaws.SwitchIsItsBlocks` | src/CGNStatement.cpp:340-398 | a switch runs the blocks from the first case with its value, or else the first default, or none; `break` at level 1 ends it, at level n is level n - 1 outside, and everything else passes through |
| `Functions.FunctionRuns` | src/CGNStatement.cpp:263-453 | however far the emitted reading of any valid body is followed, the graph has shown the same events, and stops with the same result or is still running |
| `Functions.StopsAsMeant` | src/CGNStatement.cpp:263-453 | every stop of the graph is the end of the emitted reading, with the same result and events |
| `Functions.EndsOnce` | src/CGNStatement.cpp:263-453 | a call ends with one result and one list of events at most |
| `Functions.LoweringIsEmitted` | src/CGNStatement.cpp:263-453 | for every valid body and every world: the graph stops with a result after some events exactly when the emitted reading does, and never gets stuck |
| `Functions.LoweringPreservesMeaning` | src/CGNStatement.cpp:263-453 | where no round of a `for` parts from its meaning, the graph stops with a result after some events exactly when the body is meant to, and never gets stuck |
| `Functions.SafeBodiesNeverPart` | src/CGNStatement.cpp:400-428 | a condition on the text of the body under which no round parts, in any world |
| `ForLeaks.HeaderLeaks` | src/CGNStatement.cpp:400-428 | any loop whose condition is false leaves exactly the destructables of its header alive |
| `ForLeaks.RoundDestroysHeader` | src/CGNStatement.cpp:400-428 | any completed round destroys the objects of the header with those of the body |
| `ForLeaks.RedoDestroysHeader` | src/CGNStatement.cpp:400-428 | so does any `redo`, which goes back into the body |
| `ForLeaks.ContinueDestroysAgain` | src/CGNStatement.cpp:400-428 | after any `continue`, if header or body declare something destructable, something is destroyed that is not alive or lies outside the loop; if not, nothing is |
| `ForLeaks.FailedGuardBreaks` | src/CGNStatement.cpp:400-428 | wherever a guard fails, what is alive after the round is not what should be |
| `ForExamples.HeaderIsLeft` | src/CGNStatement.cpp:400-428 | `for (C x(0); 0; ) { }` is valid, and in no world does its graph mean what it means |
| `ForExamples.RightThoughParting` | src/CGNStatement.cpp:400-428 | `for (C x(1); y; ) { y = 0; }` parts from its meaning, and still its graph means what it means |
| `Destruction.UnwindNests` | src/CodeContext.cpp:229-236 | unwinding a scope destroys its destructables, last first, and nothing else |
| `Destruction.StmtNests` | src/CGNStatement.cpp:30-65 | on every path through a statement nothing is destroyed early, twice, or out of order |
| `Destruction.LeftEverything` | src/CGNStatement.cpp:263-295 | a `return` leaves nothing alive, but for the very local that it moves out |
| `Destruction.DestroyedAsOften` | src/CGNStatement.cpp:263-295 | a local is destroyed as often as it is constructed if it has a destructor, the one moved out once less, and else never |
| `Lifetimes.SourceDestroys` | src/CGNStatement.cpp:263-398 | a completed call destroys every local it constructs exactly once, in reverse order; if the returned value moves a local out, the innermost local of that name is the one exception |
| `Lifetimes.GraphNests` | src/CGNStatement.cpp:263-398 | at every step of the run of any function, objects returned or not, nothing was destroyed before its construction, twice, or out of order |
| `Lifetimes.GraphDestroys` | src/CGNStatement.cpp:263-398 | a completed run of the graph has destroyed all it constructed exactly once, but for the local that the run of the body names as moved out |
| `BlockRuns.RedirectedRuns` | src/Pass.cpp:26-54 | sending branches past a one-branch block keeps every run |
| `BlockRuns.ErasedRuns` | src/Pass.cpp:56-73 | erasing a block that is not reached keeps every run |
| `BlockRuns.SameStops` | src/Pass.cpp:56-73 | runs with the same views stop alike |
| `BlockCircles.SkippedCircles` | src/Pass.cpp:26-54 | skipping a block neither makes nor breaks circles of one-branch blocks |
| `BlockCircles.SkippedTargets` | src/Pass.cpp:26-54 | nor does it change whether a reached block branches to an erased one |
| `BlockCircles.ErasedCircles` | src/Pass.cpp:56-73 | nor does erasing a block that is not reached change which circles are reached |
| `BlockCircles.SelfLoopErased` | src/Pass.cpp:26-54 | a block that branches to itself is a circle; erasing it where it is reached leaves a branch to it |
| `SimpleBlockClean.Visited` | src/Pass.cpp:56-73 | visiting a block, whichever way it goes, keeps what the pass promises so far |
| `SimpleBlockClean.CleanHasNoCircle` | src/Pass.cpp:56-73 | once every block but the entry is clean, no circle is reached |
| `SimpleBlockClean.Function.Predecessors` | src/Pass.cpp:26-54 | exactly the blocks that branch to a block |
| `SimpleBlockClean.Function.RemoveBranchBlock` | src/Pass.cpp:26-54 | redirects the predecessors of a one-branch block unless a phi waits at its target |
| `SimpleBlockClean.Function.RunOnFunction` | src/Pass.cpp:56-73 | a reached block branches to an erased one if and only if a circle of one-branch blocks was reached; if not, all runs are kept; remaining blocks are clean, and something still branches to each, or what led to it stood behind it and is gone; erased blocks only branched on, or all that branched to them stood before them and is gone |
| `SimpleBlockClean.Walks` | src/Pass.cpp:56-73 | one visit keeps, of the graph at the start, where its edges and blocks come from, what still leads to the blocks passed, and why blocks were erased |
| `SimpleBlockClean.UnledErased` | src/Pass.cpp:64-69 | a block that nothing branches to any more is erased after all that did |
| `SimpleBlockClean.SkipErased` | src/Pass.cpp:26-54 | a block that is skipped only branched on, and the edges made lead where it led |
| `SimpleBlockClean.RedirectKeeps` | src/Pass.cpp:26-54 | redirecting keeps the function well formed |
| `SimpleBlockClean.EraseKeeps` | src/Pass.cpp:56-73 | so does erasing |
| `Compile.GeneratedIsWellFormed` | src/CGNStatement.cpp:263-453 | every generated graph satisfies what the pass relies on |
| `Compile.CompileFunction` | src/Pass.cpp:56-73 | there is a graph if and only if the function is valid; cleaned up, it does in every world what the emitted reading says, and what is meant where no round parts, unless the entry leads to a circle of one-branch blocks, and then, and only then, it branches to an erased block |
| `Compile.IdleLoopIsCircle` | src/CGNStatement.cpp:297-313 | wherever some call gets to a `loop` of the body that is empty or only continues, the entry leads to a circle |
| `Compile.EmptyLoopIsCircle` | src/CGNStatement.cpp:297-313 | the pass breaks the valid body `loop ;` |
| `FormatTree.AsgRoundTrip` | src/Parser.y:804-818 | assignment operators survive scanner, grammar and printer |
| `Readings.ReadsDerived` | src/Parser.y:788-1074 | what the rules of the grammar derive at any level is read as the tree of the derivation, with tokens that cannot continue it left over |
| `Readings.ReadsVariable` | src/Parser.y:998-1049 | a derived variable is read up to its end, then whatever follows it |
| `Readings.ReadsOperands` | src/Parser.y:834-926 | derived binary operators are collected from the left |
| `Readings.ReadsDerivedList` | src/Parser.y:754-768 | a derived list is read up to its closing token, a comma before its first item included |
| `Readings.Understood` | src/Parser.y:788-1074 | what is read at any level is what the grammar derives from the tokens that were read |
| `Readings.UnderstoodList` | src/Parser.y:754-768 | the same for lists |
| `Derivations.Shape` | src/Parser.y:788-1074 | the trees of derivations are those the grammar is said to build, each of its level or a tighter one |
| `ExpressionRoundTrip.Printed` | src/format/FMNExpression.cpp:77-313 | the grammar derives the printing of each of its trees, as that tree |
| `ExpressionRoundTrip.ReaderIsTheGrammar` | src/Parser.y:788-1074 | the reader accepts tokens as a tree if and only if the rules of the grammar derive it from them |
| `ExpressionRoundTrip.Precedence` | src/Parser.y:834-926 | of two binary operators between three operands the one with the later rule binds tighter, and of two with one rule the first |
| `ExpressionRoundTrip.ReadsBack` | src/Parser.y:788-1074 | every expression of a level, printed before tokens that cannot continue it, is read back with those tokens left |
| `ExpressionRoundTrip.Tidied` | src/Parser.y:754-768 | what is derived is printed as its tokens without the commas that begin a list |
| `ExpressionRoundTrip.ExpressionRoundTrips` | src/format/FMNExpression.cpp:77-313 | what is printed reads back, and what is read is printed as its tokens but for such commas |
| `ExpressionRoundTrip.TextKeptExactly` | src/Parser.y:754-768 | the tokens are kept if and only if no comma directly follows an opening parenthesis or brace |
| `ExpressionRoundTrip.LosesTheComma` | src/Parser.y:754-768 | `f(, a)` is accepted, and formatted as `f(a)` |
| `ExpressionRoundTrip.ReadBackExactlyTheGrammar` | src/format/FMNExpression.cpp:77-313 | a tree is read back from its printing if and only if the grammar can build it |
| `ExpressionRoundTrip.PrintedApart` | src/format/FMNExpression.cpp:77-313 | different trees are printed differently |
| `StatementReadings.ReadsDerivedStm` | src/Parser.y:448-497 | what the rules derive as a statement is read as that statement with what follows left over, if no else follows an `if` that could take it |
| `StatementReadings.ReadsIfElse` | src/Parser.y:553-568 | an else is read for the `if` it was derived for |
| `StatementReadings.ReadsDerivedBody` | src/Parser.y:424-435 | a single statement: in braces, alone, or a semicolon |
| `StatementReadings.ReadsDo` | src/Parser.y:498-515 | the do forms |
| `StatementReadings.ReadsFor` | src/Parser.y:481-484 | `for`, with its three lists |
| `StatementReadings.ReadsHeader` | src/Parser.y:777-787 | a header is read as expressions or as one group of declarations |
| `StatementReadings.ReadsDerivedCases` | src/Parser.y:516-537 | the cases of a switch |
| `StatementReadings.ReadsDerivedStms` | src/Parser.y:436-447 | lists of statements |
| `StatementReadings.BeginsNoOther` | src/Parser.y:448-497 | no expression begins as a label or a call of the destructor of `this` does |
| `StatementReadings.UnderstoodStm` | src/Parser.y:448-497 | what is read as a statement is what the grammar derives from its tokens, and no else follows it that it could take |
| `StatementReadings.UnderstoodIf` | src/Parser.y:553-568 | an else is taken by the nearest `if` |
| `StatementReadings.UnderstoodStms` | src/Parser.y:436-447 | the same for lists |
| `StatementRoundTrip.ShapeStm` | src/Parser.y:448-497 | derived statements are those the grammar is said to build |
| `StatementRoundTrip.PrintedStm` | src/format/FMNStatement.cpp:28-66 | the grammar derives the printing of every statement as that statement, but for the objects that destructor calls lose |
| `StatementRoundTrip.PrintedIf` | src/format/FMNStatement.cpp:321-368 | the elses of a printed chain belong to the ifs they were printed for, with or without braces |
| `StatementRoundTrip.PrintedBody` | src/format/WriterUtil.cpp:58-77 | a body is derived whether it was put in braces or not, empty ones included |
| `StatementRoundTrip.PrintedHeader` | src/format/FMNStatement.cpp:299-311 | the joined header is derived as expressions or as one group of declarations |
| `StatementRoundTrip.PrintedCases` | src/format/FMNStatement.cpp:283-297 | the cases of a switch |
| `Formatting.StatementsRoundTrip` | src/format/FMNStatement.cpp:28-66 | a printed list is read back, but for the objects that destructor calls lose |
| `Formatting.TreeKeptExactly` | src/format/FMNStatement.cpp:413-420 | the tree is kept if and only if no destructor call has an object other than `this` whose token is `this` |
| `Formatting.LosesTheObject` | src/format/FMNStatement.cpp:413-420 | `this->f.~this();` is formatted as `~this();` |
| `Formatting.SettledStmsExactly` | src/format/FMNStatement.cpp:413-420 | what is read back is the list itself exactly under that condition |
| `Formatting.ReaderIsTheGrammar` | src/Parser.y:436-497 | the reader accepts tokens as a list of statements if and only if the rules of the grammar derive it from them |
| `Formatting.FormattingTwice` | src/format/FMNStatement.cpp:28-66 | formatting an accepted text gives an accepted text, and formatting again changes nothing |
| `Formatting.FormattedApart` | src/format/FMNStatement.cpp:28-66 | two texts are formatted alike exactly when their trees agree but for lost objects |
| `FormatContexts.FormatContext.AddLine` | src/format/FormatContext.h:37-40 | a new line in the current buffer |
| `FormatContexts.FormatContext.Add` | src/format/FormatContext.h:42-45 | the last line goes on |
| `FormatWriter.Format` | src/format/FMNStatement.cpp:62-66 | the lines written for a list hold exactly the tokens it is printed as |
| `FormatWriter.Visit` | src/format/FMNStatement.cpp:28-60 | a visit writes the printing of the statement and restores buffer and indentation |
| `FormatWriter.VisitExpressions` | src/format/FMNExpression.cpp:62-75 | the loop over a list with commas |
| `FormatWriter.VisitVariable` | src/format/FMNStatement.cpp:108-119 | a declared variable with its initializer |
| `FormatWriter.VisitVariableGroup` | src/format/FMNStatement.cpp:104-121 | a group of declarations, as one line |
| `FormatWriter.WriteBlockStmt` | src/format/WriterUtil.cpp:66-77 | a body, in braces if forced or needed |
| `FormatWriter.VisitFor` | src/format/FMNStatement.cpp:299-319 | the header is written to a buffer of its own, and joined |
| `FormatWriter.JoinHeader` | src/format/FMNStatement.cpp:306-313 | the lines of the buffer, each without its semicolon |
| `FormatWriter.VisitIf` | src/format/FMNStatement.cpp:321-368 | the chain is written if by if |
| `FormatWriter.CollectIfs` | src/format/FMNStatement.cpp:321-344 | the chain, its last else, and braces exactly if one of the bodies needs them |
| `FormatWriter.ChainIsPrinted` | src/format/FMNStatement.cpp:346-367 | the flattened chain prints as the nested ifs do |
| `TypeTable.EqualTreesAreOneType` | src/Type.cpp:428-487 | in a canonical table types that are written alike are one type |
| `TypeTable.ConstEQIsErasedEquality` | src/Type.cpp:203-210 | isConstEQ holds exactly when the types are equal once const is erased at the top and through pointers and arrays |
| `TypeTable.ConstEQExactly` | src/Type.cpp:203-210 | const at the top makes no difference; pointers, and arrays of one length, are compared by what they point to or hold; any other two types have to be one |
| `TypeTable.ConstEQIsEquivalence` | src/Type.cpp:203-210 | isConstEQ is an equivalence |
| `TypeTable.ConstArraysStayTwo` | src/Type.cpp:51-56 | for every element and length, const arrays of the element and of its const form are two types with one element type, which isConstEQ equates |
| `TypeTable.ContainmentIsWellFounded` | src/Builder.cpp:487-513 | no chain of by-value containment comes back to its start, and chains have bounded length |
| `TypeManagers.TypeManager.constructor` | src/Type.cpp:397-426 | the table starts canonical with the built-in types |
| `TypeManagers.TypeManager.Intern` | src/Type.cpp:428-487 | a type is made once for what it is made of, and the table stays canonical |
| `TypeManagers.TypeManager.MakeConst` | src/Type.h:783-795 | the const form of a type; the recursion ends because contents have smaller rank, and the table stays canonical |
| `TypeManagers.TypeManager.SetConst` | src/Type.cpp:51-82 | the copy holds the const forms of what the type holds |
| `TypeManagers.TypeManager.SetConstItems` | src/Type.cpp:64-82 | member by member |
| `TypeManagers.TypeManager.GetConst` | src/Type.h:783-795 | const is added once, and getMutable undoes it |
| `TypeManagers.TypeManager.GetMutableType` | src/Type.h:797-802 | getConst undoes getMutable |
| `TypeManagers.TypeManager.ArrayType` | src/CGNDataType.cpp:94-128 | an array type is made exactly for a positive or missing length and an element that is not opaque, `auto` or `void` |
| `TypeManagers.TypeManager.DeclareUser` | src/Type.cpp:530-558 | a struct, class or union without a size, unless the name is taken |
| `TypeManagers.TypeManager.CreateEnum` | src/Builder.cpp:596-658 | an enum if and only if the name is free and the members are distinct and at least one |
| `TypeManagers.TypeManager.AddMembers` | src/Builder.cpp:487-513 | valid if and only if the type is not opaque, `auto` or `void`, is not special outside a class, and no name is doubled; then all the members are added in order |
| `TypeManagers.TypeManager.SetBody` | src/Type.cpp:497-528 | the type gets its members and its size; the table stays canonical and containment well founded |
| `TypeManagers.TreeKept` | src/Type.cpp:428-487 | types keep their meaning while the table grows |
| `TypeManagers.BodyKeeps` | src/Type.cpp:497-528 | a body cannot close a circle of containment, because nothing can hold the type before |
| `TypeManagers.ConstSizedExactly` | src/Type.h:783-795 | over any run of tables: after a body is set, the const form of the type is unsized if and only if it was there before |
| `TypeManagers.ConstAroundBody` | src/Type.cpp:497-528 | the same for one manager, asking for the const form before or after the body |
| `Numeric.ConvIsJoin` | src/Type.cpp:159-189 | the common type is the least upper bound of the operands, and of int32 where that is asked for |
| `Numeric.ConvLaws` | src/Type.cpp:159-189 | numericConv is commutative, associative, and idempotent without int32min |
| `Numeric.ValueExactly` | src/Instructions.cpp:253-286 | the value of bits is the one number in the range of the type that is equal to them modulo its width |
| `Numeric.CastKeepsValue` | src/Instructions.cpp:253-286 | integer casts keep the value modulo the width; casts to bool test for zero |
| `Numeric.CastsUpKeepValues` | src/Instructions.cpp:253-286 | a cast keeps every value exactly when it has as many value bits and loses no sign |
| `Numeric.CompoundAssignment` | src/CGNExpression.cpp:154-160 | `x op= y` stores the sum, difference or product of the values modulo the width of `x`, for all integer types |
| `NewSizes.DataTypeNew.Visit` | src/CGNDataType.cpp:307-327 | no error exactly when all constant lengths are positive; then `new` asks for the size of the element times all lengths, modulo 2^64, and leaves the outermost length behind with its own type |
| `NewSizes.BytesTimes` | src/CGNDataType.cpp:264-284 | the product is taken in 64 bits whatever the type of the length |
| `ArrayLoops.Emitter.CallConstructor` | src/Instructions.cpp:789-844 | the blocks, phi and branches of the constructor loop |
| `ArrayLoops.Emitter.CallDestructor` | src/Instructions.cpp:846-938 | the blocks, phi and branches of the destructor loop |
| `ArrayLoops.LoopRunsTo` | src/Instructions.cpp:789-938 | from element k on the loop calls on every element once, in order, up to the first whose address is that of the end |
| `ArrayLoops.LoopHits` | src/Instructions.cpp:789-938 | from the first element on, that is the first element at the address of the end, wherever the end is |
| `ArrayLoops.ConstructorHits` | src/Instructions.cpp:789-844 | the constructor loop for any length: the index of the end is extended by its sign from its own width |
| `ArrayLoops.ExactHit` | src/Instructions.cpp:816-818 | a loop stops after n >= 1 elements if and only if n is 1 or elements have a size, and the length is signed, or below half its range, or its range is a multiple of the address space in elements; else it stops later |
| `ArrayLoops.ConstructorRuns` | src/Instructions.cpp:789-844 | under exactly that condition the elements 0 to n-1 are constructed, once each and in order; if elements have a size, never fewer |
| `ArrayLoops.DestructorHits` | src/Instructions.cpp:846-938 | the destructor loop for any length: none if the end has the address of the start |
| `ArrayLoops.DestructorRuns` | src/Instructions.cpp:846-938 | for n >= 0 exactly those elements are destroyed, if and only if n is 0 or elements have a size, and the length is signed, or below half its range, or its range is such a multiple; if elements have a size, never fewer |
| `ArrayLoops.ConstructsWithoutElements` | src/Instructions.cpp:814-842 | on an array of length 0 the constructor runs until addresses repeat, exactly k times where k is the first positive multiple of the size that is 0 in the address space |
| `NewArrays.NewExpression` | src/CGNExpression.cpp:230-257 | an array under `new`: an error exactly for a constant length that is not positive; else the bytes, and the constructor loop for the length that is left behind |
| `NewArrays.NewArrayRuns` | src/CGNExpression.cpp:230-257 | it constructs exactly the elements asked for, and stays within the bytes asked for, under the exact condition on size, length and the type of the length |
| `NewArrays.NarrowLengthOverruns` | src/CGNDataType.cpp:280-284 | 200 objects of 8 bytes, the length a `uint8`: 1600 bytes are asked for, and 2^61 - 56 objects constructed |
| `Imports.ClosedHoldsReachable` | src/Builder.cpp:734-767 | files closed under imports hold everything that can be reached |
| `Imports.SecondNameReached` | src/Builder.cpp:734-767 | the second name of the main file is reached if and only if the file imports itself by way of others |
| `Imports.Context.LoadImport` | src/Builder.cpp:734-767 | an import ends, restores the file stack, visits new files once, follows their imports, and is reported exactly when there is no such file or it does not parse |
| `Imports.Context.VisitList` | src/CGNImportStm.cpp:44-63 | the items of a file are visited in order with that file as the current one, and those of its imports that cannot be loaded are reported in order |
| `Imports.VisitInOrder` | src/CGNImportStm.cpp:44-63 | when a declaration is visited, all that is imported above it has been visited to the end, unless it leads back to that file |
| `Imports.LoadProgram` | src/Builder.cpp:734-767 | exactly the files that can be reached are loaded, each visited once, what is imported first; the errors of a file are exactly its imports that cannot be loaded, once each, so that there is none if and only if all imports of all these files can be; the main file is visited again under its canonical name if and only if it imports itself by way of others |
| `Overloads.MatchCount` | src/Instructions.cpp:629-654 | exactly the functions, in input order, with the most parameters that are the type of the argument, or in the second search a pointer or reference to it, at least 1 |
| `Overloads.CountExactly` | src/Instructions.cpp:629-654 | what is counted is these positions and no others |
| `Overloads.CallFunction` | src/Instructions.cpp:656-711 | the only candidate of that size; else the single best of the first search; else that of the second; else an error |
| `Overloads.ChosenExactly` | src/Instructions.cpp:656-711 | the same for the choice itself, told from the positions that fit |
| `Overloads.ReferencesWin` | src/Instructions.cpp:629-711 | if the exact types do not decide, the only candidate that takes every argument as it is, or by pointer or reference, is called |
| `Overloads.ChoiceIgnoresOrder` | src/Instructions.cpp:656-711 | every permutation of the candidates gives the same function |
| `Overloads.ExactSignatureWins` | src/Instructions.cpp:656-711 | among functions of different parameters, the one with exactly the argument types is called |
| `Symbols.EmittedNameIsFunction` | src/Builder.cpp:301-384 | what is emitted under a name is one function, whatever names lead to it |
| `Symbols.StoredIsConsistent` | src/Builder.cpp:377-384 | a further function of another type under a name keeps the table consistent |
| `Symbols.NewNameIsConsistent` | src/Builder.cpp:372-384 | so does a new emitted name |
| `Symbols.EmittedAsKnownExactly` | src/Builder.cpp:317-350 | when a function is emitted under the name it is known by |
| `Symbols.NamesMeetExactly` | src/Builder.cpp:317-350 | when two declarations, of whatever names, classes and attributes, share an emitted name |
| `Symbols.PlainClassesApart` | src/Builder.cpp:317-350 | functions of classes without `_` in their names share a known name if and only if class and name are the same |
| `Symbols.Builder.FindFunction` | src/Builder.cpp:352-363 | the function of the type under a name, if there is one |
| `Symbols.Builder.GetFuncPrototype` | src/Builder.cpp:301-384 | the function declared before, or a new one under an unused emitted name, exactly when allowed; the table stays consistent |
| `Symbols.Builder.CreateGlobalVar` | src/Builder.cpp:714-725 | a variable exactly when the name is free |
| `Symbols.Builder.GetBuiltinFunc` | src/Builder.cpp:427-473 | a library function is created at most once |
| `Labels.VisitFunction` | src/CGNStatement.cpp:455-485 | no error exactly when labels are unique and every goto has its label; then there is one block in front of each statement and one at the end, and the block in front of a label branches to the next one, that of a goto to the one behind its label |
| `Labels.Context.VisitLabel` | src/CGNStatement.cpp:455-472 | a label takes over its placeholder, or makes its block, and the current block branches to it |
| `Labels.Context.VisitGoto` | src/CGNStatement.cpp:474-485 | a goto branches to the block of its label, a placeholder if that was not seen yet, and begins the block for what follows |
| `Labels.LabelKeeps` | src/CodeContext.cpp:409-422 | what is known of names, blocks and branches survives a label |
| `Labels.GotoKeeps` | src/CodeContext.cpp:409-422 | and a goto |

## Left out

- LLVM itself, object and IR writing, options, the file system, and what a path names: files, their parses and
  canonical names are inputs.
- Error messages and positions: only that an error was reported is kept, and for imports also by which file and why.
- The scanner's characters and the LALR tables: tokens and the language of the grammar are modelled.
- Functions.LoweringPreservesMeaning: for bodies and worlds in which no round of a `for` parts from its meaning, which
  is sufficient and not necessary: `for (C x(1); y; ) { y = 0; }` parts and is right (`ForExamples.RightThoughParting`).
  What happens in all bodies is `Functions.LoweringIsEmitted`; the exact condition is per loop
  (`ForOutcomes.ForEndsExactly`).
- ForMeaning.LoopAgreesExactly: about rounds; for the ends of loops see `ForOutcomes.LoopEndsExactly`.
- ForOutcomes.LoopEndsExactly: for loops whose body is emitted as it is meant, so that it is this loop's guards
  that decide.
- Compile.CompileFunction: promises a meaning when the entry leads to no circle of one-branch blocks; when it does,
  that the graph branches to an erased block.  The circle is told from the generated graph; for the text of a body,
  `Compile.IdleLoopIsCircle` gives one direction, for loops that stand in the body itself.
- SimpleBlockClean.Function.RunOnFunction: one walk over the blocks, as in the source; a block whose last
  predecessor is erased after the walk has passed it stays.  Looking into an erased block finds no phi.
- CgnExpressions.Visit: without unary operators, increments, member access, indexing and pointers, which add
  straight-line code only; phis agree with the branches to their block as long as no error was reported, and after
  an error the function is not compiled.
- CgnExpressions.VisitInvoke: the function is fixed; its choice is in `Overloads`, and arguments are not cast.
- CgnExpressions.CastMatch: two kinds of values, conditions and others; the conversion of numbers is in `Numeric`.
- CgnStatements.VisitVariableDecl: one declared variable with an initial value; no constructor arguments, references
  or deduced types.
- CgnStatements.VisitCoalesceTo: `x ??= e` as a statement only, as its value is not defined on the path that does not
  assign.
- Statements.CoalesceToRuns: the same.
- CgnStatements.VisitSwitch: the value is an integer already, and case values are given as integers of its type.
- CgnStatements.VisitCases: case values are not cast.
- Functions.CreateFunction: functions without parameters.
- In the lowering, a declaration has one stack slot and is told apart by its place in the program; reads and writes
  go by name, and the world answers a read from all that has happened so far.
- Goto and labels in the lowering: gotos emit no destructor calls.  `Labels` covers their targets.
- In the lowering, values are integers that a cast normalizes, and operators are functions of the world; widths
  and wrap-around are in `Numeric`.
- In the lowering, local arrays with destructors are one destructor call; the loop is in `ArrayLoops`.
- Temporaries in the lowering.
- A switch without cases: the grammar has none, and generation relies on it.
- Nested functions (lambdas), and templates as a whole: the expansion of templates is not bounded.
- Formatter: lambdas, arrow operators with arguments or on types, template arguments, and struct, class, enum and
  function headers.  A data type is one token, so that declarations are told apart from expressions by it.
- Formatter: white space and indentation, except that visits restore the indentation.
- TypeManagers.TypeManager.Intern: stands for the getters of arrays, pointers, references, copy references and
  functions, whose maps are one map with marked keys.
- Vec types in the type table: getVec uses the map of arrays (src/Type.cpp:438), so that tables with both are not
  canonical.
- Aliases in the type table: a lookup gives the type an alias stands for.
- TypeManagers.TypeManager.AddMembers: whether a member type has a constructor or destructor is given with the group.
- TypeManagers.TypeManager.CreateEnum: the names of the members; their values are left out.
- TypeTable.ContainmentIsWellFounded: rank 0 is for types without a size, so that nothing holds them by value.
- Numeric.ConvIsJoin: for scalar types without const; enums have the number of their members as size, and
  floating-point rounding is not modelled.
- ArrayLoops.ConstructorRuns: for constructor calls whose arguments open no block, and arrays that fit into the
  address space; any other length is in `ArrayLoops.ConstructorHits`.
- ArrayLoops.DestructorRuns: the errors for a constant size that is not positive, or not an integer, are left out.
- NewArrays.NewExpression: for one dimension of a class with a constructor; the address that `malloc` returns is an
  input.
- Overloads.ExactSignatureWins: for functions of different parameters; the symbol table only keeps types apart,
  and those include the result.
- Imports.LoadProgram: that two names are names of one file is an assumption on what paths lead to.
- Symbols.Builder.GetBuiltinFunc: a local named `malloc` or `free`, which the source finds first and takes for a
  function (src/Builder.cpp:427-473), is left out.
- Symbols.Builder.CreateGlobalVar: starts after the checks of type and initializer.
- Class declarations, operator overloads and attributes other than `mangle`.
