# Geblang in Dafny

Geblang is an embeddable scripting language. A program runs in one of two back ends: a tree-walking evaluator, which its
README (line 247) calls the reference semantics, and a one-pass compiler to stack bytecode with a virtual machine. The
project models the parts of the repository where being right is hard, and proves them right, or says exactly when they
are:

- **The control-flow compiler** (`Syntax`, `Semantics`, `Machine`, `ExprGen`, `StmtGen`, `Emitter`, `Compiler`,
  `Folding`). Statements with five ways to end (normal, break, continue, return, throw), `finally`, `with` and
  iterator clean-up inlined wherever a jump leaves, back-patched absolute jump targets, fused branches and
  self-updates. The class `Compiler.Compiler` works as the original does, on an instruction buffer, a loop stack, a
  finalizer stack and scopes that it changes in place; `ExprGen` and `StmtGen` say as functions what it must emit;
  `Machine` is the virtual machine; `Semantics` says structurally what statements mean, for the evaluator and for
  compiled code.
- **What programs and values come to** (`Placement`, `Laws`): which programs are accepted, said of their text alone,
  and what the values and operators are that both back ends share, said without the functions that compute them.
- **Compiler correctness** (`Relation`, `Landing`, `ExprCorrect`, `StmtForms`, `StmtSteps`, `StmtSim`, `Shapes`,
  `Correct`, `Boxes`, `RealMachine`), for every program, every start and every number of steps: first on a machine with
  one kind of ints, then, with the exact condition, on one that boxes some of them as the original does.
- **Agreement of the two back ends** (`Hidden`, `Widening`, `Agreement`, `Differences`, `Tame`, `EndToEnd`): the exact
  places where they part, a condition on program text under which they never do, and the theorem from source text to
  machine against the evaluator.
- **Safety of the emitted code** (`Closed`, `Levels`, `Nesting`): jump targets, stack depths, resources given back.
- **The module loader** (`Mutex`, `Loading`, `Workers`, `Callbacks`, `Pool`): the reentrant lock under every
  interleaving, recursive loading with cycle detection and fallback to built-in modules, worker virtual machines with
  write-back of module globals, which modules may call each other, and the pool the workers come from.
- **Class tables** (`Dispatch`, `Abstractness`, `Constraints`): devirtualised calls, the abstract-method check across
  modules, generic constraints kept as strings.
- **The binary form of chunks** (`Wire`, `Records`, `Printing`, `Parsing`, `Writing`, `Reading`, `Fitting`,
  `RoundTrip`, `Stable`, `Codec`, `Format`): the printer and the parser, each field by field in its own order, as
  functions and as they run, their agreement for any order of maps, and the bytes of small records.
- **The argument binder and the import walk** (`Binding`, `Imports`).

Runs that may not end are given fuel. Equal outcomes for every fuel, running out included, mean that both end alike or
neither ends.

## Model

| member | source | states |
|---|---|---|
| `RealMachine.Adequate` | internal/bytecode/vm.go:1111-1141 | For every function body the compiler accepts, on the machine that boxes ints as the original does: from every start from which no fused remainder branch meets a box, the machine stops exactly when the statements come to an end, and then with the same result or error, output, variables and stacks |
| `RealMachine.ModExact` | internal/bytecode/vm.go:1112-1124 | At a fused remainder branch on an int the machine does what the machine without boxes does if and only if the slot holds no box |
| `RealMachine.Forward` | internal/bytecode/compiler_statements.go:800-808 | The same step by step, under any handlers of the caller: as long as no fused remainder branch meets a box the body ends as the statements do, with the handler stack and, unless it throws, the operand stack as before; a run out of fuel is that many machine steps without an end |
| `Boxes.BoxesShow` | internal/runtime/vmvalue.go:52-68 | A run on the machine with boxes is, with the boxes erased, the run without them, step for step and for ever, if and only if no fused remainder branch that it reaches finds its local boxed |
| `Boxes.NoModSmooth` | internal/bytecode/compiler_expressions.go:3543-3579 | Code without a fused remainder branch never meets one |
| `Boxes.SmallSmooth` | internal/bytecode/vm.go:1142-1171 | Nor does a run that starts without boxes, loads no folded int and computes no int outside 64 bits |
| `Boxes.OperatorBoxed` | internal/bytecode/vm.go:1142-1171 | The result of an operator is boxed exactly when it is an int and an operand was boxed or it needs more than 64 bits; what else is marked stays |
| `Boxes.UpdateBoxed` | internal/bytecode/vm.go:1142-1171 | The result of a fused update is boxed exactly when it needs more than 64 bits |
| `Boxes.RangeBoxed` | internal/bytecode/vm.go:1431-1434 | The values of a range are boxed exactly when a bound of it needs more than 64 bits, or they do |
| `RealMachine.FoldedTrips` | internal/bytecode/compiler_expressions.go:3374-3384 | Input: a local set to the folded 2 + 3 and tested for being even; the machine raises, the evaluator goes on |
| `RealMachine.OverflowTrips` | internal/bytecode/vm.go:1142-1171 | Input: the same for a local that overflowed 64 bits |
| `RealMachine.NeverStuck` | internal/bytecode/compiler_statements.go:800-808 | From its entry to its end, or until a fused remainder branch meets a box, the body's code never misses an operand or a slot, pops no handler that is not there and jumps nowhere outside, on every run, also under a caller's handlers |
| `EndToEnd.CompileBody` | internal/bytecode/compiler_statements.go:800-808 | The compiler, run on an empty buffer, accepts a body exactly when every name is bound where it is used and every break and continue stands in a loop of the body; the code left in the buffer is balanced on every run; for a tame body, such as any without catch beside finally, without loops over generators and with x++ and x-- for their effect only, it stops exactly when the evaluator comes to an end and with its result, from every start from which no fused remainder branch meets a box; and without such a branch in the code there is no other start |
| `EndToEnd.Reference` | internal/bytecode/compiler_statements.go:800-808 | For any accepted body, tame or not: from a start whose reference run meets none of the places where the back ends part, and whose machine run meets no box at a fused remainder branch, the machine does what the evaluator does, also when that does not end |
| `EndToEnd.GivesBack` | internal/bytecode/compiler_statements.go:1242-1269 | When the machine has stopped, on a return or on an error, every with-resource entered has been exited once, innermost first; for a tame body every iterator opened has been closed once as well |
| `Compiler.Compiler.CompileFunction` | internal/bytecode/compiler_statements.go:800-808 | Accepts a body exactly when it is placed, in the sense of Placement.Accepted; compiles it apart from the loops and finalizers around it and restores them; the buffer, with the enclosing loops' jumps as they will be patched, grows by exactly the code whose behaviour is proved |
| `Placement.Accepted` | internal/bytecode/compiler_statements.go:826-839 | A body has a layout if and only if, in its text, every name that is read or assigned is bound where it stands and every break and continue stands inside a loop of the body, finally blocks judged where their try statements stand although the compiler inlines them elsewhere |
| `Compiler.Compiler.CompileActiveFinalizers` | internal/bytecode/compiler_statements.go:1242-1269 | Emits the clean-up of the finalizers from the innermost out to the given depth, each in the scopes and loops it was pushed in and none inside itself, and restores the compiler's stacks |
| `Compiler.Compiler.CompileTry` | internal/bytecode/compiler_statements.go:870-925 | The in-place emission and patching of try, catch and finally leaves the code that StmtSim.SimTry proves right, with no listed jump lost or patched twice |
| `Compiler.Compiler.CompileForIn` | internal/bytecode/compiler_statements.go:525-595 | The same for the for-in loop over one variable, with break and continue jumps collected and patched |
| `Compiler.Compiler.CompileReturn` | internal/bytecode/compiler_statements.go:248-260 | Inside a function: the value, kept in a fresh slot while the finalizers run when there are any, then all clean-up, then the return |
| `Emitter.FillJump` | internal/bytecode/compiler_statements.go:826-868 | A break or continue jump that is emitted open and listed with its loop is, once the loop's list is patched, a jump to the right target, and no other instruction changes |
| `StmtSim.SimBlock` | internal/bytecode/compiler_statements.go:1427-1436 | A block's code, at any place in any code, does what the block means, for each of the five ways to end; when it is left by a jump the machine stands at the code for what is still to be cleaned up |
| `StmtSim.SimWhile` | internal/bytecode/compiler_statements.go:411-430 | The same for while loops, for every number of iterations |
| `StmtSim.SimFor` | internal/bytecode/compiler_statements.go:481-523 | The same for C-style loops: clause scope, optional parts, continue jumping to the update |
| `StmtSim.SimForIn` | internal/bytecode/compiler_statements.go:525-595 | The same for for-in loops over one variable: iterator slots, and closing the iterator on break, return and normal end |
| `StmtSim.SimTry` | internal/bytecode/compiler_statements.go:870-925 | The same for try, catch and finally, including finally blocks that return, break, continue or throw themselves |
| `StmtSim.SimWith` | internal/bytecode/compiler_statements.go:933-969 | The same for with: entered once, exited once on every way out |
| `StmtSim.SimIf` | internal/bytecode/compiler_statements.go:1271-1301 | The same for if with else-if branches |
| `ExprCorrect.EvalSim` | internal/bytecode/compiler_expressions.go:279-439 | An expression's code leaves exactly its value on the stack, or raises what evaluating it raises, with the assignments made so far; what the operators' values are is said by the laws in Laws |
| `ExprCorrect.AndSim` | internal/bytecode/compiler_expressions.go:1713-1747 | && tests both operands for being bools, and evaluates the right one only after a true left one |
| `ExprCorrect.CoalesceSim` | internal/bytecode/compiler_expressions.go:1801-1815 | ?? evaluates its right operand only when the left one is null |
| `ExprCorrect.TernarySim` | internal/bytecode/compiler_expressions.go:1245-1261 | The conditional expression evaluates one branch |
| `ExprCorrect.CompareSim` | internal/bytecode/compiler_expressions.go:3522-3531 | A fused compare-and-branch on two operands statically known to be ints branches as the comparison, then the test of its result, would |
| `ExprCorrect.ModSim` | internal/bytecode/compiler_expressions.go:3543-3579 | On ints without boxes the fused branch on local % c == 0 or != 0 is one step that branches as the unfused remainder and comparison would; RealMachine.ModExact says when the boxes of the original make it fail |
| `ExprCorrect.SelfSim` | internal/bytecode/compiler_expressions.go:2613-2667 | A fused x = x + y or x = x - y equals the assignment it stands for |
| `Laws.Negation` | internal/evaluator/evaluator.go:6539-6541 | -e is the number that adds up to 0 with the value of e, in the same environment; of anything but an int it is a fault |
| `Laws.NegationCode` | internal/bytecode/compiler_expressions.go:448-452 | So the code of -e leaves, above what was on the stack, the number that adds up to 0 with the value of e |
| `Laws.Complement` | internal/evaluator/evaluator.go:6532-6537 | !e is the other bool; of anything but a bool it is a fault |
| `Laws.ComplementCode` | internal/bytecode/compiler_expressions.go:448-450 | And so is what its code leaves |
| `Laws.Sums` | internal/evaluator/evaluator.go:7124-7131 | Sum and difference undo each other, and a product is a repeated sum |
| `Laws.Quotients` | internal/evaluator/evaluator.go:7132-7143 | Quotient and remainder give the dividend back, with the remainder on the divisor's side; by 0 both are faults |
| `Laws.Comparisons` | internal/evaluator/evaluator.go:6599-6611 | Of two ints just one of <, == and > holds, and the other three comparisons are what is left |
| `Laws.Mismatch` | internal/evaluator/evaluator.go:6599-6625 | All binary operators but == and != fault on anything but two ints, xor on anything but two bools |
| `Laws.Both` | internal/bytecode/compiler_expressions.go:1713-1730 | && of two bools is true when both are; the right one is evaluated only after a true left one |
| `Laws.Either` | internal/bytecode/compiler_expressions.go:1731-1746 | or of two bools is true when one is; the right one is evaluated only after a false left one |
| `Laws.Chosen` | internal/bytecode/compiler_expressions.go:1801-1815 | ?? is its left operand unless that is null; a conditional expression is its first branch on true, its second on false, and a fault on anything else |
| `Laws.Assigning` | internal/bytecode/compiler_expressions.go:2613-2667 | After an assignment the name has the value, in whatever scope it is bound, and every other name what it had |
| `Laws.Stepping` | internal/evaluator/evaluator.go:6450-6474 | x++ and x-- leave the next or the previous number; they yield it in the evaluator, and in compiled code the number that was there (internal/bytecode/vm.go:1021-1040); of anything but an int they fault |
| `Laws.RangeLoops` | internal/evaluator/evaluator.go:5089-5167 | In the evaluator a range over ints with a step other than 0 starts an iterator over start, start + step and so on, as long as they are up to the end, or short of it when that is left out, and over nothing else; other bounds are a fault |
| `Laws.EachLoops` | internal/evaluator/evaluator.go:2638-2740 | A loop over a list or a generator goes through its values in order; a generator is opened and closed, a list is not, and over anything else there is no loop |
| `Laws.LoopPrints` | internal/evaluator/evaluator.go:2638-2740 | `for (x in ..) print x` prints what the iterator holds, in order, between its opening and its closing, and nothing else |
| `Laws.WhileCounts` | internal/evaluator/evaluator.go:1399-1425 | `while (x < n) { print x; x = x + 1 }` prints the numbers from x up to n, in order |
| `Laws.IfPrints` | internal/bytecode/compiler_statements.go:1271-1301 | `if (b) print a else print c` prints the one or the other |
| `Laws.WithPrints` | internal/bytecode/compiler_statements.go:933-969 | `with (r) { print v }` shows that r is entered, v printed, r exited |
| `Laws.TryPrints` | internal/evaluator/evaluator.go:2389-2428 | `try { return a } finally { print c }` prints and then returns a; a thrown error that is caught prints in the catch clause and then in the finally block, and is no longer pending |
| `Laws.Missing` | internal/bytecode/compiler_statements.go:248-260 | A return without a value returns null, and a variable without one starts as null |
| `Laws.Taken` | internal/evaluator/evaluator.go:2555-2586 | Which kinds of errors a catch clause takes: all but a fatal one without a kind; the kind itself, all for Error, timeouts and TLS errors for IOError |
| `Laws.FusedWhen` | internal/bytecode/compiler_expressions.go:3543-3579 | A condition is fused into a branch on a remainder exactly when it tests one of a local that counts as an int, by a positive literal of 64 bits, for being 0 or not |
| `Laws.CountsAsInt` | internal/bytecode/compiler_expressions.go:2956-2959 | A variable counts as an int when it is declared so, or without a type and starts as an int literal or as a variable that does |
| `Folding.FoldExact` | internal/bytecode/compiler_expressions.go:3374-3420 | Over all 64-bit operands constant folding, with its truncating division, sign correction and overflow case, gives the exact floor quotient and remainder; a zero divisor, and nothing else, is left to run time |
| `Folding.FloorUnique` | internal/bytecode/compiler_expressions.go:3386-3408 | Floor quotient and remainder are the only pair with l = q*r + m and m on the side of r |
| `Folding.FloorLaw` | internal/bytecode/compiler_expressions.go:3386-3408 | Floor quotient and remainder give the dividend back, with the remainder on the divisor's side |
| `Folding.Bits` | internal/bytecode/compiler_expressions.go:3374-3384 | The bounds of 64-bit ints, by doubling |
| `Closed.FunctionClosed` | internal/bytecode/compiler.go:467-474 | Every jump, handler and clause target of an accepted function is an instruction of that function |
| `Closed.NothingOpen` | internal/bytecode/compiler.go:467-474 | No target of an accepted function is left at -1 |
| `Levels.FunctionFits` | internal/bytecode/compiler_statements.go:1242-1269 | Every point of a function's code can be given one operand depth and one handler depth with which all ways to it agree |
| `RealMachine.DepthOfPoint` | internal/bytecode/vm.go:3364-3399 | On every run, with boxes, and after every number of steps both stacks are as deep as the current point says, every handler leads to a point with just the handlers below it, and a function that has ended leaves both stacks as they were, but for an error nobody handles |
| `Nesting.Statement` | internal/evaluator/evaluator.go:2438-2470 | However a statement ends, resources have been exited once each and innermost first, in both back ends; in the evaluator, iterators closed too |
| `Nesting.HeldIs` | internal/evaluator/evaluator.go:2438-2470 | Unless something was given back out of order, what is held after a trace is what was entered and not exited, and opened and not closed, as often as that |
| `Nesting.InnerFirst` | internal/evaluator/evaluator.go:2438-2470 | Of two resources the inner one has to be exited first |
| `Agreement.Block` | internal/evaluator/evaluator.go:2389-2428 | A run of the evaluator that meets none of the places where the back ends part - in how statements are left, or in what a statement itself evaluates, where that shows - ends in the same way in compiled code, or goes on for ever in both |
| `Agreement.Exact` | internal/evaluator/evaluator.go:2389-2428 | Both directions: no run of any statement of a program meets such a place if and only if every statement of it ends alike in both back ends, from every world |
| `Agreement.CatchExact` | internal/bytecode/compiler_statements.go:882-907 | A catch clause beside a finally block ends alike in both if and only if its body does not throw past a finally block that does something, and is not left by a jump past one that ends otherwise in the catch scope |
| `Agreement.UncaughtExact` | internal/bytecode/compiler_statements.go:908-923 | An error that no clause takes ends alike in both if and only if the finally block leaves the pending error as it was, or clears it and then throws that very error when it is run again |
| `Agreement.LoopExact` | internal/evaluator/evaluator.go:2638-2830 | Leaving a for-in loop ends alike in both if and only if it is not an error leaving a loop over a generator |
| `Agreement.StepExact` | internal/bytecode/compiler_expressions.go:459-508 | x++ and x-- come to different values in the two wherever they come to a value, and to the same where only their effect counts |
| `Agreement.RangeExact` | internal/bytecode/compiler_statements.go:525-548 | A range whose bounds each come to the same comes to the same if and only if the bounds after one that is not an int, which the evaluator leaves out, would change nothing |
| `Tame.Unseen` | internal/bytecode/compiler_statements.go:1230-1236 | A finally block that uses no name of the catch scope ends alike inside that scope and outside |
| `Tame.Agree` | internal/bytecode/compiler_statements.go:870-925 | A condition on program text and the names bound before it - where finally may stand beside catch, what it may hold and name, what a for-in loop runs over, where x++ may stand and where ranges may assign - under which both back ends end alike from every world that binds those names, and for every fuel |
| `Tame.UnmixedIsTame` | internal/bytecode/compiler_statements.go:870-925 | Tame is every program whose loops run over ranges or literal lists, whose finally blocks have no catch clauses beside them and no try statement inside, which uses x++ and x-- for their effect only and assigns in no range's second or third bound |
| `Tame.CaughtAndDone` | internal/bytecode/compiler_statements.go:870-925 | And so is a program with a catch clause beside a finally block, of any kind, that stores and prints the error |
| `Differences.ThrowInCatch` | internal/bytecode/compiler_statements.go:882-907 | Input on which compiled code skips a finally block |
| `Differences.TryInFinally` | internal/bytecode/vm.go:3357-3362 | Input on which compiled code runs a finally block twice and loses the error |
| `Differences.WrongError` | internal/bytecode/vm.go:3357-3362 | Input on which compiled code goes on with another error than the evaluator |
| `Differences.FinallySeesCatch` | internal/bytecode/compiler_statements.go:1230-1236 | Input on which an inlined finally block reads the catch variable in place of the outer one |
| `Differences.CapturedName` | internal/bytecode/compiler_statements.go:1230-1236 | An inlined finally block that prints x differs if and only if x means something else in the catch scope than outside |
| `Differences.ThrowInLoop` | internal/bytecode/compiler_statements.go:561-592 | Input on which compiled code leaves a generator open |
| `Differences.StepValue` | internal/bytecode/compiler_expressions.go:459-508 | Input: print x++ prints different numbers |
| `Differences.RangeFault` | internal/bytecode/compiler_statements.go:538-548 | Input: a range that fails on its first bound has assigned in its second in compiled code only |
| `Binding.Order` | internal/binding/binding.go:101-177 | Finds a binding - every argument used once, a named one by the last parameter that is the same up to case, positional ones in the leftmost free parameters, unfilled parameters defaulted or variadic - exactly when there is one, and what a refusal says is so: too many arguments, no such parameter, passed twice, missing |
| `Binding.Unique` | internal/binding/binding.go:101-177 | There is at most one such binding |
| `Binding.PositionMeans` | internal/binding/binding.go:142-159 | The parameter that is found for a name is the last one that is the same up to case - equal or the small and the large form of one letter, character by character - and none is found exactly when none is |
| `Binding.ByPosition` | internal/binding/binding.go:117-140 | A positional call has a binding exactly when it has no more arguments than parameters, but for a variadic last one, and those it does not reach have defaults |
| `Binding.CaseInput` | internal/binding/binding.go:142-163 | Input: f(name) called with Name binds, called with game it does not |
| `Binding.RestInput` | internal/binding/binding.go:117-140 | Input: f(a, b = .., ...rest) with one, four and no arguments |
| `Binding.NativeArgOrder` | internal/binding/binding.go:57-82 | Fails exactly when an argument follows an unfilled parameter, and names the first such parameter |
| `Binding.Conserved` | internal/binding/binding.go:57-82 | Slots and tail together hold every argument index exactly once, and so does the native order |
| `Binding.InSourceOrder` | internal/binding/binding.go:57-82 | For a positional call there is no gap and the native order is the source order |
| `Binding.PassArguments` | internal/bytecode/compiler_expressions.go:2685-2739 | Binding, trimming and emission in a row, for any parameter offset: a call is refused exactly when it has no binding; else every argument is pushed once, by position or by name where it belongs, and every hole before the last of them pushes a default constant with a valid index |
| `Constraints.ConstraintExprSatisfied` | internal/bytecode/vm_classes.go:1870-1886 | The recursive evaluator of constraint strings, loops and in-place trimming included, computes the function of the string that ShowMeans is about |
| `Constraints.ShowMeans` | internal/bytecode/compiler.go:653-661 | The string stored for a tree of constraints is satisfied exactly when the tree is, at any nesting depth |
| `Constraints.NameIsSafe` | internal/bytecode/vm_classes.go:1870-1929 | Exactly which bare names survive being stored as a string and read back |
| `Constraints.TrimIs` | internal/bytecode/vm_classes.go:1871 | What is cut off a string at both ends is white space as Unicode has it, and none is left there |
| `Constraints.Unbracketed` | internal/bytecode/vm_classes.go:1870-1880 | In a string without parentheses "and" binds tighter than "or" |
| `Constraints.ShowInput` | internal/bytecode/compiler.go:653-661 | Input: the string of a small constraint, and what it means |
| `Mutex.Exclusion` | internal/bcloader/loader.go:53-70 | In every interleaving: at most one goroutine between Lock and its Unlock, count is its nesting depth, and the channel is full exactly while some goroutine is inside or in transition |
| `Mutex.OwnerTest` | internal/bcloader/loader.go:53-62 | The test for re-entry succeeds exactly for the goroutine that holds the lock |
| `Mutex.NoDeadlock` | internal/bcloader/loader.go:53-70 | A goroutine that is blocked is blocked by another one that is engaged and can go on |
| `Mutex.ZeroIdBreaks` | internal/bcloader/loader.go:53-62 | Goroutine ids must not be 0: with that id two goroutines get in |
| `Loading.Loader.LoadModule` | internal/bcloader/loader.go:179-275 | Loading ends on every import graph and leaves the set of loads in flight, the search paths and the lock depth as they were. What is on record stays, and a recorded name is answered from there; a new success is the module of the file the name resolves to exactly when that is not being run already, and then the file is usable and its unguarded imports are on record, and the built-in module otherwise; each failure says what is wrong; and records of the right kind stay so. It does to the records what the function Load says |
| `Loading.LoadAnswers` | internal/bcloader/loader.go:179-275 | The same of the function Load that the theorems on loading are about |
| `Loading.OnlyLed` | internal/bcloader/loader.go:246-275 | A load puts nothing on record but the name itself and what its file imports, directly or through other files |
| `Loading.Exact` | internal/bcloader/loader.go:179-275 | A load from outside succeeds exactly when the name is loadable by itself, whatever was loaded or failed before, and leaves only such names on record, if and only if every unguarded import of a loadable name is loadable by itself and no load leaves a built-in name on record that is not |
| `Loading.ExactByAsking` | internal/bcloader/loader.go:188-203 | Where loadable names guard no import that is not loadable, the same with a condition on the files alone: unguarded imports of loadable names are loadable, and loading no name that is not loadable comes to ask for a built-in name, not loadable either, whose file is in flight |
| `Loading.History` | internal/bcloader/loader.go:179-275 | It is enough that imports of loadable names are loadable, and that a built-in name its own file leads back to is loadable |
| `Loading.SelfFreeSteady` | internal/bcloader/loader.go:188-203 | And enough that no built-in name is imported, directly or through other files, by the file it resolves to |
| `Loading.EntryMatters` | internal/bcloader/loader.go:188-203 | When a loadable name needs, without a guard, one that is not built in and that needs it in turn through any number of files, the second one cannot be loaded first, but is on record after the first |
| `Loading.Leftover` | internal/bcloader/loader.go:197-203 | Where loading a name that is not loadable comes to ask for a built-in name, not loadable either, whose file is in flight, loading is not independent of its history in the sense of Loading.Exact |
| `Loading.OrderMatters` | internal/bcloader/loader.go:188-203 | Input on which every load before it succeeds: m and k import each other, m is built in, k loads only after m |
| `Loading.FailureRemembered` | internal/bcloader/loader.go:197-203 | Input on which a failed load leaves the built-in module behind, and loading again succeeds |
| `Workers.OneLiveEnvironment` | internal/bcloader/loader.go:350-413 | A call into another module, with any nesting, re-entry and throwing, reads and leaves the module globals that direct use of one live environment per module would, if each active worker of a called module is among the hosts of its caller |
| `Workers.NearestHost` | internal/bcloader/loader.go:350-361 | A call runs on the nearest worker of its module among the first 4097 of the caller and its hosts, and starts a new one when the nearest is farther away or there is none |
| `Workers.ShallowBorrows` | internal/bcloader/loader.go:350-361 | With at most 4097 workers at work a call to any module among the caller and its hosts is given the nearest of them |
| `Workers.RingLent` | internal/bcloader/loader.go:350-361 | Input that comes back to its module three modules deep: the outer function reads what the inner one has written, with workers as with one live environment |
| `Workers.WrittenRead` | internal/bytecode/vm_lifecycle.go:416-430 | A slot that was written reads as what was written, any other as what it was, and what is beyond the slots is a fault |
| `Callbacks.Exact` | internal/bcloader/loader.go:350-413 | A relation between modules that says who may call whom: all code that respects it reads and leaves what one live environment per module would, for every fuel, record and argument, if and only if the relation, apart from calls of a module to itself, has no cycle |
| `Callbacks.LayeredModules` | internal/bcloader/loader.go:350-413 | In particular when modules call only themselves or modules below them in some order |
| `Workers.SecondWorker` | internal/bcloader/loader.go:350-364 | Input that shows a condition is needed: on the call pattern m, n, m, n the second worker's write is not seen by the outer function, and stays on record because the first worker writes back only what it has reassigned |
| `Pool.Loader.CallModuleFunction` | internal/bcloader/loader.go:430-457 | The heap of workers - borrowing along hosts, fetching from the pool, write-back of reassigned slots, recycling - does to the globals what the function Call says, and keeps the pool's invariants |
| `Pool.Loader.CallFromOutside` | internal/bcloader/loader.go:430-457 | From outside, a proper call leaves the records that one live environment per module would, and no worker at work |
| `Pool.Loader.Release` | internal/bcloader/loader.go:395-413 | A worker is pooled exactly when its call did not throw, no closure captures it and fewer than 256 are idle; it has been written back either way |
| `Pool.Loader.HostFor` | internal/bcloader/loader.go:350-364 | The walk along the hosts finds the nearest active worker of the module among the first 4097, and none exactly when there is none among them |
| `Dispatch.StaticallyResolve` | internal/bytecode/compiler_expressions.go:3118-3161 | Binds a call exactly when the class is neither exported nor decorated nor generic, has just one overload of the method, undecorated, no class under it overrides it or is exported, and that overload is a plain function with one slot more than there are arguments |
| `Dispatch.ClassHasSubclassOverriding` | internal/bytecode/compiler_classes.go:717-739 | The two loops over classes and parents find exactly the classes under c that have the method or are exported |
| `Dispatch.Exact` | internal/bytecode/vm_classes.go:1376-1384 | On a complete table: the bound function is what dynamic lookup finds for every receiver in every program with the chunk, whatever other modules define, if and only if the class is not exported and nothing under it overrides or is exported |
| `Dispatch.Early` | internal/bytecode/compiler_classes.go:741-757 | On the table as it is while a class is compiled - that class with its parent and the methods before, later ones as stubs: the bound call is right in every program if and only if its class gets no other overload of the method and no class under it that is not compiled yet, or not yet known to be one, overrides or is exported |
| `Dispatch.BoundTooEarly` | internal/bytecode/compiler_classes.go:741-757 | Input on which a call is bound to a method that a later class overrides |
| `Dispatch.OverloadTooLate` | internal/bytecode/compiler_classes.go:390-408 | Input on which a call inside the class is bound to the first of two overloads, the second of which comes later |
| `Abstractness.WalkChain` | internal/bytecode/vm_classes.go:1510-1537 | In one module the walk reports, in whatever order maps are read, exactly the methods abstract somewhere and concrete nowhere, with their nearest declarers |
| `Abstractness.Unimplemented` | internal/bcloader/loader.go:931-980 | Across modules it reports exactly the methods that some module's part abstracts and neither it nor a nearer one implements |
| `Abstractness.BoundaryFree` | internal/bytecode/vm_classes.go:1538-1548 | Module boundaries make no difference if and only if no method is abstracted again over an implementation in a module farther up |
| `Abstractness.CutMatters` | internal/bytecode/vm_classes.go:1538-1548 | Input on which they do |
| `Imports.WalkImports` | internal/bundle/bundle.go:274-336 | The walk ends on every import graph; it succeeds exactly when everything reachable is readable and every import has a source or is built in; and then its result is exactly the entry and every name with a source imported by a reachable file, each with its file |
| `Imports.EntryShadows` | internal/bundle/bundle.go:305-308 | Every wanted name is mapped to the file it resolves to if and only if no reachable file imports the entry's name where that resolves elsewhere |
| `Codec.Exact` | internal/bytecode/bytecode.go:565-1175 | The printer, spelt out field by field, and the parser, spelt out on its own: in whatever order its maps are printed, a chunk is printed and comes back - match names in lower case, lists about fields filled up - if and only if it has no value that cannot be printed and every length, count and line fits its width |
| `Codec.WriteAndRead` | internal/bytecode/bytecode.go:565-1175 | The same for the printer with its growing buffer and the reader with its position and one sticky failure, run one after the other |
| `Codec.Whole` | internal/bytecode/bytecode.go:1166-1171 | No file of a chunk that fits can be cut short or added to and still be parsed |
| `Codec.ReadAgain` | internal/bytecode/bytecode.go:881-1175 | Whatever file is parsed, however it came about: its content fits, and printed again in any order is parsed as the same content |
| `Codec.OrderFree` | internal/bytecode/bytecode.go:1041-1048 | Every order of printing a table gives the same table when read in lower case if and only if keys that are the same in lower case have the same values |
| `Codec.CaseClash` | internal/bytecode/bytecode.go:1041-1048 | Input on which the order matters: names that differ only by case |
| `RoundTrip.FunctionBack` | internal/bytecode/bytecode.go:597-681 | A function that fits is printed and found again, at any place of any file |
| `RoundTrip.ClassBack` | internal/bytecode/bytecode.go:683-809 | So is a class, with its tables in any order |
| `RoundTrip.InterfaceBack` | internal/bytecode/bytecode.go:811-855 | So is an interface |
| `RoundTrip.ConstantBack` | internal/bytecode/bytecode.go:1177-1326 | So is every kind of constant, numbers as their decimal text |
| `RoundTrip.DecoratorBack` | internal/bytecode/bytecode.go:1420-1448 | So is a decorator, with arguments nested to any depth |
| `Stable.ChunkStays` | internal/bytecode/bytecode.go:881-1175 | Whatever the parser finds fits, is in lower case and filled up, and is found again when more bytes follow |
| `Records.PrintedBack` | internal/ast/ast.go:847-874 | The literal parser, with its underscores, bases and signs, reads every printed integer as itself |
| `Writing.Encode` | internal/bytecode/bytecode.go:565-879 | The printer with its loops and early refusals computes the function the round trip is about |
| `Reading.Decode` | internal/bytecode/bytecode.go:881-1175 | The reader accepts exactly the files that parse, and gives their content |
| `Reading.ByteReader.NextFunction` | internal/bytecode/bytecode.go:924-989 | Read by read it goes on as the parser does, or has failed and stays so; the other Next methods alike |
| `Format.Header` | internal/bytecode/bytecode.go:883-900 | Whatever is parsed starts with GEBBC, version 92 and the hash of its source |
| `Format.Big` | internal/bytecode/bytecode.go:565-600 | Numbers are printed with the most significant byte first |
| `Format.ConstantBytes` | internal/bytecode/bytecode.go:1177-1326 | The tags of constants with one value or none, byte for byte |
| `Format.FunctionBytes` | internal/bytecode/bytecode.go:597-681 | A function whose fields are numbered in the order of the file, byte for byte |
| `Format.ClassBytes` | internal/bytecode/bytecode.go:683-809 | So a class, with -1 and empty texts where lists about fields are too short |
| `Format.InterfaceBytes` | internal/bytecode/bytecode.go:811-855 | So an interface |
| `Format.EnumBytes` | internal/bytecode/bytecode.go:1243-1273 | So an enum |
| `Format.DecoratorBytes` | internal/bytecode/bytecode.go:1420-1448 | So a decorator |
| `Format.FunctionMetadataBytes` | internal/bytecode/bytecode.go:1347-1395 | So a function's metadata |
| `Format.ChunkHeadBytes` | internal/bytecode/bytecode.go:565-577 | So the head of a chunk |
| `Format.ChunkTailBytes` | internal/bytecode/bytecode.go:857-879 | And its tail |
| `Format.IntBytes` | internal/bytecode/bytecode.go:1177-1200 | An int is printed as its decimal text |
| `Format.LiteralInts` | internal/ast/ast.go:847-874 | Inputs of the literal parser: underscores, signs, the three bases, and texts it refuses |
| `Format.ReadLower` | internal/bytecode/bytecode.go:1041-1048 | Whatever is parsed has no capital letter in a method or parameter name |

## Findings

Places where the code does not do what the reference semantics or the code's own comments promise. Each has a lemma with
an input, and the exact condition where one is known.

1. **A throw inside a catch body skips `finally` in compiled code.** No handler guards catch bodies
   (`internal/bytecode/compiler_statements.go:882-907`), while the evaluator runs the block
   (`internal/evaluator/evaluator.go:2416-2426`). `Differences.ThrowInCatch`; exact condition `Agreement.CatchExact`.
2. **A `finally` block that handles an error of its own runs twice and loses the error it was entered with.** The
   handled error clears the pending one (`internal/bytecode/vm.go:3425-3426`), `OpRethrow` with nothing pending falls
   through (`internal/bytecode/vm.go:3357-3360`), and what follows is the block's copy for normal ends
   (`internal/bytecode/compiler_statements.go:913-923`). `Differences.TryInFinally`; exact condition
   `Agreement.UncaughtExact`.
3. **A `finally` block that drops an error of its own, by leaving a loop inside it, goes on with that error in place of
   the one it was entered with**, because `OpRethrow` raises whatever is pending (`internal/bytecode/vm.go:3357-3362`).
   `Differences.WrongError`; same condition.
4. **A `finally` block inlined where a catch body is left sees the catch scope.** Scopes are saved after the catch
   name has been defined, and their maps are shared (`internal/bytecode/compiler_statements.go:890-895`, `1230-1236`).
   `Differences.FinallySeesCatch`. For a body that is left by a jump `Agreement.CatchExact` compares what the block
   comes to in the catch scope and outside; what can be used are `Tame.Unseen`, a condition on names that is enough,
   and `Differences.CapturedName`, which is exact for one name.
5. **An error that leaves a for-in loop does not close the generator in compiled code**
   (`internal/bytecode/compiler_statements.go:578-594`); the evaluator closes it
   (`internal/evaluator/evaluator.go:2638-2830`). `Differences.ThrowInLoop`; exact condition `Agreement.LoopExact`.
6. **Loading depends on what was loaded before**, where a file takes the name of a built-in module that its own
   imports lead back to. A failed load can be remembered as a success: the built-in module is published
   (`internal/bcloader/loader.go:197-201`) and stays when the file's own body then fails
   (`Loading.FailureRemembered`). And a name can be loadable after another one only, though every load before it
   succeeded (`Loading.OrderMatters`). Exact conditions `Loading.Exact` and, on the files alone,
   `Loading.ExactByAsking`; `Loading.SelfFreeSteady` is a simple one that is enough.
7. **Where modules call each other in a cycle, a second worker of one of them can be started** that does not see the
   first one's writes, and whose writes the first one does not see: a lent worker keeps the hosts it was started with
   (`internal/bcloader/loader.go:350-364`). `Workers.SecondWorker`; exact condition `Callbacks.Exact`: some code goes
   wrong on every cycle, and none without.
8. **A method call can be bound too early**, because the class table is asked before it is complete: before a later
   class overrides the method (`internal/bytecode/compiler_classes.go:741-757`, `Dispatch.BoundTooEarly`), or, in a
   method of the class itself, before another overload (`internal/bytecode/compiler_classes.go:390-408`,
   `Dispatch.OverloadTooLate`). Exact condition `Dispatch.Early`.
9. **The abstract-method check depends on where module boundaries are** when a class abstracts a method again that a
   farther class of another module implements (`internal/bytecode/vm_classes.go:1538-1548`,
   `internal/bcloader/loader.go:955-975`). `Abstractness.CutMatters`; exact condition `Abstractness.BoundaryFree`.
10. **The bundler takes the entry's name for the entry's file** without resolving it
    (`internal/bundle/bundle.go:305-308`), so a different module of that name is left out. `Imports.EntryShadows`.
11. **Nothing checks that lengths and lines fit when a chunk is printed.** A line beyond 65535, or a name or doc comment
    longer than 65535 bytes, loses its high bytes (`internal/bytecode/bytecode.go:589`, `1342-1345`), and the file is
    parsed as something else or not at all. Exact condition `Codec.Exact`.
12. **A fused branch on a remainder fails when its local is a boxed int** (`internal/bytecode/vm.go:1120-1124`), where
   the unfused remainder works. Folded constants are boxed (`internal/bytecode/compiler_expressions.go:3374-3384`,
   `internal/bytecode/compiler.go:453-457`), so `int n = 2 + 3; if (n % 2 == 0) {..}` raises in compiled code and not
   in the evaluator (`RealMachine.FoldedTrips`); so are results outside 64 bits (`RealMachine.OverflowTrips`). Exact
   conditions `RealMachine.ModExact` for the branch and `Boxes.BoxesShow` for a run. A chunk that has been written and
   read has unboxed constants (`internal/bytecode/bytecode.go:1576-1586`), so the first input works there.
13. **Which methods a chunk has after it was read can depend on the order in which its maps were written**, if two
   method names differ only by case (`internal/bytecode/bytecode.go:1041-1048`). `Codec.CaseClash`; exact condition
   `Codec.OrderFree`.
14. **The value of `x++` is the number before in compiled code and the number after in the evaluator**
   (`internal/bytecode/vm.go:1021-1040`, `internal/evaluator/evaluator.go:6450-6474`), so `print x++` prints different
   numbers. `Differences.StepValue`; exact condition `Agreement.StepExact`. As a statement, or as the update of a
   loop, it does the same in both.
15. **A range that fails on one bound has evaluated the later ones in compiled code, but not in the evaluator**
   (`internal/bytecode/compiler_statements.go:538-548`, `internal/evaluator/evaluator.go:5092-5165`). Only their
   assignments show. `Differences.RangeFault`; exact condition `Agreement.RangeExact`.

## Left out

Of the control-flow compiler:

- Calls, so also self tail calls (`internal/bytecode/compiler_statements.go:224-230`), closures and their captures,
  defaults computed at run time, generators, `defer`, `match`, `select`, `del`, comprehensions: expressions are over
  ints, bools, null, strings, lists, error values, generators given as lists of values, and variables.
- Code outside functions: a `return` there, and globals that a `let` defines; globals of enclosing code are read and
  set.
- ExprCorrect.EvalSim: the expression forms just listed; calls, type tests, indexing and selectors are not among them.
- StmtSim.SimForIn: one loop variable, no destructuring; a list is run over as it was at the start.
- Compiler.Compiler.CompileForIn: one loop variable; `OpUnpackList` for several is not modelled.
- StmtSim.SimWith: `__enter__` and `__exit__` are events; that they return another value, or throw, is not modelled.
- Nesting.Statement: an `__exit__` that throws is not modelled.
- RealMachine.DepthOfPoint: from an empty handler stack; that the run does not get stuck is `RealMachine.NeverStuck`.
- Faults are one error value, and error texts, stack traces and source lines are not modelled; nor are fatal errors,
  which no clause catches.
- Catch clauses name kinds as they are declared: one that is spelt in another case is taken by the virtual machine
  (`internal/bytecode/vm_primitives.go:1900-1930`) and not by the evaluator
  (`internal/evaluator/evaluator.go:2575-2585`), and that is not modelled.
- The evaluator's second representation of ints, in which range loops count
  (`internal/evaluator/evaluator.go:2597-2635`) and which arithmetic on two such ints keeps: unary minus and `++`
  refuse it there (`internal/evaluator/evaluator.go:6450-6462`, `6538-6556`). In `Semantics` ints are ints.
- A constant stands in the instruction itself and not in a pool. Ints are unbounded, and which of them are boxed is kept
  beside the machine's state (`Boxes`).
- A saved scope is the chain of maps at the time of the push; that the original shares the maps with later definitions
  in the same scope is captured for the catch scope, where it matters, by the point at which they are saved.
- Agreement.CatchExact: for a body that is left by a jump the condition compares the two results; see finding 4.
- Agreement.LoopExact: generators are lists of values with a closing event; a generator whose body throws is not
  modelled.
- Tame.Agree: sufficient and not necessary; the exact condition follows the evaluator's run (`Agreement.Exact`). A name
  declared `int` counts as holding anything, so a catch body beside a finally block that computes with it is not tame.
- Folding.FoldExact: folding of strings, floats and bools is not modelled.

Of the loader:

- Mutex.NoDeadlock: says that somebody can go on, not that the channel is fair.
- Loading.Loader.LoadModule: a name resolves to the same file from everywhere, though the original also searches the
  importing file's directory. Concurrent loads are serialized by the lock, whose safety is `Mutex`'s, and are not
  interleaved here.
- Loading.ExactByAsking: for worlds in which a loadable name guards no import that is not loadable; `Loading.Exact` is
  for all, but its second condition ranges over loads.
- Workers.OneLiveEnvironment: a sufficient condition on one call; calls are sequential; the entry module, which is given
  snapshots of the main virtual machine, and goroutines are not modelled. A function is any function of what it has seen
  so far, with fuel. The exact condition on modules is `Callbacks.Exact`.
- Pool.Loader.CallModuleFunction: calls of the entry module, decorator state, destructors and profiling of workers.

Of class tables, binder and import walk:

- Dispatch.Exact: a class counts as exported as the compiler records it; decorators and type parameters of the
  receiver's class count only towards not binding a call.
- Dispatch.StaticallyResolve: how the static type of the receiver is found, and argument types.
- The one-slot cache of method lookups; interface defaults; operator methods; type arguments of constraints.
- Constraints.ConstraintExprSatisfied: the test of a bare name against a value is a parameter, because it goes through
  the whole type system.
- Constraints.ShowMeans: names without blanks, parentheses and operators; `Constraints.NameIsSafe` says exactly which
  single names are safe.
- Binding.Order: that the compiler's overload selection tries several signatures; the case of letters other than a to z.
- Imports.WalkImports: a name resolves to the same file from everywhere, and a file is read once.

Of the binary form:

- Codec.Exact: for chunks in which no two methods of a class have names that differ only by case; what becomes of
  those is `Codec.OrderFree`. Names are lowered for the letters a to z. Integers have less than 2^32 characters.
  Decimals among constants are their texts. Which of two representations an int constant has, empty against absent
  lists, and the fields that are not printed (`Module`, `DefLine`, `DefColumn` and `Callable` of metadata) are not
  told apart.
- Codec.WriteAndRead: maps that the original prints sorted are printed in any order here; dicts and sets among decorator
  arguments are read as the list of their entries, and the map built from them is not modelled.
- Packing the operands of all instructions into one slab after reading, and the shared metadata.

Not modelled at all: comprehensions, the lexer, parser, semantic analyser and resolver, strings and decimals, hashing
and files, the standard library, and user interfaces.
