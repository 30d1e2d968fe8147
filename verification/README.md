# kaikai, modelled and proved in Dafny

kaikai is a functional language with algebraic effects. Its compiler bootstraps from a C program
(stage 0), and its later stages target LLVM over a C runtime with reference counting. This project
models the parts of it where correctness is least evident, and proves what they are for:

- **Lazy sequences** (`RcHeap`, `SeqPreds`, `SeqWorld`, `SeqMeaning`, `SeqAbsorb`, `SeqFrames`,
  `SeqReads`, `SeqFilter`, `SeqThunks`, `SeqForce`, `SeqRuns`). A heap of reference-counted cells,
  whose one law is that a cell's count is the number of its owners. A filter stage merges with the
  stages below it by reversing their links, and is rewritten in place when only its reader sees it.
  The reader still gets what a plain filter would give, nobody else sees a change, every reference is
  accounted for, and a read comes back with a step whenever no cell it may need is being read and no
  code on its way exits. The thunks of the library (`range`, `map`, `take`, `take_while`, `drop`) are
  run by the model itself, each by reads of the cell that it captured. Code that cannot be seen is a
  `World`: what each predicate and function answers, where it exits, and, for thunks that are not the
  library's, what they yield given what they captured and what running them does to the heap.
- **Constants of a lazy type** (`ConstTable`): one evaluation per fiber, with panics on cycles and
  exits that undo an evaluation.
- **Rebuilding in place** (`Values`, `Reuse`, `Holes`, `Lists`): a matched cell that is reused, a
  list that is built front to back through a hole, and the list functions that call a closure which
  may leave by a non-local exit. A closure has a state of its own outside the heap; which calls were
  made, in which order, and which of them exited can be read off it.
- **Red-black insertion** over nodes with parent pointers (`RedBlackShape`, `RedBlackTree`).
- **The emit pool** (`EmitPool`): worker threads, a queue, a drain at exit, as a state machine in
  which any thread may take the next step.
- **Stage 0's code generator** (`Stage0`, `TailCalls`, `TailCallScopes`, `TailCallProof`,
  `TailCallLimits`, `UseCount`, `CScopes`, `Patterns`): self-tail-calls become jumps, a variable that
  is read once is moved instead of shared, patterns become tests over access paths. The emitted C is
  given a semantics of its own, with C's scopes, moved and unset variables, and a crash for reading
  one; what it computes is compared with what the program means. What the generator decides by walking
  a tree is also stated place by place (`TreePaths`, `TreeReads`, `OkPrograms`, `PatPlaces`,
  `EmitPlaces`): which calls jump, which reads move, which programs are outside the Findings, which
  part of a value a name of a pattern stands for.
- **Stage 0's front end** (`LexRules`, `LexShapes`, `Lexer`, `ExprGrammar`, `ExprParser`,
  `ExprRoundTrip`, `ExprLadder`, `ExprLayout`, `Checker`, `NamePlaces`, `NameSafety`): tokens tile the
  source, parsing undoes writing and obeys the ladder of operators, a program that the name checker
  accepts never looks up an unbound name, and it rejects exactly the programs with an identifier that
  nothing binds.
- **The generator of pattern matches** (`MatchGen`, `MatchRun`, `MatchBack`, `MatchDraw`, `MatchCases`,
  `MatchKept`): its complete matches are exhaustive and its incomplete ones are not, whatever is drawn.

Where the source changes state, the model does: `Runtime`, `RbTree`, `Pool`, `Fiber`, `UseCounter`,
`Marker`, `Check`, `Parser` and `Lexer` are classes, and each of their methods is proved against a
function or a predicate whose own properties are proved as lemmas.

## Findings

Seven places where the code does not do what it is for. Each has a program, a pattern or a draw that
shows it, and the exact condition under which the code is right.

1. **A `let` whose initialiser reads the name that it binds** (`stage0/emit.c:1480-1483`). The
   comment there says that the initialiser does not see the new name, and the compiler's own scopes
   agree, but in the C that is emitted, `KaiValue *kai_x = …;`, the variable is in scope in its own
   initialiser and not yet set. `f(x) = { let x = x; x }` reads it: `TailCallLimits.SelfReadBreaks`.
   In code that is C, names mean the same as in the compiler if and only if no `let x` has an
   initialiser in which `x` is free: `CScopes.SameScopes`.
2. **A parameter that is shadowed where the function jumps to its own entry**
   (`stage0/emit.c:1773-1803`). The new values are assigned to the C names of the parameters, so a
   variable between the entry and the call that has a parameter's name gets the value instead:
   `TailCallLimits.CaptureBreaks`. The jump passes all arguments on if and only if no such variable
   has a parameter's name: `TailCallLimits.RebindExactly`.
3. **A parameter with the name of its function** (`stage0/emit.c:1636-1646` and `1829-1845`). The
   search for self-calls starts with an empty list of shadowing names, the parameters not among
   them, so a call of such a parameter becomes a jump: `TailCallLimits.ParamNamedLikeFunction` hangs
   where the program panics. A marked call calls the function if and only if no parameter has the
   function's name: `TailCallProof.MarkedCallsFunction`.
4. **A list pattern that is only `...rest`** (`stage0/emit.c:1097-1126`). Its test comes out as
   `()`, which is not C. The test that is emitted is C if and only if every list pattern with a rest
   inside the pattern has an element before it, and then it decides the match: `Patterns.EmitTest`.
5. **A `let` pattern that does not match** (`stage0/emit.c:1488-1496`). Nothing is tested: with
   `let 1 = x` at 0 the C goes on (`TailCallLimits.RefusalIsIgnored`), with `let Some(y) = None` it
   reads an argument that is not there (`TailCallLimits.RefusalCrashes`). The C binds what the
   pattern means if and only if the pattern matches the value (`TailCallLimits.LetExactly`), and so
   for every value if and only if the pattern is a name or a wildcard (`TailCallLimits.LetAlways`).
6. **A block that declares a C name twice** (`stage0/emit.c:1443-1459` and `1477-1498`). All
   statements of a block share one C scope, so `{ let y = 1; let y = 2; y }` declares `kai_y` twice,
   and two `let`s whose patterns are not names declare `_letv` twice: `TailCallLimits.TwiceIsNotC`.
   The code that is emitted declares every name once in its scope if and only if no block of the
   program binds a name twice or has two such `let`s, and no pattern and no parameter list of a lambda
   repeats a name: `CScopes.DeclarationsAreC`.
7. **"A match with no catch-all"** (`tools/pattern-shape-gen.py:617`, with `coverage_cases` at
   `642-651`). At a type without structure the first arms are leaf patterns, and a leaf may be `_`
   or a name. `Bool` is such a type and is not left out there: `MatchCases.WildIsDrawn`. The matches
   have no catch-all, whatever is drawn, if and only if the type has structure:
   `MatchCases.WithoutCatchAll`.

`TailCallProof.AgreeFn` is proved for every program outside 1, 2, 3 and 6 (`OkPrograms.OkByPlace` says
which these are), and every run in which each pattern of a `let` matches its value (5).

## Model

| member | source | states |
|---|---|---|
| `RcHeap.Runtime.CheckUnique` | stage2/runtime/perceus_vec.h:33-45 | The count test answers yes iff the cell has exactly one owner among all slots and frames. |
| `RcHeap.Runtime.Incref` | stage2/runtime/alloc.h:38-52 | The caller owns one more reference, the count still equals the owners, nothing else changes. |
| `RcHeap.Runtime.Decref` | stage2/runtime/ctors.h:318-340 | The reference is gone, and the heap is the one that releasing leads to: counts still equal owners after the cascade of frees, and surviving cells change in their counts alone. |
| `RcHeap.ReleaseKeeps` | stage2/runtime/ctors.h:318-340 | One step of a release: the references of a freed cell become pending, and every count is right again. |
| `SeqPreds.Join` | stage2/runtime/core_collections.h:457-481 | The joined list holds the closures of both in order, in place exactly when the first is an array that nobody else holds, and every other cell keeps its contents. |
| `SeqPreds.CopyPreds` | stage2/runtime/core_collections.h:461-469 | A copy with room shares the closures; the original stays for its other owners. |
| `SeqWorld.FilterTwice` | stage2/runtime/core_collections.h:482-487 | Filtering a filtered sequence is filtering once, the lower predicates first. |
| `SeqMeaning.FitsKept` | stdlib/seq.kai:81-87 | What a thunk will yield stays the same while what it captured keeps its meaning. |
| `SeqAbsorb.WalkDown` | stage2/runtime/core_collections.h:488-496 | The links of exactly the unshared stages are reversed, down to the first cell that cannot be merged. |
| `SeqAbsorb.Climb` | stage2/runtime/core_collections.h:497-506 | On the way back up each stage is freed and its predicates go behind those below it. |
| `SeqAbsorb.ChainMeans` | stage2/runtime/core_collections.h:482-487 | The top of a chain of stages yields what the collected predicates let through of the lowest source. |
| `SeqAbsorb.Absorb` | stage2/runtime/core_collections.h:482-508 | The whole maximal run of unshared stages is merged and freed: it ends above a cell that is no stage, or has no source, or that others see, and nothing happens iff the first is such a cell; the reader's stage over the lowest source yields the same elements; cells outside the chain are untouched. |
| `SeqReads.Take` | stage2/runtime/core_collections.h:369-376 | The reader of an evaluated cell gets the stored step itself, and only counts change. |
| `SeqForce.RunUnshared` | stage2/runtime/core_collections.h:410-419 | The cell is freed before its thunk runs; the step means what the cell meant, or the read is left with every reference accounted for. |
| `SeqForce.RunShared` | stage2/runtime/core_collections.h:420-428 | A shared cell ends up evaluated, holding the very step that the reader got. |
| `SeqForce.Run` | stage2/runtime/core_collections.h:396-428 | The two above, and a panic, whatever the code of the thunk, for a cell that is already running. |
| `SeqReads.Abandon` | stage2/runtime/core_collections.h:362-367 | An exit past the read of a shared cell leaves a heap in which every cell still agrees with its meaning and nothing leaks. |
| `SeqReads.Settle` | stage2/runtime/core_collections.h:667-672 | The step replaces what the cell held, which is released only then. |
| `SeqReads.Finish` | stage2/runtime/core_collections.h:424-428 | The stored step is the one handed out. |
| `SeqFilter.ApplyAll` | stage2/runtime/core_collections.h:610-632 | Stops at the first predicate that refuses or exits: passes only if all hold, and leaves iff one exits before any refuses. |
| `SeqFilter.TakeRest` | stage2/runtime/core_collections.h:633-645 | The rest leaves the step; no other holder of the step sees it change. |
| `SeqFilter.AcceptOwn` | stage2/runtime/core_collections.h:633-645 | The stage being read becomes the stage over the rest, and the step says so, rewritten in place only if unshared. |
| `SeqFilter.AcceptShared` | stage2/runtime/core_collections.h:633-645 | A new stage over the rest shares the predicates of the stage being read. |
| `SeqForce.OwnTurn` | stage2/runtime/core_collections.h:599-632 | One turn gives the step, or goes on with a source of lower rank, or leaves because a read or a predicate did. |
| `SeqForce.FilterOwn` | stage2/runtime/core_collections.h:594-645 | Reading the source in a loop, with merging, gives a step of what the stage means; a step always comes if no code on its way exits and no cell below is stuck. |
| `SeqForce.FilterShared` | stage2/runtime/core_collections.h:594-645 | The same for a shared stage, which is not changed while it is read. |
| `SeqForce.FilterRun` | stage2/runtime/core_collections.h:647-674 | A stage read: the step is empty iff no element of the source passes all predicates, and otherwise holds the first that does, with a cell for what filtering the rest gives. It panics if the stage is being read or was left by an exit. |
| `SeqForce.Force` | stage2/runtime/core_collections.h:430-435 | Any read: a step that means what the cell means, certain to come if no code on the cell's way exits and no cell of at most its rank is stuck, and then none is left behind; an evaluated cell gives its own step; a shared one is recorded. |
| `SeqFilter.FirstPassing` | stage2/runtime/core_collections.h:594-598 | Filtering is the first element that passes, then filtering the rest. |
| `SeqFilter.StepOfStage` | stage2/runtime/core_collections.h:594-598 | A step that means what a stage means begins with the first element of the source that passes, and is empty iff none does. |
| `SeqRuns.Read` | stage2/runtime/core_collections.h:430-435 | One read in full: meaning, references, what others may still rely on, when a step must come (only code on the cell's own way can prevent it), when it panics, what is recorded. |
| `SeqRuns.ReadTwice` | stage2/runtime/core_collections.h:430-431 | A second read of a cell gives the very step of the first. |
| `SeqRuns.StaysEvaluated` | stage2/runtime/core_collections.h:348-356 | Through any number of reads, an evaluated cell that somebody keeps holds its step: it is computed at most once. |
| `SeqRuns.ToList` | stdlib/seq.kai:164-188 | Reading to the end gives exactly the elements that the sequence stands for, in order, releases all it read, and ends unless code on the way of this very sequence exits or a cell below is stuck. |
| `SeqRuns.Pipeline` | stdlib/seq.kai:63-100 | A whole program, `range(a, hi, step)` mapped, filtered and read to a list from an empty heap: the list is the one that the plain functions give, and reading ends if neither function exits on an element it is called with; a step of zero panics. No thunk is assumed to do anything. |
| `SeqWorld.RangeHolds` | stdlib/seq.kai:62-76 | The numbers of a range are `a`, `a + step` and so on; none passes `hi`, which itself may be one of them, and the next would. |
| `SeqReads.LibraryIsHonest` | stdlib/seq.kai:41-42 | A program that defers nothing but what the library defers meets all that reads ask of code that cannot be seen. |
| `SeqThunks.RunRange` | stdlib/seq.kai:63-76 | A range's thunk always gives a step, the end or an element with a cell for the range that follows; which numbers these are is `RangeHolds`. |
| `SeqThunks.StageStep` | stdlib/seq.kai:80-133 | What `map`, `take` and `take_while` make of the step they read: the end, an element with a cell for the same stage over the rest, or an exit, iff the function exits on that element; every reference accounted for. |
| `SeqForce.RunStage` | stdlib/seq.kai:80-133 | The thunk of such a stage reads the cell that it captured, whatever that is, and what it yields is what the stage stands for; no step comes if the function exits on the first element. |
| `SeqForce.RunDrop` | stdlib/seq.kai:135-148 | The thunk of `drop` passes over as many elements as it should and then is the cell that it reached. |
| `SeqForce.RunThunk` | stdlib/seq.kai:41-42 | Any thunk, the library's own or one that cannot be seen, yields what it stands for and keeps the heap's books. |
| `SeqWorld.MapsEach` | stdlib/seq.kai:79-87 | The stage of `map` stands for the image of each element. |
| `SeqWorld.TakesFirst` | stdlib/seq.kai:110-111 | That of `take` stands for the first `n` elements, or all if there are fewer, none for a negative `n`. |
| `SeqWorld.TakesWhile` | stdlib/seq.kai:121-133 | That of `take_while` stands for the longest beginning of which all elements pass. |
| `SeqWorld.DropsFirst` | stdlib/seq.kai:135-148 | That of `drop` stands for all but the first `n`. |
| `ConstTable.Fiber.Find` | stage2/runtime/core_collections.h:678-683 | Finds the constant's entry iff there is one. |
| `ConstTable.Fiber.Ask` | stage2/runtime/core_collections.h:731-748 | The answer and the new table of a read; only the buffer may move. |
| `ConstTable.Fiber.Settle` | stage2/runtime/core_collections.h:749-755 | The value goes to the constant's entry, wherever the table moved. |
| `ConstTable.Fiber.Abandon` | stage2/runtime/core_collections.h:685-691 | The entry goes, and the last one takes its place. |
| `ConstTable.Answers` | stage2/runtime/core_collections.h:728-739 | A read panics iff the constant's own initialiser is running, and gives a value iff an initialiser completed with that value. |
| `ConstTable.StepInv` | stage2/runtime/core_collections.h:728-756 | Reads, returns and exits, nested in any way, keep the table in step with what runs and what completed. |
| `ConstTable.AtMostOnce` | stage2/runtime/core_collections.h:728-730 | Over every run each initialiser completes at most once, and a known value never changes. |
| `ConstTable.FiberLife` | stage2/runtime/core_collections.h:728-756 | In every state that a run from the empty table reaches: no constant has completed twice, a read panics iff the constant is running and gives a value iff it completed with it. |
| `ConstTable.ExitUndoes` | stage2/runtime/core_collections.h:685-691 | After an exit past an initialiser a read answers as before the constant was asked for, but for the constants that completed in the meantime, which are known with their values. |
| `Reuse.TakeSlot` | stage0/runtime_llvm.c:902-922 | The child's reference moves out of a unique cell, whose slot is emptied, and is shared from a shared one. |
| `Reuse.TakingUnseen` | stage0/runtime_llvm.c:902-922 | Emptying slots of a unique cell changes the value of no word but the cell itself. |
| `Reuse.BorrowChildren` | stage0/runtime_llvm.c:895-900 | Binding the fields of a unique cell without counting leaves the cell as a shell whose references are the binders'. |
| `Reuse.OverwriteUnseen` | stage0/runtime_llvm.c:1130-1152 | Overwriting a borrowed cell means what a fresh cell would, and every word that a frame keeps has its old value. |
| `Reuse.ConsReuseMove` | stage0/runtime_llvm.c:895-900 | The rebuilt list cell stands for the new head and tail, unseen by others, with the count that its one extra owner needs. |
| `Reuse.VariantReuseMove` | stage0/runtime_llvm.c:1137-1154 | The same for a constructor; the fallback allocates exactly when the donor does not fit or is shared. |
| `Reuse.LeaveArm` | stage0/runtime_llvm.c:1130-1152 | Both forks of an arm, the unique and the shared, end with one owned result and no leak. |
| `Reuse.ConsArm` | stage0/runtime_llvm.c:888-900 | A whole arm for any head, scalar or boxed, that its body computed: the old head is released, the tail moves, and the cell is the one that a fresh allocation would give; kept words see nothing. |
| `Reuse.ConsArmShared` | stage0/runtime_llvm.c:888-900 | The same arm when others see the cell, which is left as it is. |
| `Reuse.ScalarArm` | stage0/runtime_llvm.c:888-900 | The arm whose head is a function of an unboxed old head: nothing is taken from the cell but its tail. |
| `Reuse.RearrangeArm` | stage0/runtime_llvm.c:902-928 | An arm that puts a constructor's children back in any order gives the rearranged value, in place or not. |
| `Holes.Apply` | stage0/runtime_llvm.c:2653-2656 | Plugging the hole fills the value being built; cells off its spine are untouched. |
| `Holes.Extend` | stage0/runtime_llvm.c:2658-2661 | The next cell goes into the hole, and its own slot is the new hole of the longer spine. |
| `Holes.Build` | stage0/runtime_llvm.c:2590-2661 | The loop through holes builds the value that direct recursion builds, owned once, and whatever others keep is unchanged. |
| `Holes.AppendBorrow` | stage2/runtime/core_collections.h:277-294 | The result is the first list followed by the second, both of which the caller still has. |
| `Lists.ReverseOnto` | stage2/runtime/core_collections.h:303-320 | Pours a list in reverse onto another, consuming both. |
| `Lists.Map` | stage2/runtime/core_collections.h:758-772 | The closure is called on the elements in order until it exits. Returns the list of the replies iff no call exits, exits iff one does, after which none is made; either way exactly the caller's other references remain and keep their values. |
| `Lists.FlatMap` | stage2/runtime/core_collections.h:774-802 | The same calls; the result is the concatenation of the lists that they return. |
| `Lists.Filter` | stage2/runtime/core_collections.h:804-826 | The same calls; the result has the elements whose reply is truthy, in order. |
| `Lists.Reduce` | stage2/runtime/core_collections.h:828-850 | The closure is called on the accumulator and each element, from the left, until it exits; the result is the last reply, and the accumulator moves into the call and is never released twice. |
| `Lists.Each` | stage2/runtime/core_collections.h:852-865 | When it returns, the closure was called on every element in order; it exits iff a call does. Every reply is released. |
| `Lists.CallsInOrder` | stage2/runtime/core_collections.h:852-865 | With a closure that logs its arguments: the log has exactly the elements of a beginning of the list, each once and in order, the whole list iff no call exits, and otherwise the exiting call is the last. |
| `Lists.PlainCalls` | stage2/runtime/core_collections.h:758-826 | With a closure that is a function and never exits, the replies, their concatenation and the elements picked are what `map`, `flat_map` and `filter` give by recursion. |
| `Lists.PlainFold` | stage2/runtime/core_collections.h:828-850 | And the fold is the recursive fold. |
| `Lists.CounterIsHonest` | stage2/runtime/core_collections.h:758-772 | There are closures with a state, exits and references to release that meet what the list functions ask. |
| `Lists.Unwind` | stage2/runtime/evidence.h:345-354 | An exit releases every registered slot exactly once. |
| `RedBlackShape.RotationKeepsOrder` | examples/perceus/rb_tree_bench_c.c:57-79 | A rotation keeps the in-order sequence of entries. |
| `RedBlackShape.RecolorKeeps` | examples/perceus/rb_tree_bench_c.c:85-86 | With a red uncle, recolouring moves the clash up and keeps the black heights. |
| `RedBlackShape.RotationKeeps` | examples/perceus/rb_tree_bench_c.c:87-91 | With a black uncle, one rotation repairs the tree. |
| `RedBlackShape.HeightBound` | examples/perceus/rb_tree_bench_c.c:129-133 | A red-black tree's height is at most twice the logarithm of its size plus one. |
| `RedBlackShape.LongestWay` | examples/perceus/rb_tree_bench_c.c:129-133 | The height is the length of the longest way down from the root. |
| `RedBlackTree.RbTree.RotateLeft` | examples/perceus/rb_tree_bench_c.c:57-67 | All links, up and down, after the rotation; everything else is as it was. |
| `RedBlackTree.RbTree.RotateRight` | examples/perceus/rb_tree_bench_c.c:69-79 | The mirror image. |
| `RedBlackTree.RbTree.Fixup` | examples/perceus/rb_tree_bench_c.c:81-106 | From a tree with one possible clash at `z` to a red-black tree over the same nodes with the same entries. |
| `RedBlackTree.RbTree.Insert` | examples/perceus/rb_tree_bench_c.c:108-122 | The tree stays an ordered red-black tree, and its map is the old one with the key set. |
| `RedBlackTree.RbTree.Size` | examples/perceus/rb_tree_bench_c.c:124-127 | The number of keys of the map. |
| `RedBlackTree.RbTree.TreeHeight` | examples/perceus/rb_tree_bench_c.c:129-133 | The height of the tree, which is logarithmic in the number of keys. |
| `RedBlackTree.Build` | examples/perceus/rb_tree_bench_c.c:135-160 | Any sequence of insertions into an empty tree gives the map of the last writes. |
| `RedBlackShape.LastWriteWins` | examples/perceus/rb_tree_bench_c.c:108-122 | In that map a key has the value of the last write to it. |
| `RedBlackShape.OnlyWrittenKeys` | examples/perceus/rb_tree_bench_c.c:108-122 | And it has no key that was not written. |
| `EmitPool.RunInv` | stage2/llvm/llvm_emit.h:621-716 | Every run keeps the books: jobs submitted are queued, in hand, reported or dropped. |
| `EmitPool.OneWriter` | stage2/llvm/llvm_emit.h:687-716 | In every reachable state no two workers write one path, and a path being written is not queued as well. |
| `EmitPool.AllWritten` | stage2/llvm/llvm_emit.h:641-660 | If the process leaves with code 0, every path ever submitted was written. |
| `EmitPool.ExitCode` | stage2/llvm/llvm_emit.h:641-660 | Over every run that ends the process: it leaves with 1 if it exits with 0 and a write failed, and otherwise with the code of its exit, the pool never started included. |
| `EmitPool.LeavesByExit` | stage2/llvm/llvm_emit.h:641-660 | And a run ends the process only by an exit. |
| `EmitPool.ErrorStopsWriting` | stage2/llvm/llvm_emit.h:641-650 | After an exit with an error nothing queued is written any more, only what was being written. |
| `EmitPool.NoLostWakeup` | stage2/llvm/llvm_emit.h:621-639 | While there is a job, or the drain is blocked, some worker can take a step. |
| `EmitPool.StepProgress` | stage2/llvm/llvm_emit.h:641-660 | Once the drain has begun, every step but its spurious wakeup leaves less to do. |
| `EmitPool.SomeStep` | stage2/llvm/llvm_emit.h:641-660 | Until the process is gone, such a step is enabled: there is no deadlock. |
| `EmitPool.DrainEnds` | stage2/llvm/llvm_emit.h:641-660 | Every run after the drain began is at most as long as what was left to do and twice its spurious wakeups of the drain, whatever the scheduler does, and it can only stop with the process gone. |
| `EmitPool.DrainFinishes` | stage2/llvm/llvm_emit.h:641-660 | From every state of the drain some run, without a spurious wakeup of the drain, ends the process. |
| `EmitPool.Pool.Seen` | stage2/llvm/llvm_emit.h:687-695 | Whether the path was queued before; notes it if not. |
| `EmitPool.Pool.Submit` | stage2/llvm/llvm_emit.h:697-716 | On the linked queue, what the state machine's submission does. |
| `EmitPool.Pool.Take` | stage2/llvm/llvm_emit.h:625-632 | The oldest job leaves the linked queue. |
| `EmitPool.Pool.Report` | stage2/llvm/llvm_emit.h:632-637 | The books after a report, and whether the pool is idle. |
| `EmitPool.Pool.BeginDrain` | stage2/llvm/llvm_emit.h:641-650 | The stop, and on an error code the queue thrown away. |
| `TailCallProof.AgreeFn` | stage0/emit.c:1823-1877 | For every function of a program outside the Findings and all arguments, in every run whose `let` patterns match, the emitted code, with jumps, moved and unset variables, gives what the program means: the same value, panic or endless run, never a crash. |
| `TailCallProof.AgreeTail` | stage0/emit.c:1632-1771 | The same for an expression in tail position with its calls marked. |
| `TailCallProof.Agree` | stage0/emit.c:1421-1475 | The same for any other expression, in any frame whose variables agree with the environment. |
| `TailCallProof.AgreeGoto` | stage0/emit.c:1773-1807 | A marked call evaluates all arguments, then sets the parameters and jumps, and that is the call. |
| `TailCallProof.MarkedCallsFunction` | stage0/emit.c:1638-1647 | A marked call calls the function iff no parameter has the function's name. |
| `TailCallLimits.RebindExactly` | stage0/emit.c:1795-1803 | The jump gives every parameter its new value, for all values, iff no variable in scope takes a parameter's name. |
| `TailCallLimits.CaptureBreaks` | stage0/emit.c:1795-1803 | A program that violates it crashes where it means 7. |
| `TailCallLimits.ParamNamedLikeFunction` | stage0/emit.c:1829-1845 | A program that hangs where it means a panic. |
| `TailCallLimits.SelfReadBreaks` | stage0/emit.c:1477-1488 | `f(x) = { let x = x; x }` reads an unset variable. |
| `TailCallLimits.RefusalIsIgnored` | stage0/emit.c:1488-1496 | `let 1 = x` at 0: the C tests nothing and returns 7. |
| `TailCallLimits.RefusalCrashes` | stage0/emit.c:1488-1496 | `let Some(y) = None`: the C reads an argument that is not there. |
| `TailCallLimits.LetExactly` | stage0/emit.c:1488-1496 | The C of a `let` binds what the pattern means iff the pattern matches the value. |
| `TailCallLimits.LetAlways` | stage0/emit.c:1488-1496 | And so for all values iff the pattern is a name or a wildcard. |
| `TailCallLimits.TwiceIsNotC` | stage0/emit.c:1443-1459 | A block that binds a name twice means 2 but is not C, the same in nested blocks is; nor is a block with two wildcards. |
| `TailCalls.GrabsBinds` | stage0/emit.c:1167-1232 | A pattern that matches finds all its parts, and binds them as it means. |
| `TailCalls.LabelIffMarked` | stage0/emit.c:1838-1851 | The entry label is planted iff the marking changed some call; which calls these are is `TreePaths.MarksTheTailCalls`. |
| `TreePaths.MarksTheTailCalls` | stage0/emit.c:1700-1771 | At each place of a tree: after the marking a call carries the flag iff it is in tail position (by way of branches, arms and ends of blocks), calls the function with as many arguments as it takes, and nothing on the way binds the function's name; nothing else is changed. |
| `TreePaths.WalkFindsTailCalls` | stage0/emit.c:1632-1698 | The walk says yes iff there is such a place. |
| `OkPrograms.CapturesByPlace` | stage0/emit.c:1795-1803 | The condition of `AgreeFn` on shadowing holds iff at no such place a parameter's name is bound on the way. |
| `OkPrograms.OkByPlace` | stage0/emit.c:1823-1877 | A function meets the conditions of `AgreeFn` iff it has distinct parameters and none of its places shows one of the Findings 1, 2, 3 and 6. |
| `OkPrograms.CountdownRuns` | stage0/emit.c:1823-1877 | One such function, `f(n) = if zero(n) { 7 } else { f(pred(n)) }`, in the emitted C: from any number it jumps its way to 7. |
| `TailCallScopes.CountsWithout` | stage0/emit.c:340-359 | A variable that is not read changes no use count. |
| `TailCallScopes.EvalWithout` | stage0/emit.c:1477-1488 | A variable that is not read changes no result, closures included. |
| `TreeReads.CountsReads` | stage0/emit.c:296-359 | The use counts are the numbers of places where the declaration is read, and of those in lambdas. |
| `TreeReads.MovedIffReadOnce` | stage0/emit.c:1856-1872 | A read moves its variable's reference iff the variable is one of the function's own, is read in one place, and that is not in a lambda. |
| `CScopes.SameScopes` | stage0/emit.c:1477-1488 | Each name means the same declaration in the C and in the compiler's scopes iff no `let` reads its own name; and the code is C as well iff also no name is declared twice in one C scope. |
| `CScopes.DeclarationsAreC` | stage0/emit.c:1443-1498 | The walk over the emitted declarations meets no name twice in one C scope iff in the program no block, pattern or parameter list does. |
| `TreeReads.DeclarationsByPlace` | stage0/emit.c:1443-1498 | A program can be declared in C iff at no place a pattern or a parameter list repeats a name, or a `let` has a name in common with a later one of its block, or both are not names. |
| `TreeReads.SelfReadsByPlace` | stage0/emit.c:1477-1488 | No `let` reads its own name iff at no place the initialiser of `let x` mentions `x` where nothing in it binds `x`. |
| `UseCount.UseCounter.Resolve` | stage0/emit.c:179-190 | The innermost declaration of a name. |
| `UseCount.UseCounter.Count` | stage0/emit.c:296-359 | The table gains exactly the reads, in and out of lambdas, of each tracked declaration, and the scopes are restored. |
| `UseCount.UseCounter.CountFn` | stage0/emit.c:1856-1872 | The table says "once and not in a lambda" of exactly the declarations whose one read is emitted bare. |
| `UseCount.Marker.CollectPattern` | stage0/emit.c:1609-1630 | Every binder of the pattern shadows. |
| `UseCount.Marker.WalkTail` | stage0/emit.c:1632-1698 | Says whether a tail call of the function itself exists, as `TreePaths.WalkFindsTailCalls` spells out, and restores the list of shadowing names. |
| `UseCount.Marker.MarkTail` | stage0/emit.c:1700-1771 | Marks the calls that `TreePaths.MarksTheTailCalls` names and no others; they are those for which `AgreeTail` is proved. |
| `Patterns.EmitTest` | stage0/emit.c:1080-1165 | The test never reads through a cell of the wrong shape and holds iff the pattern matches; it is C iff no list pattern is only a rest. |
| `Patterns.EmitListTest` | stage0/emit.c:1097-1126 | The same for a list pattern, whose path moves down the tails. |
| `Patterns.EmitBindings` | stage0/emit.c:1167-1232 | After a match the bindings are the pattern's environment, and each has a reference of its own. |
| `Patterns.EmitMatch` | stage0/emit.c:1234-1284 | The chain of tests runs the first arm whose pattern matches and whose guard holds, with its environment. |
| `EmitPlaces.MatchesByPlace` | stage0/emit.c:1080-1165 | A value matches iff for each part of the pattern it has a part that is what is asked for there: a number, a constructor with its arguments, fields, elements of a list. |
| `EmitPlaces.BindsByPlace` | stage0/emit.c:1167-1232 | Each name, that of a list's rest included, is bound to the part of the value that stands in its place. |
| `PatPlaces.MatchesByPlace` | stage0/emit.c:1234-1284 | The same for the patterns of the programs that `AgreeFn` is about. |
| `PatPlaces.BindsByPlace` | stage0/emit.c:1167-1232 | And for what they bind. |
| `Checker.Check.BindPattern` | stage0/check.c:136-170 | Every name that the pattern binds enters the current scope. |
| `Checker.Check.RegisterTopLevel` | stage0/check.c:326-339 | Every declaration's names are in scope before any body is checked; which names these are is `NamePlaces.GlobalsAreMade`. |
| `Checker.Check.Run` | stage0/check.c:341-358 | The walk with a stack of scopes rejects a program iff it is not lexically scoped, which is `NamePlaces.RejectsTheUndefined`. |
| `NamePlaces.GlobalsAreMade` | stage0/check.c:286-339 | A name is known everywhere iff it is of the prelude or some declaration makes it: a function, a type, each of its constructors, an alias, a selected name, or what follows the last dot of a path. |
| `NamePlaces.BindersByPlace` | stage0/check.c:136-170 | A pattern binds the names that stand somewhere in it. |
| `NamePlaces.RejectsTheUndefined` | stage0/check.c:172-284 | A program is rejected iff in some body there is an identifier that no parameter, no pattern of an arm around it, no earlier `let` of a block around it, no declaration and not the prelude binds. |
| `NamePlaces.CheckProgram` | stage0/check.c:341-358 | That is what the whole check answers. |
| `NameSafety.AcceptedNeverUnbound` | stage0/check.c:172-284 | Calling any function of an accepted program, with any closed arguments, for any length of time, never looks up an unbound name, not in a closure called after its scope ended either. |
| `NameSafety.AcceptedTests` | stage0/check.c:191-197 | The same for the bodies of tests. |
| `NameSafety.RejectedTestFails` | stage0/check.c:205-209 | A test of one name looks up an unbound name iff nothing declares it, and is then rejected. |
| `ExprRoundTrip.RoundTrip` | stage0/parser_expr.c:34-168 | At each level, what is written with as few parentheses as the ladder needs is read back as the same tree, and reading stops where the text ends. The ladder itself is `ExprLadder`. |
| `ExprRoundTrip.Whole` | stage0/parser_expr.c:45 | The same for whole expressions, lambdas included. |
| `ExprRoundTrip.Unambiguous` | stage0/parser_expr.c:34-43 | Expressions written alike are the same expression. |
| `ExprRoundTrip.ComparisonsStop` | stage0/parser_expr.c:107-121 | Comparisons do not chain: after one, a second operator is left unread. |
| `ExprRoundTrip.ParseWritten` | stage0/parser_expr.c:45 | The imperative parser on the tokens of a written expression returns that expression. |
| `ExprLadder.TighterFirst` | stage0/parser_expr.c:34-150 | For operators by name and all operands: of two from different rows, pipe, `or`, `and`, comparisons, `+ -`, `* / // %`, the later row binds tighter, whichever comes first: `a + b * c` is a + (b * c) and `a * b + c` is (a * b) + c. Newlines after an operator do not matter. |
| `ExprLadder.SameRowLeansLeft` | stage0/parser_expr.c:48-150 | Two operators of one row lean left, comparisons apart. |
| `ExprLadder.ComparisonsDoNotChain` | stage0/parser_expr.c:107-121 | Of two comparisons the second is not read. |
| `ExprLadder.PrefixBetween` | stage0/parser_expr.c:152-168 | `-` and `not` take their operand before any operator with two does, and after a field is taken. |
| `ExprLadder.LineBeginsWithPipe` | stage0/parser_expr.c:48-68 | A pipe may begin a line; before any other operator a newline ends the expression. |
| `ExprLayout.ListOverLines` | stage0/parser_expr.c:445-482 | The brackets of a list may stand on lines of their own, and a comma before the closing one. |
| `ExprLayout.CallOverLines` | stage0/parser_expr.c:170-190 | The parentheses of a call may stand on lines of their own. |
| `ExprLayout.NoCommaInCall` | stage0/parser_expr.c:170-190 | But a comma before the closing one is an error. |
| `ExprLayout.ParenthesesOverLines` | stage0/parser_expr.c:279-304 | A newline may follow an opening parenthesis. |
| `ExprLayout.IndexOverLines` | stage0/parser_expr.c:195-207 | And the bracket of an index. |
| `ExprLayout.RangeOverLines` | stage0/parser_expr.c:463-482 | The bounds and the step of a range may begin on new lines. |
| `ExprLayout.LambdaOverLines` | stage0/parser_expr.c:254-277 | And the body of a lambda. |
| `ExprLayout.NameBeforeBrace` | stage0/parser_expr.c:361-386 | Before a brace a name with a capital begins a record literal, any other name is an expression of its own. |
| `ExprParser.Parser.ParseExpr` | stage0/parser_expr.c:45 | The tree, the failure and the place of the cursor are those of the grammar for which the round trip and the ladder are proved. |
| `ExprParser.Parser.ParsePipe` | stage0/parser_expr.c:48-68 | Pipes lean left, and a line may begin with one. |
| `ExprParser.Parser.ParseOr` | stage0/parser_expr.c:78-89 | The loop builds the tree of the grammar's tail. |
| `ExprParser.Parser.ParseCmp` | stage0/parser_expr.c:107-121 | At most one comparison is read. |
| `ExprParser.Parser.ParseAdd` | stage0/parser_expr.c:123-135 | The loop reads what the grammar has at the row of `+` and `-`, which `ExprLadder` places above that of `*`. |
| `ExprParser.Parser.ParseMul` | stage0/parser_expr.c:137-150 | The loop reads what the grammar has at the row of `*`, `/`, `//` and `%`. |
| `ExprParser.Parser.ParseUnary` | stage0/parser_expr.c:152-168 | Prefix operators bind looser than suffixes. |
| `ExprParser.Parser.ParsePostfix` | stage0/parser_expr.c:208-231 | Calls, indices and fields, as many as follow. |
| `ExprParser.Parser.ParsePrimary` | stage0/parser_expr.c:306-393 | Which primary the first token begins. |
| `ExprParser.Parser.ScanParenIsLambda` | stage0/parser_expr.c:234-252 | Answers yes iff a whole parameter list and an arrow follow, and moves nothing. |
| `ExprParser.Parser.ParseParenLambda` | stage0/parser_expr.c:254-277 | After that answer the parameter list cannot fail. |
| `ExprParser.Parser.ParseParenExpr` | stage0/parser_expr.c:279-304 | Unit, lambda or parentheses. |
| `ExprParser.Parser.ParseListOrRange` | stage0/parser_expr.c:463-482 | A list, with spreads and a trailing comma, or a range. |
| `LexRules.LineAndColumn` | stage0/lexer.c:94-100 | The line is one more than the newlines before, the column counts from the last of them. |
| `LexRules.LongestMark` | stage0/lexer.c:408-447 | An operator token is the longest one that begins there. |
| `LexRules.OneToken` | stage0/lexer.c:449-489 | The source alone says which token begins at a place: kind, errors included, and end. |
| `LexRules.OneTiling` | stage0/lexer.c:449-489 | So a source has one sequence of tokens. |
| `LexRules.NoMark` | stage0/lexer.c:420-447 | A character begins nothing iff it begins no name and no mark and is no newline. |
| `LexRules.GapSteps` | stage0/lexer.c:158-172 | What lies between tokens is made of whole blanks, comments and attributes. |
| `LexShapes.GapBegins` | stage0/lexer.c:158-172 | Something is skipped exactly at a space, a tab, a carriage return and a hash. |
| `LexShapes.BlanksAreSkipped` | stage0/lexer.c:158-172 | Any run of the first three is a gap. |
| `LexShapes.CommentIsSkipped` | stage0/lexer.c:109-112 | A comment goes up to the end of its line and no further. |
| `LexShapes.WordByCharacter` | stage0/lexer.c:178-218 | A name is letters, digits and underscores, no digit first, as many as there are; it is the keyword that is spelled so, if there is one, an identifier otherwise. |
| `LexShapes.CharOfBytes` | stage0/lexer.c:344-382 | A character literal may be one byte, or one and those that continue it, between single quotes. |
| `LexShapes.CharEscaped` | stage0/lexer.c:344-382 | Or a backslash and one character. |
| `LexShapes.CharOfCode` | stage0/lexer.c:344-382 | Or a code point in braces. |
| `LexShapes.StringByCharacter` | stage0/lexer.c:290-342 | Read one character at a time, a string ends at the first quote of its kind that is text, neither escaped nor in an interpolation with its braces and strings; without one, or at a line's end before it, it is not closed. |
| `LexShapes.AttrStringByCharacter` | stage0/lexer.c:121-140 | The same for a string in an attribute, where a line's end is no error. |
| `LexShapes.AttributeBalances` | stage0/lexer.c:147-156 | An attribute without strings ends at the bracket that balances its first. |
| `LexShapes.DigitsRun` | stage0/lexer.c:225-240 | Digits and underscores are read as far as there are any. |
| `Lexer.Lexer.SkipAttribute` | stage0/lexer.c:121-156 | Skips to the bracket that closes the attribute, past strings and nested brackets. |
| `Lexer.Lexer.SkipWhitespaceAndComments` | stage0/lexer.c:158-172 | Skips a gap, and stops only where no more of it follows. |
| `Lexer.Lexer.LexIdentOrKeyword` | stage0/lexer.c:192-218 | The token is the longest name, and its kind the keyword it is spelled like, if there is one, or an identifier; a lone underscore is the wildcard. Never an error. |
| `Lexer.Lexer.LexNumber` | stage0/lexer.c:220-258 | A real iff a fraction or an exponent follows the digits, an error iff an exponent without digits follows, and otherwise an integer; the token ends where these end. |
| `Lexer.Lexer.LexInterpBlock` | stage0/lexer.c:267-288 | An interpolation ends at its matching brace, past strings and nested braces. |
| `Lexer.Lexer.LexString` | stage0/lexer.c:290-342 | A string, ending at the quote that is neither escaped nor inside an interpolation, iff there is one; otherwise an error token. |
| `Lexer.Lexer.LexChar` | stage0/lexer.c:344-382 | A character iff one character or escape and a closing quote follow; otherwise an error token. |
| `Lexer.Lexer.LexOperator` | stage0/lexer.c:384-447 | The token is spelled as its kind and is the longest such; an error iff no mark begins with the character. |
| `Lexer.Lexer.Lex` | stage0/lexer.c:449-489 | For every source the tokens are the only ones that tile it: only gaps lie between them, each is spelled as its kind, at its true line and column, an error only where no token begins, and exactly the last is the end. |
| `MatchGen.CoverPats` | tools/pattern-shape-gen.py:566-594 | Whatever is drawn, the patterns together match every value of the type, and none of them is a catch-all but at the types that have no other cover. |
| `MatchGen.HeadMatches` | tools/pattern-shape-gen.py:508-521 | Which values an arm with a redundancy head matches depends on the head alone. |
| `MatchBack.HeadsExactly` | tools/pattern-shape-gen.py:502-521 | A pattern has a constructor for its head iff under its names it is that constructor over patterns that take everything; and likewise for pairs, for literals that are no reals, and for what takes everything. |
| `MatchRun.MatchPat` | tools/pattern-shape-gen.py:385-418 | Answers iff the pattern matches, and the environment then binds exactly its binders. |
| `MatchBack.MatchedIsInstance` | tools/pattern-shape-gen.py:385-418 | A pattern matches a value iff some environment, put into the pattern, makes it the value. |
| `MatchBack.LeastInstance` | tools/pattern-shape-gen.py:385-418 | The environments that do are those that contain what the match binds. |
| `MatchDraw.RandVal` | tools/pattern-shape-gen.py:115-133 | The value has the type. |
| `MatchDraw.Witness` | tools/pattern-shape-gen.py:421-447 | The value has the type and the pattern matches it. |
| `MatchDraw.GenPat` | tools/pattern-shape-gen.py:288-323 | The pattern suits the type, and binds each of its fresh names once. |
| `MatchDraw.StructuredPat` | tools/pattern-shape-gen.py:299-323 | Such a pattern suits the type and is never a catch-all. |
| `MatchDraw.Run` | tools/pattern-shape-gen.py:482-500 | The first arm that takes the value is run; an exhaustive match always has one. |
| `MatchCases.RandomArms` | tools/pattern-shape-gen.py:597-613 | The arms are the drawn ones that the redundancy rule and the filter keep, and the heads returned are those of the unguarded ones. |
| `MatchKept.KeptExactly` | tools/pattern-shape-gen.py:597-613 | A draw is kept iff no unguarded arm kept before it takes everything or, if it is not guarded itself, shares its head, and the filter lets it pass; the kept ones are in the order of the draws. |
| `MatchCases.GenComplete` | tools/pattern-shape-gen.py:616-626 | The match is exhaustive and no arm is redundant, though it leaves out covering patterns whose heads were seen; it is exactly what the draws and the cover give, and at a type with structure none of its arms is a catch-all. |
| `MatchCases.WithoutCatchAll` | tools/pattern-shape-gen.py:616-626 | The matches have no catch-all, for all draws, iff the type has structure. |
| `MatchCases.WildIsDrawn` | tools/pattern-shape-gen.py:642-651 | At `Bool` too a lone wildcard may be drawn, and it is then the whole match. |
| `MatchCases.GenMatch` | tools/pattern-shape-gen.py:524-545 | A random match is exhaustive and no arm is redundant: what was drawn and kept, with one catch-all at the end unless there is one. |
| `MatchCases.GenIncomplete` | tools/pattern-shape-gen.py:629-640 | Some value falls through every unguarded arm; the arms are the drawn ones that leave it so, if there are any. |
| `MatchCases.TestValues` | tools/pattern-shape-gen.py:547-563 | Each arm's pattern matches one of the values, all of which have the type and differ. |

## Left out

Lazy sequences and the heap:

- Sequences that do not end have no meaning here: a cell stands for a finite sequence and a bound on the reads it takes.
- A predicate answers alike every time it is asked; it may exit, but its own effects on the heap are not modelled.
- Thunks that are not the library's, a `flat_map` among them, whose function builds cells: what `Honest` asks bounds them, and they are not run.
- A thunk of the library takes references to what it captured when it starts, where the code generator may move the last of them.
- Elements of sequences are integers, bare or boxed, so predicates and functions of sequences have no references to release.
- A deep chain that carries on over a fresh stack segment; what is read is the same.
- Releasing a cell runs no user code: a `finally` that a release triggers is left out.
- `kai_seq_unravel` and the release of a fiber's constants, and the reference counts of constants.
- Ranges as inputs of the list functions, which read them through the same cursor without building cells.
- Cells that are saturated or belong to several threads, and counts that would overflow 32 bits: counts are unbounded.
- Running out of memory.

The emit pool:

- A thread that cannot be created, and the parsing of the environment variables that turn the pool on.
- Writing the object itself is a step that succeeds or fails.

Code generation:

- Expressions are the ones that matter to scopes, jumps and moves; primitives are one oracle, and records, strings with interpolations, assertions and loops over collections are not there.
- The statements of a block are a chain of `let`s and expressions under one node instead of a list of children.
- A `let` pattern that does not match has no meaning here (`Mismatch`): stage 0 has none for it. Whether a type has but one constructor, so that its pattern cannot fail, is for the typer, which is not modelled.
- Lambdas capture what their body reads, by a copy at the point of creation; the collection of the captures is not modelled.
- The arguments of a call are evaluated from left to right, an order that C leaves open.
- Marks on calls are returned in a new tree instead of being set in place.
- The C text is not modelled, only what it does.

Front end:

- ExprParser.Parser.ParsePrimary: blocks, `if`, `match`, strings, and record literals of the cited lines fail here instead of being parsed.
- Parsing of blocks, `if`, `match`, strings, records and patterns; literals are one kind of token; a record literal fails here.
- Texts of error messages, and the positions that nodes carry.
- What numbers, characters and escapes denote; where they end is modelled.
- Characters of the source are not bytes; lines and columns do not wrap.
- Record patterns and fields in the name checker, whose nodes are visited like any other.

The generator of matches:

- Random draws are choices; weights and the number of draws are parameters, so that every seed is covered.
- The text of the cases that are generated, and the functions that observe a value.

Everything else: types and inference, effects and their handlers, the scheduler and actors, the LLVM
lowering, stages 1 and 2 written in kaikai itself, the standard library beyond sequences, and the tools.
