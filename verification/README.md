# Kernel components of SWI-Prolog 4.0.9

This project models five components of the SWI-Prolog 4.0.9 kernel and proves properties of them
with Dafny 4.11.

- **The stack garbage collector** (`src/pl-gc.c`). Memory is one array of cells, each a tagged word
  with the bits MARK and FIRST. `Marking` is the pointer-reversing traversal, `EarlyReset` the mark
  phase over choice points, `TrailCompaction`, `Sweep` and `Compaction` are the phases that slide
  the trail and the global stack with threaded chains (`Relocation`), and `GarbageCollection` puts
  them together, with the collector's own `sysError` checks as assertions. `Isomorphism`,
  `Preservation`, `Backtracking`, `Visibility` and `UndoAfter` say what the program sees, and
  `CollectedStacks` that another collection may follow.
- **The clause compiler and decompiler** (`src/pl-comp.c`). `Clauses`, `Bodies`, `HeadRoundTrip`
  and `Variables` specify the code of arguments, bodies, heads and clauses; `Compiling` emits it
  with a code buffer, back-patched jumps and a variable table. `Decompiler`, `BodyDecompiler` and
  `Decompiling` read it back. `Control`, `ControlSteps`, `ControlMeaning`, `Machine` and
  `MachineMeaning` give the control instructions their meaning, first with failures as a list of
  answers, then on a machine with choice points; `LocalCuts` compares that with the standard.
  `Initialisation` follows the slots of variables over all paths, and `FrameLayout` keeps them
  apart from those of marks. `Bindings` and `ArgumentCode` give the instructions for arguments
  their meaning on cells; `HeadMatching` and `HeadUnification` prove that the code of a head
  unifies, `GoalBuilding` that the code of a goal builds its arguments.
- **The clause index** (`src/pl-index.c`). `IndexKeys` and `ArgumentKeys` are about keys and masks,
  `ClauseChains` and `ClauseIndexes` about linked chains and hash tables, `ClauseSearch` about the
  search paths, `UpdateView` about goals that stay open while clauses come and go, and `Snapshots`
  about what a goal of any generation finds.
- **The atom table** (`src/pl-atom.c`): `AtomBuckets` and `AtomTables`.
- **The heap allocator** (`src/pl-alloc.c`, with its own malloc): `HeapPieces`, `HeapLinks`,
  `HeapState`, `BigHeaps` and `HeapAllocator`.

`P(x) == true` in a contract keeps the definition of `P` out of the proofs that only pass it on.
Verify with `dafny verify dfyconfig.toml`.

## Model

| member | source | states |
|---|---|---|
| GlobalStack.NewAtCounts | src/pl-gc.c:1256-1310 | the address that the scans compute for an object is gBase plus the number of live words below it |
| Relocation.PushThreaded | src/pl-gc.c:886-907 | threading a cell on its head's chain keeps the chain invariant: the stacks that the chains stand for are unchanged |
| Relocation.IntoRelocationChain | src/pl-gc.c:886-907 | the cell joins the chain of the cell it points to, at the front; the logical stacks stay the same and relocation_cells grows by one |
| Relocation.UnwoundThreaded | src/pl-gc.c:861-883 | once the last cell of a chain is redirected and the head has its word back, the chain is gone and every cell of it points to dest with its own tag |
| Relocation.UpdateRelocationChain | src/pl-gc.c:861-883 | all pointers to the head lead to dest with their own tags, the head has its value and no FIRST bit, the other chains stay, and relocated_cells grows by the length of the chain |
| Marking.MarkVariable | src/pl-gc.c:410-515 | terminates; every word and every FIRST bit is as before; what is newly marked is reachable from start and closed under pointers up to marked cells; total_marked and needs_relocation grow by exactly the words and pointers newly marked |
| Marking.MarkedExactly | src/pl-gc.c:380-409 | if marked objects lead to marked cells only, then exactly the cells that were marked or that start reaches are marked afterwards |
| MarkPhase.MarkSlots | src/pl-gc.c:632-657 | all variables of a frame are marked with what they reach, and of the local cells no others |
| EarlyReset.ScanTrail | src/pl-gc.c:682-717 | what the scan of a trail segment makes of every entry and cell: unmarked global variables below the top are reset, entries of reset or dead cells become Var, both entries of a dead assignment go |
| EarlyReset.MarkChoice | src/pl-gc.c:682-734 | one choice point: its query's slots, then the scan of its trail segment, then its frames, in this order, and its saved trail top threaded |
| EarlyReset.MarkAll | src/pl-gc.c:806-827 | the mark phase marks exactly the slots of all foreign frames, queries and frames, and leaves its history: the state before and after each choice point |
| TrailCompaction.CompactTrail | src/pl-gc.c:926-958 | the surviving trail entries slide down in their order, every saved trail top becomes the number of survivors below it, and all chains are gone: the sysError check cannot fire |
| Sweep.SweepMark | src/pl-gc.c:1005-1033 | a saved global top is threaded on the first live object at or above it, even if it points to garbage or to a cell with a chain |
| Sweep.SweepAll | src/pl-gc.c:1037-1200 | every marked variable of the frames, every trail entry and every saved top is threaded exactly once and unmarked; local_marked ends at 0 |
| Compaction.AllCounted | src/pl-gc.c:1201-1254 | every live global pointer is downward or upward, and so threaded in exactly one of the two scans |
| Compaction.CompactGlobal | src/pl-gc.c:1256-1356 | both scans end at the predicted address; each live object is at gBase plus the live words that were below it, with its contents, without MARK and FIRST, every pointer to it has the new address and its own tag, no chain is left, and relocation_cells == relocated_cells |
| GarbageCollection.CollectPhase | src/pl-gc.c:1358-1381 | the phases together give the relocated stacks, and all counters agree as the collector's own checks demand |
| GarbageCollection.GarbageCollect | src/pl-gc.c:1615-1713 | from any well-formed stacks the whole collector ends in CollectedFrom: marking history, then exact relocation of global, local and trail cells and saved tops; gTop == gBase + total_marked |
| Isomorphism.ReadCarried | src/pl-gc.c:1201-1356 | a renaming of cells that carries every cell of a closed set carries the terms, read to any depth |
| Isomorphism.PlaceOrder | src/pl-gc.c:1201-1356 | the collector's renaming keeps the order of cells (standard order of variables) |
| Preservation.CollectionKeepsTerms | src/pl-gc.c:1615-1713 | every variable of the frames in use stands for the same term, to any depth, after the collection |
| Preservation.Collect | src/pl-gc.c:1615-1713 | the same as a postcondition of running the collector on stacks whose local references lead to variables of the same or older frames |
| Backtracking.DoUndo | src/pl-wam.c:758-775 | undoing the trail to a choice point gives each recorded cell the word of its oldest record |
| Visibility.LostExactly | src/pl-gc.c:682-734 | which assignments the collector deletes, told from the stacks before the collection alone |
| UndoAfter.ResetIsSafe | src/pl-gc.c:682-734 | for a cell that choice point j can see, undoing the compacted trail gives the same word as undoing the whole trail, if and only if not WillLose: the oldest record of the cell since j is an assignment that replaced a value, and nothing visited before that segment was scanned can see the cell |
| UndoAfter.NoAssignments | src/pl-gc.c:682-734 | so early reset is safe when no assignment is recorded since the choice point |
| UndoAfter.BacktrackingKeepsTerms | src/pl-gc.c:1615-1713 | collecting and then backtracking to choice point j gives every variable of the frames and queries of the choice points up to j the terms that backtracking alone gives |
| ForgottenAssignment.AssignmentIsLost | src/pl-gc.c:700-725 | any collection of these well-formed stacks makes backtracking restore another value than f(1) |
| ForgottenAssignment.Forget | src/pl-gc.c:700-725 | the collector run on these stacks does so |
| CollectedStacks.PreparedAgain | src/pl-gc.c:1615-1713 | after a collection the stacks are what the collector expects at its start: objects laid out, pointers of the right kind, arguments owned, trail entries and saved tops in order, no MARK or FIRST bit in use; so the check at its end cannot fail, and the trail is in order for backtracking if it was before |
| CollectedStacks.CollectOften | src/pl-gc.c:1615-1713 | any number of collections in a row keeps the stacks so, and every variable in use stands for the same term all the time |
| Compiling.CompileInfo.Argument | src/pl-comp.c:908-1076 | appending with the right-recursive loop and truncating deleted voids emits the code of the argument, and marks exactly its variables as used |
| Compiling.CompileInfo.Body | src/pl-comp.c:773-887 | code emission with back-patched jumps, saved variable tables and a saved cutvar yields the code of the body |
| Compiling.VarDefs.Analyse | src/pl-comp.c:394-432 | the in-place analysis counts and places the variables as the table says |
| Compiling.CompileTerm | src/pl-comp.c:628-731 | analysis and compilation of a whole clause yield its code, or nothing just if the body cannot be called |
| HeadMatching.ArgumentHandled | src/pl-wam.c:1964-2370 | the code of any argument of a head, run on any initialised cell, is never stuck; it fails only if no instance of the cells has the argument there, and else leaves cells with just the instances that have it; read mode, write mode and right recursion alike |
| HeadUnification.HeadUnifies | src/pl-comp.c:628-731 | the code of a clause up to I_ENTER or I_EXITFACT, run on a call: it fails only if no instance of the goal is one of the head, and else the solutions are just these instances, with the slots of the variables holding what they stand for; exactly the slots of the head's variables are initialised then |
| GoalBuilding.ArgumentBuilt | src/pl-wam.c:2062-2370 | the code of any argument of a body, run on a cell that is not initialised, fills it with the argument, binds nothing but new variables, and initialises exactly that cell, the slots of its variables and its new terms |
| GoalBuilding.GoalBuilds | src/pl-comp.c:1087-1240 | the code of a goal, up to its call, puts the arguments of the goal into the argument block of the next frame |
| FrameLayout.ClauseIsLaid | src/pl-comp.c:628-887 | in the code of any clause the mark of each condition has a slot above those of all arguments and variables and inside the frame, no other instruction uses such a slot, and the procedures with a call instruction of their own are called by it |
| Decompiling.DecompileInfo.Head | src/pl-comp.c:1809-1963 | the loop over the head's instructions |
| Decompiling.DecompileInfo.Body | src/pl-comp.c:2063-2349 | the loop over the body's instructions, with its nested calls and build_term() |
| Decompiling.Listed | src/pl-comp.c:1969-2025 | a clause that is compiled and then decompiled comes back with its variables renamed and its conjunctions associated to the right |
| Bodies.CompilesIfCallable | src/pl-comp.c:773-887 | a body compiles if and only if all its goals are callable |
| ArgumentRoundTrip.ReadArgument | src/pl-comp.c:908-1076 | reading the code of any argument consumes exactly that code and builds the argument, with H_RFUNCTOR terms completed by the enclosing pop and deleted voids as fresh variables |
| BodyRoundTrip.DecompiledBody | src/pl-comp.c:2063-2314 | decompiling the code of any body up to I_EXIT consumes exactly that code and gives back the body, `,` to the right and `|` as `;` |
| HeadRoundTrip.FactRoundTrip | src/pl-comp.c:1809-1963 | a fact comes back from its code |
| HeadRoundTrip.RuleRoundTrip | src/pl-comp.c:1969-2025 | a rule comes back from its code |
| Variables.Analyses | src/pl-comp.c:357-432 | the table counts every variable as often as it occurs and numbers each once |
| Variables.Renames | src/pl-comp.c:357-390 | distinct variables stay distinct, and only one that occurs once loses its name |
| Variables.EverySlot | src/pl-comp.c:357-390 | every slot between the arguments and the end of the variables belongs to a variable that occurs more than once |
| Variables.ClauseRoundTrip | src/pl-comp.c:1969-2025 | decompile(compile(clause)) is the clause up to that renaming |
| ControlMeaning.CompiledBodyMeans | src/pl-comp.c:747-887 | the code of any body without *-> has the ordered solutions and the cut of direct evaluation, for all goals and all older choice points |
| MachineMeaning.MachineRunsBody | src/pl-wam.c:2700-2830 | the machine with its choice points and mark slots, which backtracking does not restore, terminates with just these solutions |
| MachineMeaning.RunBody | src/pl-comp.c:747-771 | running a body gives the solutions and the cut of ISO/IEC 13211-1, section 7.8, if no condition of a -> without an alternative holds a cut |
| LocalCuts.SameReading | src/pl-comp.c:747-771 | without such a cut the code's reading of a body is the standard's |
| LocalCuts.CutIsHarmless | src/pl-wam.c:2770-2793 | for A and B without local cuts of their own, (A, !, B -> C) does what the standard says if and only if not CutMatters: B fails for A's first solution, succeeds for the first solution behind a later oldest choice point of A, and C then does something |
| LocalCuts.WhenCutMatters | src/pl-wam.c:2770-2793 | the cut is harmless if A has at most one solution or B one for A's first; for a goal A it matters exactly if B fails for the first solution and not for all, and C does something |
| LocalCuts.CutInConditionKeepsChoice | src/pl-wam.c:2770-2793 | first, !, second -> true has no solution, and its code finds one |
| MachineMeaning.MachineRunsLocalCut | src/pl-wam.c:2735-2830 | the machine ends with the standard's result of (A, !, B -> C) if and only if not CutMatters |
| Initialisation.ClauseIsSound | src/pl-comp.c:628-731 | on no path is an initialised slot initialised again; and no slot is read before it is initialised if and only if the body never uses a variable that the table has and some path to the use has not set |
| Initialisation.CleanReads | src/pl-comp.c:572-589 | this holds if no variable first occurs under a \+ inside a disjunction |
| Initialisation.HidingIsUnsound | src/pl-comp.c:863-881 | the code of q :- ( \+ (fail, spare(X)) ; true ), later(X) reads an uninitialised slot |
| IndexKeys.GetIndex | src/pl-index.c:139-168 | the loop packs the keys of the chosen arguments into key and mask, the index that MatchesExactly is about |
| IndexKeys.MatchesExactly | src/pl-index.c:18-81 | when the indexes of a goal and a clause match: for the first argument alone, just if a key is missing or the keys are equal; for two to four arguments, just if no pair of keys differs in its folded low 32/c bits; for a single other argument, always |
| IndexKeys.NoLostSolutions | src/pl-index.c:18-81 | if each pair of indexed arguments may unify, the indexes match, for one to four groups and with leftover bits |
| ArgumentKeys.UnifiableMatches | src/pl-index.c:113-168 | a clause whose indexed head arguments unify with the goal's matches |
| ArgumentKeys.KeysTell | src/pl-index.c:113-136 | just atoms, small integers and compound terms have keys, and keys are equal just for the same atom or integer or the same functor |
| ArgumentKeys.ReindexAgrees | src/pl-comp.c:1676-1725 | arg1Key() on the code gives the index that indexOfWord() gives on the term, and fails exactly when there is no key |
| ClauseChains.ClauseChain.Append | src/pl-index.c:507-522 | the clause is first or last of the chain, which stays linked |
| ClauseChains.ClauseChain.Delete | src/pl-index.c:525-543 | the chain is the old one without the clause, head and tail consistent |
| ClauseChains.ClauseChain.Gc | src/pl-index.c:546-582 | exactly the erased clauses go, the others keep their order |
| ClauseIndexes.ClauseIndex.Add | src/pl-index.c:615-646 | every bucket still holds, in clause order, the clauses that hash there and all unindexed ones; dirty counts and size stay exact |
| ClauseIndexes.ClauseIndex.Remove | src/pl-index.c:649-664 | the same for deletion |
| ClauseIndexes.ClauseIndex.Erase | src/pl-index.c:604-612 | the same for erasing a clause of a predicate in use, which only marks |
| ClauseIndexes.ClauseIndex.Collect | src/pl-index.c:587-601 | the table of the clauses that are not erased; size is exact unless all chains were dirty |
| ClauseIndexes.HashDefinition | src/pl-index.c:670-690 | a new table of all clauses that are not erased |
| ClauseSearch.NextClause | src/pl-index.c:278-339 | the result is the first visible matching clause; the shortcuts for full and empty masks agree with matchIndex(); on the keyed paths *next is NULL exactly at the last match |
| ClauseSearch.FindClause | src/pl-index.c:195-275 | the same for the clauses behind a choice point |
| ClauseSearch.FirstClause | src/pl-index.c:342-388 | searching a hash bucket selects what searching the whole list would |
| ClauseSearch.Enumerate | src/pl-index.c:195-388 | firstClause() and then findClause() return exactly the visible matching clauses, in clause order, each once |
| UpdateView.AssertClause | src/pl-proc.c:688-737 | the clause joins the list and its buckets at the chosen end; cells that a goal waits at keep their places |
| UpdateView.RetractClause | src/pl-proc.c:875-908 | a clause of a predicate in use is marked and stays where it is |
| UpdateView.LogicalUpdateView | src/pl-index.c:195-388 | a goal finds exactly the clauses that were visible and matched when it was called, in order, whatever is asserted at either end or retracted after each of them, through the list and through hash buckets |
| Snapshots.PlayAndCall | src/pl-proc.c:688-908 | whatever is asserted and retracted: a goal of any generation finds just the clauses that the predicate had in that generation and that its index does not rule out; a goal of the new generation finds the asserted clause and not the retracted one, an older one finds what it found before; through the list and through the buckets |
| AtomTables.AtomTable.constructor | src/pl-atom.c:575-628 | the built-in atoms are registered in order |
| AtomTables.AtomTable.Register | src/pl-atom.c:172-196 | a new atom goes to the first hole, the array grows only when it is full, no_hole_before stays right |
| AtomTables.AtomTable.Rehash | src/pl-atom.c:535-558 | every atom is in the bucket of its hash value in the doubled table; there is no hole when it is called |
| AtomTables.AtomTable.Lookup | src/pl-atom.c:203-251 | finds the atom with this text or registers it; table and array agree over all runs; other atoms keep counts and marks |
| AtomTables.AtomTable.CollectAll | src/pl-atom.c:380-425 | exactly the unmarked, unreferenced atoms that the hook gives up are removed, survivors keep their handles |
| AtomTables.AtomTable.GarbageCollect | src/pl-atom.c:428-481 | an atom is removed if and only if it is not built in, not referenced, not on the stacks and given up by the hook |
| HeapAllocator.Allocator.AllocHeap | src/pl-alloc.c:88-150 | the block is new and live with its rounded size, the invariant and statistics.heap are kept, a perfect fit is reused with its first word cleared, and no word of another live block changes |
| HeapAllocator.Allocator.FreeHeap | src/pl-alloc.c:153-178 | the block is no longer live, and a small one is first on the chain of its size; the invariant and statistics.heap are kept, and no word of a live block changes |
| HeapAllocator.Allocator.Allocate | src/pl-alloc.c:191-239 | carving keeps the invariant and the words of all live blocks, and what is left of the spare region goes to a chain before a new chunk is taken |
| HeapAllocator.Allocator.Cleanup | src/pl-alloc.c:264-271 | every area is freed once; the state is a fresh one if and only if nothing was live, because statistics.heap is not reset |
| HeapState.NothingOverlaps | src/pl-alloc.c:88-239 | live blocks never overlap |
| HeapState.NotListed | src/pl-alloc.c:88-239 | no live block is on a free chain |
| HeapState.EveryByteOnce | src/pl-alloc.c:191-239 | every byte of every chunk is in exactly one live block, one free block of one chain or the spare region |
| BigHeaps.BigHeapList.Unlink | src/pl-alloc.c:300-313 | the doubly linked list stays linked without the area |
| BigHeaps.BigHeapList.FreeAll | src/pl-alloc.c:316-325 | every area is freed once |

## Findings

Five properties that the design suggests do not hold of the code. The model keeps the code as it
is, and states exactly when the property holds.

- **Early reset forgets destructive assignments** (`src/pl-gc.c:700-725`). A trail segment is
  scanned before the frames of its choice point are marked. An assignment to a cell that only those
  frames can see is deleted as if the cell were dead, and the old value does not come back on
  backtracking. `UndoAfter.ResetIsSafe` has the condition, `ForgottenAssignment` well-formed stacks
  on which the collector does it.
- **A slot may be read before it is initialised** (`src/pl-comp.c:787-846, 863-881`). `setVars()`
  counts a variable under a `\+` in a branch of a disjunction as set by that branch, while the
  `\+` itself restores the table; so no C_VAR is emitted, and a later use is not a first one.
  `Initialisation.ClauseIsSound` has the condition, `Initialisation.HidingIsUnsound` the clause
  `q :- ( \+ (fail, spare(X)) ; true ), later(X)`.
- **A cut in the condition of `->` without an alternative may keep a choice point**
  (`src/pl-wam.c:2770-2793`). C_LCUT keeps the oldest choice point since the mark, taking it for
  that of the mark; C_MARK makes none. `LocalCuts.CutIsHarmless` has the condition,
  `LocalCuts.CutInConditionKeepsChoice` the body `first, !, second -> true`.
- **An index on a single argument other than the first tells nothing apart**
  (`src/pl-index.c:73-81, 139-168`). `mask_mask[1]` is 0, so the key of such an index is always 0
  and every clause matches. No solution is lost. `IndexKeys.MatchesExactly` has what each kind of
  index tells apart.
- **`cleanupMemAlloc()` does not reset the statistics** (`src/pl-alloc.c:264-271`): afterwards
  `statistics.heap` still counts the blocks that were live (`HeapAllocator.Allocator.Cleanup`).

## Left out

- Stack layout: real machine words, doubles and string bytes; an indirect is an opaque block between equal headers.
- Frames: `clearUninitialisedVarsFrame()` and the walk over frames with FR_MARKED (`src/pl-gc.c:556-661`); the slots that each query and each choice point's frames contribute, first visits only, are given as lists.
- Stack shifting, signals, locks, statistics output, DEBUG and SECURE code, and timing.
- Soft cuts: the code of `*->` is compiled, decompiled and followed for initialisation, but it is not given a meaning.
- Goals: what a goal does is a parameter, a finite list of solutions; exceptions and goals with infinitely many solutions are not modelled.
- LocalCuts.CutIsHarmless: about conditions of the form A, !, B with no other local cut in A and B; for all other conditions ControlMeaning.CompiledBodyMeans gives the meaning of the code without comparing it with the standard.
- Arithmetic compilation (`compileArith()`), break-points, I_CONTEXT and I_NOP.
- HeadUnification.HeadUnifies: `unify()` is a parameter that gives just the common instances; a cell holds the functor of a term with the place of its arguments, where the source has a word of its own for the functor; trailing and stack overflow are not modelled. Terms are finite: cells that hold a cyclic term stand for no solution, as there is no occurs check.
- CollectedStacks.PreparedAgain: asks that the oldest choice point saved the bottom of the trail, as the one of the first query does; the collector does not scan entries below it.
- Compiling.CompileInfo.Argument: variables are replaced by their offsets in the term instead of through marked cells, and tables of used variables are sets instead of bit vectors.
- The mask of `hashIndex()` is the remainder by the number of buckets, which is a power of two.
- Clause indexes: NEEDSREHASH, and the decision which predicates get an index (`pl_hash()`, automatic indexing).
- Atoms: memory of names, other effects of the hook, and the write to `references` of a freed atom (`src/pl-atom.c:423`); what is on the stacks is a parameter of the collection.
- Allocation: after a failed `malloc()` the program does not go on, and nothing is stated about it; what `malloc()` gives is a parameter.
