# A verified model of Fable OS's compiler, scheduler, apps and stores

This project models, in Dafny, the parts of Fable OS whose correctness is hardest
to see by reading, and proves what the system promises of them. `dafny verify
dfyconfig.toml` checks all of it.

**The C compiler.** `CTree` gives C's meaning to the typed trees the parser builds,
as a total function of fuel and stack. `X64` is the machine, `Gen` the code of a
tree, and `Sim*` prove that running the code is the meaning: value extended to 64
bits, memory, order of evaluation, traps, aborts, and a bound on steps linear in
fuel. `Depth` and `DepthRun` say where rsp is at every instruction of every run.
`Emit*` and `Emitter` are the generator as it is written, arrays, labels and fixups
included, with the exact limits it refuses a unit at, and the proof that its buffer
ends up holding exactly that code; `Compiled` puts the two together. `CTypes`,
`CCases`, `CParsed`, `CPostfix`, `CUpdate`, `CLowers`, `CStatements`, `CFrame` and
`CFence` do the same for what the parser builds: the usual arithmetic conversions,
switch labels, and compound assignment through hidden temporaries; `CSource` goes all
the way from a function as written to the buffer. `COps`, over `Division`, says what
each C operator and each tree the parser builds for one gives, in plain numbers and
bits; `CNodes` gives parsed statements a meaning of their own and proves that the trees
have it. `Macro` is the preprocessor's frame stack. `CcStore` and `CcRegistry` are the
program store, its backup, and the one cached image; `CcLaws` says what a save, a
delete, a call and start-up each do to it.

**Fibers.** `Fiber` is the cooperative scheduler: stack blocks are conserved, the
panics unreachable, waiting bounded. `FiberLaws` says what each operation does, and that
the slots in use are those of fibers created and not yet joined.

**The agenda.** `Agenda`, `AgendaOnce` and `AgendaTable` are the boot and timer
items with their durable marker, under crashes at any write and in any action; `AgendaLaws`
says which item a tick starts, how a run is accounted for and what an edit changes.

**Apps.** `AppNum` and `AppValue` are the fixed-point numbers and the functions;
`AppParse`, `AppPrint`, `AppPost`, `AppAccept`, `AppEval`, `AppRun` and
`AppCompiler` the expression language from text to value; `AppBlocks` the handlers;
`Cap` the sound broker and its rotation. `AppLaws` says what each operator and function
of that language gives, `AppSpell` how tokens bind and numbers are spelled, `BlockLaws`
what a compiled handler amounts to, `CapLaws` what the broker answers.

Where the source works in place on arrays and fields there is a class with the same
fields and loops, each method proved equal to a function on values; the theorems
are about those functions.

Some promises turned out to hold only under a condition. Each has a lemma with a
concrete case where it fails and one that says exactly when it holds:

- A crash during a save is harmless for an intact file that the save backs up, but
  not when it does not (the program is not registered, or the file could not be read
  just then), nor for a program recovered from its backup (`CcStore.SaveSafeIff`,
  `UncopiedLost`, `RecoveredLost`).
- Whatever fails, a call runs a text saved under the name called
  (`CcStore.NeverOthers`). That it is the registered version's text fails when a
  record that cannot be read at start-up, in a call or in a save can be read at
  another time (`GlitchMislabels`, `CallMislabels`, `SaveMislabels`), and after a
  million saves (`MillionthLost`); it holds exactly when none of the three guards was
  passed by (`CallRunsOwn`, `InitKeeps`, `SaveKeeps`, `RunKeeps`, `NeverForeign`).
- Sounds stay under half of the machine when each blocks for less than four seconds,
  not "whatever a driver" does; for given block times exactly when the quiet times add
  up to more (`Cap.UnderHalfShort`, `HalfIff`, `SlowSinkOverHalf`).
- A boot item kills the machine at most once exactly unless its marker write was
  refused while the store had it on and unmarked (`AgendaOnce.KilledOnce`,
  `KillsAgainIff`, `RefusedMarkerKillsTwice`); and a boot item that ran is written to
  the store as disabled by the next write for any reason, so it does not re-arm at
  every boot (`RanThenWritten`).
- A `case` may sit "at any depth of block", says the parser, but its switch only finds
  it if every block around it starts with a block, a case, an if or a loop; otherwise
  the generator refuses the unit (`CParsed.WalksAll`, `RefusedForSize`, `DuffRefused`).
- `v++` gives the old value except where a one- or two-byte variable wraps
  (`CTypes.PostfixIff`, `CPostfix.PostfixGivesOld`).
- The limit of 512 statements for a handler can never be reached, because each of
  at most 128 statements runs at most once (`AppBlocks.HandlerRuns`).

## Model

| member | source | states |
|---|---|---|
| `Compiled.CompiledRuns` | compiler/cc_x64.c:749-824 | whatever unit the generator accepts, running the buffer it filled gives the meaning of the entry function: result, memory, fuel left and the kernel stack pointer, or the recorded abort, in at most 8 + C(fuel + 1) steps |
| `CParsed.AcceptedRuns` | compiler/cc_x64.c:749-824 | the same for every unit the parser builds and the generator accepts: it is then well formed, so the buffer runs to its meaning |
| `CSource.SourceRuns` | compiler/cc_parse.c:2511-2590 | and from the entry function as written, compound assignments anywhere in it, to the filled buffer: running the buffer gives the written value, fuel and memory but for its temporaries, or the abort or trap, within the linear bound |
| `CSource.LowerTyped` | compiler/cc_parse.c:578-638 | an expression typed as written lowers, temporaries included, to a well-typed tree of the same type |
| `CSource.LowerFormed` | compiler/cc_parse.c:2271-2500 | and a statement accepted as written to a well-formed one |
| `Compiled.DepthIsReal` | compiler/cc_x64.c:129-130 | at every state of every run of that buffer, inside a function, rsp lies below rbp and the frame by the depth the emitter had when it put down the instruction there, plus one word of padding around a call of odd depth; no call is misaligned and control stays in the image |
| `Compiled.LabelsAgree` | compiler/cc_x64.c:107-127 | a jump and the instruction it goes to were put down at the same depth, unless it goes to an abort |
| `Compiled.RecordedDepth` | compiler/cc_x64.c:129-130 | the depth the emitter had at each instruction of a function is the number of words pushed and not popped by the code up to there |
| `DepthRun.StackAtEveryPoint` | compiler/cc_x64.c:707-747 | the same fact about the stack for the reference image, for every run from its first instruction whatever the program does |
| `DepthRun.FramesClear` | compiler/cc_x64.c:707-747 | at every state of every run inside a function, no byte of a variable of any active frame is a byte of a pushed word, a saved frame pointer or a return address, and none lies below rsp |
| `DepthRun.JumpsAgree` | compiler/cc_x64.c:563-701 | in every function a jump and its target have the same words on the stack, and a call is padded exactly if an odd number of words is pushed |
| `Depth.LevelE` | compiler/cc_x64.c:419-561 | an expression's code leaves as many words as it found; every jump in it lands at the depth it left or aborts; every call is padded exactly if the depth is odd |
| `Depth.LevelS` | compiler/cc_x64.c:563-701 | the same for statements, with nothing pushed at any case label or where break, continue and return go |
| `EmitDepth.TrackUnit` | compiler/cc_x64.c:129-130 | in the items of every function the recorded depths count pushes less pops from the function's first item on |
| `EmitFitsS.EmitsIff` | compiler/cc_x64.c:95-127 | emission of any unit succeeds exactly when every break, continue, case and call in it has something to refer to, its code fits the buffer, and its labels, jumps and nesting fit their tables, each counted from the trees |
| `CParsed.RefusedForSize` | compiler/cc_x64.c:660-824 | a unit as the parser builds it is refused exactly when some switch missed a label of its own, or for its size: code, labels, jumps or nesting |
| `EmitFitsS.FormedFits` | compiler/cc_x64.c:812-824 | a well-formed unit is refused for its size alone |
| `SimOps.BinRun` | compiler/cc_x64.c:298-338 | the instructions for a binary operator leave in rax the C value of the operation, extended to 64 bits for its type, or trap exactly when the division does |
| `SimOps.CmpRun` | compiler/cc_x64.c:342-357 | a comparison's instructions leave 1 or 0 as the two values compare, signed or unsigned by their type |
| `SimOps.NormRun` | compiler/cc_x64.c:182-196 | normalising rax, whose low bits alone need to be right, leaves the encoding of the value converted to the type |
| `SimBlocks.ZeroRun` | compiler/cc_x64.c:271-293 | the zeroing code clears exactly the bytes asked for, in a number of steps fixed by the size and without spending fuel, or traps |
| `SimBlocks.ChainRun` | compiler/cc_x64.c:671-696 | the compare chain of a switch ends at the label of the first equal case, or falls through when there is none |
| `SimCalls.EnterRun` | compiler/cc_x64.c:382-396 | arguments end in their registers and rsp at a multiple of 16, one unit of fuel is spent, and with none left control goes to the abort |
| `SimCalls.KernelRun` | compiler/cc_x64.c:397-417 | a kernel call gives whatever the kernel answers that call with, in rax, in memory and in the scratch registers, and leaves the stack as it was |
| `Sim.SimE` | compiler/cc_x64.c:419-561 | for every well-typed expression, with any number of words pushed as long as its parity is known, the emitted code ends just past it with rax the encoded value, memory and fuel as the meaning says, the pushed words and rsp as before; or traps or aborts as the meaning does; in steps linear in the fuel spent |
| `Sim.SimL` | compiler/cc_x64.c:210-242 | the same for addresses of lvalues |
| `Sim.SimA` | compiler/cc_x64.c:382-396 | the same for argument lists: each value waits on the stack in order |
| `Sim.SimF` | compiler/cc_x64.c:707-747 | a call of a generated function runs prologue, body and epilogue and returns to its caller with the meaning's result, rbp and rsp restored |
| `Sim.SimS` | compiler/cc_x64.c:563-701 | for every statement (blocks, if, loops, switch entered at a case, break, continue, return) the emitted code reaches the state of the big-step meaning, within a cost linear in fuel |
| `SimUnit.ImageRuns` | compiler/cc_x64.c:749-796 | running the whole image gives the meaning of the entry function: result, memory, fuel left and the kernel stack pointer, or the recorded abort, in at most 8 + C(fuel + 1) steps |
| `SimUnit.ImageStops` | compiler/cc_x64.c:137-147 | with return addresses out of reach of the program's own stores, every run of every image ends halted or trapped within that bound; on the way no call is made with rsp off a multiple of 16 and control never leaves the image |
| `NeverWild.TameE` | compiler/cc_parse.c:465-568 | with nothing fenced, a well-typed expression always has a meaning |
| `NeverWild.TameS` | compiler/cc_parse.c:2271-2420 | the same for well-formed statements, and a break or continue never escapes to where none is allowed |
| `CTree.EvalFits` | compiler/cc_x64.c:182-196 | the value of every expression lies in the range of its type |
| `CcRun.ReportMeans` | compiler/cc.c:620-695 | what a run reports (value, fuel used, out of fuel, out of stack) is what the program means under the fuel it is given, and the most any run can take is bounded by the largest fuel |
| `EmitKeeps.NeatE` | compiler/cc_x64.c:95-147 | emitting an expression restores the depth and the exits, leaves earlier labels alone and adds no label that is jumped to but not placed |
| `EmitKeepsS.NeatStmt` | compiler/cc_x64.c:563-701 | the same for statements: depth 0 again at every statement boundary, every case label of the statement placed |
| `EmitLays.LaysE` | compiler/cc_x64.c:419-561 | the items the emitter appends for an expression, jumps filled in, are the code of the reference generator |
| `EmitLaysS.LaysS` | compiler/cc_x64.c:563-701 | the same for statements, with every case label where the switch expects it |
| `EmitImage.ImageIs` | compiler/cc_x64.c:749-812 | the emitter's whole image, jumps filled in, is the reference image and no jump is left without a target |
| `Emitter.Emitter.Put` | compiler/cc_x64.c:95-100 | appends one item, or sets the failure flag when the buffer is full |
| `Emitter.Emitter.LabelNew` | compiler/cc_x64.c:107-111 | hands out the next label, unplaced, or fails at the limit |
| `Emitter.Emitter.LabelHere` | compiler/cc_x64.c:112-115 | places a label at the current end |
| `Emitter.Emitter.Rel32` | compiler/cc_x64.c:116-127 | appends a jump and records its fixup, or fails at the limit |
| `Emitter.Emitter.GenExpr` | compiler/cc_x64.c:419-561 | the recursive emitter over its arrays equals the emitter on values |
| `Emitter.Emitter.GenAddr` | compiler/cc_x64.c:210-242 | the same for lvalues |
| `Emitter.Emitter.GenArgs` | compiler/cc_x64.c:382-396 | the same for arguments |
| `Emitter.Emitter.GenStmt` | compiler/cc_x64.c:563-701 | the same for statements |
| `Emitter.Emitter.GenLoop` | compiler/cc_x64.c:615-649 | the same for loops, with the break and continue stacks pushed and popped |
| `Emitter.Emitter.GenSwitch` | compiler/cc_x64.c:671-696 | the same for switches |
| `Emitter.Emitter.GenFunc` | compiler/cc_x64.c:707-747 | the same for a function |
| `Emitter.Emitter.GenImage` | compiler/cc_x64.c:749-796 | the same for a unit: trampoline, functions, abort exits |
| `Emitter.Emitter.Resolve` | compiler/cc_x64.c:800-812 | fills in every recorded jump; refuses exactly when a label that is jumped to was never placed |
| `Emitter.Codegen` | compiler/cc_x64.c:749-824 | accepts exactly when there is a main, the unit fits (code, labels, jumps and nesting, counted from the trees) and no jump lacks a target, which for well-formed functions none does; the buffer then holds the reference image |
| `CTypes.CommonIsUsual` | compiler/cc_parse.c:304-326 | the type computed from sizes and signs is the one of sections 6.3.1.1 and 6.3.1.8 of C11 |
| `CTypes.HoldsIff` | compiler/cc_parse.c:304-326 | the common type holds both operand types exactly when it is not unsigned against a signed operand |
| `CTypes.TreesTyped` | compiler/cc_parse.c:465-568 | the trees for arithmetic, comparison and shift are well typed with the types C gives them |
| `CTypes.PointerTreesTyped` | compiler/cc_parse.c:480-541 | pointer steps and pointer differences are well typed |
| `CTypes.ArithExact` | compiler/cc_parse.c:465-479 | where the common type holds both types and the exact result, the operation gives the exact result and cannot trap |
| `CTypes.CompareExact` | compiler/cc_parse.c:543-568 | where the common type holds both types, a comparison compares the numbers |
| `CTypes.NarrowDifference` | compiler/cc_parse.c:304-326 | the difference of two one-byte unsigned values is their difference, negative when it is |
| `CTypes.PostfixIff` | compiler/cc_parse.c:1406-1418 | the value postfix increment and decrement compute is the old one exactly when the variable is of four or eight bytes or does not wrap |
| `CPostfix.PostfixMeans` | compiler/cc_parse.c:1406-1418 | the tree built for it finds the variable's place once, reads it once, writes the stepped value once, and gives that value |
| `CPostfix.PostfixGivesOld` | compiler/cc_parse.c:1406-1418 | so the tree gives the value read from memory exactly unless a one- or two-byte variable wrapped |
| `CPostfix.PointerGivesOld` | compiler/cc_parse.c:1406-1418 | on a pointer, with both steps scaled, it always gives the old pointer and leaves it moved by one thing, also where it wraps |
| `CTypes.AsTypeIs` | compiler/cc_parse.c:2186-2197 | a case constant's pattern becomes the encoding of its value converted to the type |
| `CCases.Collect` | compiler/cc_parse.c:2199-2269 | the walk with its own stack of lists succeeds exactly when what it comes to has no label twice after conversion, at most 64 cases, and never more than 128 lists waiting; it then has the values in the order found and whether there is a default |
| `CParsed.WalksAll` | compiler/cc_parse.c:2252-2265 | the walk gathers every label of the switch exactly when every block in it that holds one starts with a block, a case, an if or a loop |
| `CParsed.DuffRefused` | compiler/cc_parse.c:2252-2265 | a loop entered in the middle passes the walk with its second label missed, and no unit with it is accepted, whatever its size |
| `CParsed.SwitchFormed` | compiler/cc_parse.c:2199-2269 | the switch built from a body the walk accepts meets everything the code generator relies on exactly when no label was missed |
| `CParsed.TreeFormed` | compiler/cc_parse.c:2271-2500 | whatever is parsed is well formed exactly when every switch in it found all its labels |
| `CParsed.ConvertedLabels` | compiler/cc_parse.c:2212-2265 | the labels of a switch's tree are those the walk found, converted, and one without a place for each it missed |
| `COps.BinGives` | compiler/cc_x64.c:298-340 | what each binary operator gives, said without the functions that compute it: sums, differences, products and left shifts up to a multiple of the type's range, quotients and remainders toward zero, bits one by one, right shifts rounded down |
| `COps.TrapsIff` | compiler/cc_x64.c:311-322 | a division traps exactly on a zero divisor and on the lowest value divided by -1 |
| `COps.BitwiseIs` | compiler/cc_x64.c:324-326 | each bit of `&`, the or and `^` is set exactly when both, either or one of the operands' bits there is |
| `COps.MaskGives` | compiler/cc_x64.c:324-324 | masking with the k low bits gives the rest modulo 2^k |
| `COps.AndOrGive` | compiler/cc_x64.c:324-326 | `&` and the or of two values add up to their sum, and `^` is their difference |
| `COps.Pow2Adds` | compiler/cc_x64.c:327-333 | shifting by m and then by n is shifting by m + n |
| `COps.Pow2Values` | compiler/cc_x64.c:327-333 | the powers of two the widths need are the numbers they should be |
| `COps.ArithMeans` | compiler/cc_parse.c:465-478 | the parser's tree for an arithmetic operator: right operand, then left one, both converted to the common type of C's rules, then what the operator gives of left and right in that order, or its trap |
| `COps.ArithNumbers` | compiler/cc_parse.c:465-478 | where the common type has every value of both operands' types it is the numbers themselves, exact whenever the result fits |
| `COps.CompareMeans` | compiler/cc_parse.c:541-568 | the tree of a comparison gives 1 or 0 as the operands compare at the common type, as the numbers do where that has both types' values, and as addresses do for pointers |
| `COps.ShiftMeans` | compiler/cc_parse.c:1571-1598 | the tree of a shift by a count inside the width multiplies or divides by that power of two at the promoted type of the left operand |
| `COps.StepMeans` | compiler/cc_parse.c:480-537 | pointer plus or minus a number moves the address by so many things, around the end of the address space |
| `COps.DistanceMeans` | compiler/cc_parse.c:507-523 | the difference of two pointers counts the things between them |
| `COps.UpdateGives` | compiler/cc_parse.c:577-638 | what a compound assignment stores: the operator at the common type converted back to the left side's type, nothing if it traps; a shift at the left side's own type; a pointer moved by whole things |
| `COps.StoredByte` | compiler/cc_x64.c:171-179 | byte i of what is stored is digit i of the value in base 256 |
| `COps.LoadedByte` | compiler/cc_x64.c:153-169 | and digit i of what is loaded is byte i |
| `CNodes.KeyIs` | compiler/cc_parse.c:2185-2236 | a case label keeps its value if the condition's type has it, and otherwise is the one value of the type that differs by a multiple of the range; that is what the parser's pattern stands for |
| `CNodes.TreeMeans` | compiler/cc_parse.c:2146-2500 | statements as the parser read them have a meaning of their own, and the tree handed to the generator means the same: order of a block, arms of an if, loops, and where a switch begins |
| `CNodes.FunctionMeans` | compiler/cc_parse.c:2511-2590 | the same for every function of a unit the generator accepts, calls included |
| `CNodes.ParsedRuns` | compiler/cc_x64.c:749-824 | from statements as parsed to the filled buffer: running it gives what the entry function means |
| `CNodes.OneCase` | compiler/cc_parse.c:2199-2260 | `switch (c) { case v: s }` begins s exactly when the value of c equals v converted to its type |
| `CFence.BlindE` | compiler/cc_parse.c:1115-1141 | an expression that never touches a fenced region does the same without the fence, whatever the region holds, and leaves the region alone |
| `CFence.BlindS` | compiler/cc_parse.c:2271-2420 | the same for statements |
| `CFence.BlindFunc` | compiler/cc_parse.c:2511-2590 | the same for calls of generated functions |
| `CLowers.HiddenMeans` | compiler/cc_parse.c:578-638 | while the temporary keeps the address, the comma form is one read-modify-write at that address |
| `CLowers.LowersE` | compiler/cc_parse.c:578-638 | for every expression with any nesting of compound assignments, the form with temporaries has the same outcome as evaluating each lvalue once; only this expression's own temporaries differ in memory |
| `CLowers.LowersUpdate` | compiler/cc_parse.c:590-637 | the same for one compound assignment: nested ones use other temporaries and do not disturb it |
| `CFrame.StatementMeans` | compiler/cc_parse.c:2274-2277 | an expression statement, whose temporaries start from the first again, means what was written |
| `CStatements.LowersS` | compiler/cc_parse.c:2271-2420 | statements of any form with compound assignments anywhere in them mean what was written, but for this frame's temporaries in memory |
| `CStatements.FunctionMeans` | compiler/cc_parse.c:2511-2590 | a whole function, parameters and body, returns the same value, fuel and memory as written, but for the temporaries of the frame it gives up |
| `CFrame.TempsApart` | compiler/cc_parse.c:1115-1141 | two temporaries of a statement never overlap, and none overlaps a variable of the frame |
| `CFrame.VariableUnfenced` | compiler/cc_parse.c:2555-2558 | no access to a variable of the frame touches the temporaries |
| `CFrame.Frame.NewLocal` | compiler/cc_parse.c:1088-1113 | a new variable is aligned, apart from all others and below the temporaries; refused exactly when it has no size, the frame is too large or there is no memory for its symbol |
| `CFrame.Frame.NewTemp` | compiler/cc_parse.c:1117-1141 | the next of sixteen temporaries, refused exactly when all are taken or there is no memory for its symbol |
| `CFrame.Frame.FrameBytes` | compiler/cc_parse.c:2583-2584 | the frame is a multiple of 16, less than 16 bytes larger than needed, and every variable and temporary lies inside it |
| `CFrame.Frame.NewStatement` | compiler/cc_parse.c:2274-2277 | temporaries are free again, variables untouched |
| `Macro.Expander.RunAll` | compiler/cc_lex.c:954-1046 | the frame-stack loop succeeds exactly when open bodies, substitutions, copies of bodies and tokens put out fit, and then outputs the recursive expansion with ancestor names disabled; it ends by the weight of what is left to read |
| `Macro.RescanIs` | compiler/cc_lex.c:556-560 | the recursive expansion is what rescanning one list with hide sets gives (section 6.10.3.4 of C11) |
| `Macro.AheadIsNext` | compiler/cc_lex.c:572-604 | looking one token ahead sees what would be current after consuming the current one |
| `Macro.ExpandTurn` | compiler/cc_lex.c:1008-1033 | one substitution leaves the rest of the output unchanged and makes the measure smaller |
| `Macro.EmitTurn` | compiler/cc_lex.c:1037-1043 | one emitted token is the first token of what was to come |
| `Macro.Expander.PeekTok` | compiler/cc_lex.c:572-577 | pops exhausted frames and gives the current token |
| `Macro.Expander.NextTok` | compiler/cc_lex.c:578-583 | consumes the current token |
| `Macro.Expander.PeekAheadTok` | compiler/cc_lex.c:594-604 | gives the token after the current one and consumes nothing |
| `Macro.Expander.Expanding` | compiler/cc_lex.c:556-560 | whether some frame is expanding the name |
| `CcStore.SaveSafeIff` | compiler/cc_store.c:712-737 | after a crash at any point of a save, start-up loads the old or the new record exactly when an intact file is backed up, or its backup already stands in, or a damaged file is not about to be copied over the backup |
| `CcStore.IntactSafe` | compiler/cc_store.c:712-737 | from an intact file that is backed up (its program registered and the file read by the save) every crash is harmless |
| `CcStore.UncopiedLost` | compiler/cc_store.c:685-737 | an intact file that is not backed up, because its program is not registered or the save could not read it, is lost when the save is cut off |
| `CcStore.RecoveredLost` | compiler/cc_store.c:719-732 | a program recovered from its backup is lost when its next save is cut off, because the damaged file overwrites the backup |
| `CcStore.RunKeeps` | compiler/cc_store.c:747-843 | over every interleaving of compile, save, delete, call, start-up and failed attempts: after every step names are distinct, the store gives the registered version or nothing, and an image that would be used for a program is compiled from its text, exactly when every step was guarded |
| `CcStore.CallRunsOwn` | compiler/cc_store.c:793-846 | whatever a call runs, cached or compiled afresh, is the registered version's text exactly when the call was not handed an older text for a record it could not read; and exactly then the invariant stays |
| `CcStore.StepKeeps` | compiler/cc_store.c:509-846 | every operation keeps the invariant exactly when it is guarded, whichever of its reads and writes fail |
| `CcStore.InitKeeps` | compiler/cc_store.c:509-588 | so for start-up: exactly when no program is registered from its backup while its current record, another version, could not be read |
| `CcStore.SaveKeeps` | compiler/cc_store.c:630-760 | and for a save: exactly unless it ruins a record it could not read and so did not back up, while the backup holds another version, or writes a version above a million, which is not taken back, over a readable backup |
| `CcStore.NeverForeign` | compiler/cc_store.c:793-846 | after any guarded history, what a call runs is the registered version's text exactly when the call is guarded too |
| `CcStore.NeverOthers` | compiler/cc_store.c:604-624 | over every history, whatever reads and writes fail, the text a call runs was at some time filed in the store under the name called: never another program's code |
| `CcStore.UnbackedRuns` | compiler/cc_store.c:813-846 | once the store gives another text than the registered version's, the next call runs and keeps it if it compiles to the same number of parameters |
| `CcStore.GlitchMislabels` | compiler/cc_store.c:509-544 | a file that fails to read once at start-up and reads later is run under the older version its backup registered |
| `CcStore.CallMislabels` | compiler/cc_store.c:613-624 | a file that fails to read once during a call has its backup run, and kept, as the registered version |
| `CcStore.SaveMislabels` | compiler/cc_store.c:719-732 | a file that fails to read once during a save and is ruined by it has the older backup run as the registered version |
| `CcStore.MillionthLost` | compiler/cc_store.c:437-446 | after a million saves the next one is not taken back: the next start, or a call after something else was compiled, has the version before it |
| `CcStore.CommitKeeps` | compiler/cc_store.c:712-752 | of all the ways the writes of a save can end, exactly those two break the invariant |
| `CcStore.DeleteKeeps` | compiler/cc_store.c:764-788 | so does a delete, whether or not the files really go |
| `CcRegistry.Registry.SaveNow` | compiler/cc_store.c:630-760 | the save over the registry array equals the save on values, and every intermediate state of the two files is one the crash analysis covers |
| `CcRegistry.Registry.CommitNow` | compiler/cc_store.c:712-752 | backup first, record second, registry and image name last |
| `CcRegistry.Registry.CallNow` | compiler/cc_store.c:793-846 | the call over the arrays equals the call on values |
| `CcRegistry.Registry.Source` | compiler/cc_store.c:604-624 | the two attempts give the current record or else the backup's |
| `CcRegistry.Registry.DeleteNow` | compiler/cc_store.c:764-788 | closes the gap in the registry and forgets the image's name |
| `CcRegistry.Registry.InitNow` | compiler/cc_store.c:546-588 | loads every name of the directory in order until the registry is full |
| `CcRegistry.Registry.CompileNow` | compiler/cc.c:425-562 | the image is dropped first and the serial grows only on success |
| `CcLaws.DeleteDoes` | compiler/cc_store.c:764-787 | after a delete the name is not registered, a call of it finds nothing, and no other program is touched |
| `CcLaws.SaveRuns` | compiler/cc_store.c:630-762 | a save whose writes went through registers the new version, the next call runs its text whatever can be read, and the others are untouched |
| `CcLaws.SaveStops` | compiler/cc_store.c:630-762 | one that does not get that far leaves the registry as it was |
| `CcLaws.CallDoes` | compiler/cc_store.c:793-846 | a call changes neither registry nor files, and runs what is cached or what the store gives exactly when the name is registered and the arguments are as many as it takes |
| `CcLaws.InitDoes` | compiler/cc_store.c:509-602 | start-up registers, of a directory that fits, exactly the programs with a record, each as its record says |
| `Fiber.RunKeeps` | core/fiber.c:259-616 | over every run of create, yield, exit, join and reset the taken blocks are the slot-owned ones and the pending one, all distinct, and every waiting fiber can be resumed |
| `Fiber.StepKeeps` | core/fiber.c:282-616 | each operation keeps that |
| `Fiber.SwitchCloser` | core/fiber.c:244-251 | every switch brings the turn strictly nearer to a ready fiber |
| `Fiber.FairWithin` | core/fiber.c:312-330 | short of a reset, a ready fiber is given the processor within FIBER_MAX - 1 switches, whatever is created, exits or is joined in between |
| `Fiber.StarvedSwitches` | core/fiber.c:244-330 | while a ready fiber waits, switches made and distance left add up to at most the first distance |
| `Fiber.HeapBound` | core/fiber.c:56-80 | at most FIBER_MAX stack blocks are taken at any time |
| `Fiber.Scheduler.NextRunnable` | core/fiber.c:244-251 | the first ready slot in cyclic order, if any |
| `Fiber.Scheduler.Resumed` | core/fiber.c:282-310 | what the far side of a switch does: the pending block is freed once |
| `Fiber.Scheduler.YieldNow` | core/fiber.c:312-330 | never panics and does what the value-level yield does |
| `Fiber.Scheduler.ExitNow` | core/fiber.c:479-545 | panics only when there is no scheduler or the root leaves; otherwise something runnable is always found, it is never a dead fiber, and the stack left behind is freed on the far side |
| `Fiber.Scheduler.CreateNow` | core/fiber.c:389-464 | takes the first free slot, or refuses and gives the block back |
| `Fiber.Scheduler.ReleaseNow` | core/fiber.c:550-580 | the end of a join: a dead fiber's slot becomes free, once |
| `Fiber.Scheduler.ResetNow` | core/fiber.c:582-616 | refused to all but the root; every taken block goes back, each once |
| `Fiber.Scheduler.InitNow` | core/fiber.c:334-385 | starts with the root running and no block owned |
| `Fiber.Scheduler.Kfree` | core/fiber.c:259-267 | frees a block that is taken and is not the running stack |
| `FiberLaws.CreateDoes` | core/fiber.c:389-477 | a create takes the first free slot and makes it ready on its own new block, or changes no slot and takes no block |
| `FiberLaws.ReleaseDoes` | core/fiber.c:550-580 | the end of a join frees a dead slot and changes nothing else; any other slot is refused, and so is the same one a second time |
| `FiberLaws.JoinedReused` | core/fiber.c:550-580 | straight after a join a create with a good block succeeds |
| `FiberLaws.YieldDoes` | core/fiber.c:244-332 | a yield goes to the first other ready fiber after the one that yields and changes nobody's state; alone, it goes on |
| `FiberLaws.ExitDoes` | core/fiber.c:479-548 | an exit leaves its slot dead and without a stack and everyone else as they were, goes to a ready fiber, and its block waits or is already back |
| `FiberLaws.RunListed` | core/fiber.c:389-616 | over every run the slots in use are exactly those of fibers created and not yet joined |
| `AgendaOnce.KilledOnce` | core/agenda.c:960-1039 | over any later history of boots, crashes, ticks and edits of other items, a boot item kills the machine at most once more, and once it has, it is never started again |
| `AgendaOnce.StartedOnce` | core/agenda.c:960-1039 | an item whose action kills the machine whenever it is begun is started at most once over any such history |
| `AgendaOnce.KillSpends` | core/agenda.c:991-1024 | after a killing start no boot will start the item exactly unless the marker write was refused while the store still had it enabled and unmarked |
| `AgendaOnce.KillsAgainIff` | core/agenda.c:991-1024 | and exactly in that case some later boot, nobody having touched the agenda and no marker write being refused, is killed by it again |
| `AgendaOnce.BootAgain` | core/agenda.c:1190-1201 | a boot that leaves the store as it found it kills the same items again when it is repeated |
| `AgendaOnce.BootReadsStore` | core/agenda.c:1260-1278 | what a boot does depends on the store alone |
| `AgendaOnce.RefusedMarkerKillsTwice` | core/agenda.c:1004-1017 | with the marker write refused the same item kills two boots |
| `AgendaOnce.RanThenWritten` | core/agenda.c:1116-1142 | a boot item that ran is off in memory and on in the store, and the next write of the store makes it off there too |
| `Agenda.RunKeeps` | core/agenda.c:731-1201 | over every history, whatever fails and wherever the machine dies, names differ, nothing in memory is marked between runs and the store marks at most one item |
| `Agenda.StepKeeps` | core/agenda.c:731-1201 | each operation keeps that |
| `Agenda.GuardMarks` | core/agenda.c:991-1024 | inside the guard the store marks the running boot item and no other |
| `AgendaTable.Table.LoadStore` | core/agenda.c:601-800 | the loading loop retires marked items, drops unusable and repeated ones, and rewrites the store when it met a marker |
| `AgendaTable.Table.WriteStore` | core/agenda.c:523-566 | each way a write can end, and what it leaves on disk |
| `AgendaTable.Table.RunOne` | core/agenda.c:960-1144 | one run: refusal, marker, action, clearing, accounting |
| `AgendaTable.Table.Mark` | core/agenda.c:974-1017 | the marker is on disk before the action or the run is unmarked |
| `AgendaTable.Table.Settle` | core/agenda.c:1040-1144 | accounting and the four retirements, two of them written |
| `AgendaTable.Table.RunBootItems` | core/agenda.c:1190-1201 | enabled boot items in order until the machine dies |
| `AgendaTable.Table.BringUp` | core/agenda.c:1260-1278 | load, then boot items |
| `AgendaTable.Table.PickDue` | core/agenda.c:1156-1169 | the first item due, never a boot item |
| `AgendaTable.Table.TickOnce` | core/agenda.c:1178-1188 | at most one due item |
| `AgendaTable.Table.SaveOne` | core/agenda.c:806-860 | replaces by name or appends, refused when full, then writes |
| `AgendaTable.Table.RemoveOne` | core/agenda.c:862-871 | closes the gap, then writes |
| `AgendaTable.Table.EnableOne` | core/agenda.c:873-880 | sets the flag, forgives failures when enabling, then writes |
| `AgendaLaws.TickDoes` | core/agenda.c:1156-1188 | a tick runs the first enabled timed item with runs left whose time has come, if the agenda is on, and otherwise changes nothing: none is started early |
| `AgendaLaws.TimedRun` | core/agenda.c:960-1144 | a timed run that comes back counts once; three failures in a row, the last of its runs or having been meant to run once switch it off; else it is due one period later |
| `AgendaLaws.BootRun` | core/agenda.c:960-1144 | a boot run that comes back, whatever the store took of its marker, leaves the item counted, unmarked and off and nothing else changed |
| `AgendaLaws.PowerOnDoes` | core/agenda.c:1190-1201 | at power-on the boot items that come back from the store switched on run once each, in their order, and nothing else does |
| `AgendaLaws.NotAttempted` | core/agenda.c:960-1144 | a run that could not be guarded costs nothing |
| `AgendaLaws.RunRefused` | core/agenda.c:960-1144 | with the agenda off or the budget spent nothing is started or written |
| `AgendaLaws.EnableDoes` | core/agenda.c:873-880 | sets the flag of the item of that name, forgives its failures when enabling, leaves the others, and the store has it |
| `AgendaLaws.SaveDoes` | core/agenda.c:806-860 | puts the item, as asked for, in place of the one with its name or after the others; refused only when it is new and there is no room |
| `AgendaLaws.RemoveDoes` | core/agenda.c:862-871 | takes out the item of that name and keeps the others in order |
| `AgendaLaws.RunNowDoes` | core/agenda.c:1146-1150 | running by name runs that item, whatever its time |
| `AgendaLaws.LoadDoes` | core/agenda.c:601-800 | a store of few enough usable items with different names comes back whole, one found marked switched off |
| `AppNum.Parse` | apps/expr.c:90-122 | the parsing loops, in 64-bit variables that nowhere wrap, compute the number a text spells, or refuse |
| `AppNum.ParsedBound` | apps/expr.c:90-122 | whatever parses lies strictly below 9000000001 in magnitude |
| `AppNum.Format` | apps/expr.c:126-158 | the formatting loops write sign, whole part and the decimals up to the last that is not zero, cut to the buffer |
| `AppNum.RoundTrip` | apps/expr.c:90-158 | parsing the text of v gives v back exactly when v is strictly inside that bound, and is refused otherwise |
| `AppNum.Isqrt` | apps/expr.c:956-968 | the Newton loop, in 128-bit variables that nowhere wrap, ends and gives the floor of the square root |
| `AppValue.SquareRoot` | apps/expr.c:956-968 | the app language's sqrt is that floor at fixed-point scale |
| `AppValue.Range1` | apps/expr.c:755-968 | one-operand functions map values in range to values in range |
| `AppValue.Range2` | apps/expr.c:588-614 | so do two-operand operators and functions |
| `AppValue.Range3` | apps/expr.c:699-750 | so do three-operand functions |
| `AppValue.NoWrap` | apps/expr.c:588-968 | with operands in range every intermediate result of every operator and function fits the 64- or 128-bit type it is computed in |
| `AppValue.WholeNeighbours` | apps/expr.c:940-955 | floor and ceil are the neighbouring whole numbers |
| `AppValue.DrawRange` | apps/expr.c:839-848 | rand gives a whole number from 0 up to its argument less one, or an error |
| `AppValue.ErrSpreads` | apps/expr.c:594-630 | an error operand makes the result an error, under everything but iserr and text |
| `AppPost.RoundTrips` | apps/expr.c:372-540 | compiling the minimally parenthesised text of a tree writes exactly the tree's postorder, or is refused exactly when nesting or a size limit is passed |
| `AppPrint.TreeParses` | apps/expr.c:521-540 | parsing a tree's text in any context emits the tree and goes on with what follows, or fails where emitting fails: precedence, left associativity, unary binding, arity |
| `AppPrint.PrimaryParses` | apps/expr.c:372-500 | the same for one primary |
| `AppPost.EmitsPost` | apps/expr.c:289-330 | emitting a tree is emitting its postorder while the nesting limit allows |
| `AppPost.EmitAllFits` | apps/expr.c:289-330 | everything is emitted exactly when operations, waiting values, distinct numbers and strings fit |
| `AppAccept.Accepts` | apps/expr.c:542-582 | every accepted text is some tree's: what was written is its postorder |
| `AppEval.RunsTree` | apps/expr.c:974-1092 | running a tree's postorder pushes the tree's recursive value and leaves the rest of the stack alone |
| `AppRun.AcceptedRuns` | apps/expr.c:542-582 | for every accepted text: the stored operations are a tree's postorder, the recorded depth its peak, the stack height at every point the compiler's count, and the evaluator's result the tree's value, so no guard fires |
| `AppRun.HeightTracks` | apps/expr.c:289-305 | after any number of operations the stack holds what the compiler counted |
| `AppRun.MaxIsPeak` | apps/expr.c:289-305 | the recorded depth is the highest count |
| `AppRun.AllStored` | apps/expr.c:307-332 | what is emitted reads back from the constant table and the string pool, and what was there does not change |
| `AppRun.ErrReaches` | apps/expr.c:594-630 | an error in any operand at any depth reaches the result unless iserr or text stands above it |
| `AppRun.ValueInRange` | apps/expr.c:974-1092 | every value an expression can produce from values in range is in range |
| `AppRun.Eval` | apps/expr.c:974-1092 | the loop over the fixed stack gives the outcome of the flat run |
| `AppRun.Step` | apps/expr.c:985-1088 | one operation in place on the stack array |
| `AppCompiler.Compiler.ParsePrimary` | apps/expr.c:372-500 | the parser over cursor and arrays equals the parser on values |
| `AppCompiler.Compiler.ParseExpr` | apps/expr.c:521-540 | the same for the climbing loop |
| `AppCompiler.Compiler.CompileAll` | apps/expr.c:542-582 | the same for a whole text |
| `AppCompiler.Compiler.EmitOp` | apps/expr.c:289-305 | appends one operation and keeps the stack simulation |
| `AppCompiler.Compiler.InternNum` | apps/expr.c:307-317 | the first equal constant, or a new one, or refusal |
| `AppCompiler.Compiler.InternStr` | apps/expr.c:319-333 | copies the text and its terminator to the end of the pool, or refuses |
| `AppCompiler.Compiler.Args` | apps/expr.c:446-472 | the argument loop |
| `AppBlocks.HandlerRuns` | apps/runtime.c:1384-1478 | an accepted handler runs from the flat array to its nested meaning, whatever was compiled after it: no guard fires, the 512-step budget is never used up, no statement runs twice |
| `AppBlocks.BlockRuns` | apps/runtime.c:1384-1478 | under any budget the flat run is the nested meaning cut at that budget |
| `AppBlocks.BlockCompiles` | apps/runtime.c:764-792 | a block is accepted exactly when it is well formed, at most eight deep and fits the array, and is then laid out past what was there |
| `AppBlocks.CellsDistinct` | apps/runtime.c:764-792 | no two statements of a document share a cell |
| `AppBlocks.FollowRange` | apps/runtime.c:764-792 | a nested statement lies strictly after every statement of the block around it |
| `AppBlocks.TraceShort` | apps/runtime.c:1384-1478 | a run is no longer than the block is large |
| `AppBlocks.Runtime.AddBlock` | apps/runtime.c:764-792 | reserving then recursing over the array equals the compiler on values |
| `AppBlocks.Runtime.AddStmt` | apps/runtime.c:637-760 | the same for one statement |
| `AppBlocks.Runtime.Exec` | apps/runtime.c:1384-1478 | the recursive loop equals the flat run on values |
| `AppLaws.Sums` | apps/expr.c:588-614 | + and - give the exact result, and the error value exactly when that is out of range |
| `AppLaws.SubUndone` | apps/expr.c:588-614 | taking away and adding back gives what there was, whenever the difference is in range |
| `AppLaws.Product` | apps/expr.c:588-614 | a product is the exact one with what lies beyond six decimals dropped, within one unit and toward zero |
| `AppLaws.Ratio` | apps/expr.c:588-614 | a quotient likewise, and an error for a zero divisor |
| `AppLaws.Rest` | apps/expr.c:588-614 | a remainder is smaller than the divisor, has the sign of the dividend, and leaves a multiple |
| `AppLaws.TimesUndone` | apps/expr.c:588-614 | multiplying by a whole number and dividing by it changes nothing |
| `AppLaws.NumbersCompare` | apps/expr.c:1059-1076 | the six comparisons of numbers agree with their order |
| `AppLaws.TextsCompare` | apps/expr.c:619-630 | and of texts with the alphabetical order of their bytes |
| `AppLaws.MixedCompare` | apps/expr.c:619-630 | a number and a text are unequal and neither comes first |
| `AppLaws.Logic` | apps/expr.c:1018-1083 | and, or and not of what counts as true |
| `AppLaws.Negated` | apps/expr.c:1018-1024 | negation undoes itself and abs is the distance from zero |
| `AppLaws.Smaller` | apps/expr.c:808-814 | min and max give the smaller and the larger |
| `AppLaws.Nearest` | apps/expr.c:820-828 | round gives the nearest whole number, away from zero when two are as near |
| `AppLaws.Scaled` | apps/expr.c:839-848 | rand scales 64 random bits down to the wanted range |
| `AppLaws.Joined` | apps/expr.c:771-781 | cat puts one text after the other, if the result is short enough |
| `AppLaws.Found` | apps/expr.c:892-906 | find gives the first place and has whether there is one |
| `AppLaws.Swapped` | apps/expr.c:722-752 | replace puts a text in place of the first occurrence of another |
| `AppLaws.Unswapped` | apps/expr.c:722-752 | where there is none nothing changes |
| `AppLaws.Piece` | apps/expr.c:704-721 | slice gives n characters from place i on, as far as there are any |
| `AppLaws.Letter` | apps/expr.c:854-864 | at gives the one character there |
| `AppLaws.Filled` | apps/expr.c:907-938 | padl and padr fill up with blanks on one side |
| `AppLaws.Trimmed` | apps/expr.c:866-877 | trim takes blanks off both ends and nothing else |
| `AppLaws.Cased` | apps/expr.c:878-891 | upper and lower change the letters of the other case, each to its own, and nothing else |
| `AppLaws.Counted` | apps/expr.c:782-792 | len counts the characters, digits those from 0 to 9 |
| `AppLaws.TextAndBack` | apps/expr.c:761-770 | a number written as text and read back is the number |
| `AppSpell.OperatorsAre` | apps/expr.c:502-518 | each operator is in the table once, under its token and at its level |
| `AppSpell.Grouping` | apps/expr.c:521-540 | two operators between three operands without parentheses: the tighter one takes its operands first, and of two as tight the left one, so `a + b * c` is the sum |
| `AppSpell.FunctionsAre` | apps/expr.c:215-241 | each name calls its function with as many arguments as that takes |
| `AppSpell.SidesKept` | apps/expr.c:1051-1087 | operands keep their sides |
| `AppSpell.PrefixKept` | apps/expr.c:393-403 | a minus before an operand negates it, an exclamation mark denies it |
| `AppSpell.ArgumentsKept` | apps/expr.c:445-471 | the arguments of a function keep their order |
| `AppSpell.ThreeKept` | apps/expr.c:1041-1049 | also those of a function of three |
| `AppSpell.SignsIn` | apps/expr.c:90-121 | a `+` before an unsigned number changes nothing, a `-` negates it |
| `AppSpell.BlanksAround` | apps/expr.c:90-121 | blanks around a number do not count |
| `AppSpell.Decimals` | apps/expr.c:90-121 | a whole part and decimals spell the number they should, unless it is too large |
| `AppSpell.MoreDecimals` | apps/expr.c:90-121 | decimals beyond the sixth do not count |
| `AppSpell.OnlyNumbers` | apps/expr.c:90-121 | any other character anywhere in the text makes it no number |
| `AppSpell.NeatText` | apps/expr.c:123-158 | a number is written with a minus only below zero, no zero in front, at most six decimals, none a zero at the end |
| `BlockLaws.SimpleDoes` | apps/runtime.c:1384-1478 | a compiled action does what the host does for it, a compiled stop stops |
| `BlockLaws.BranchDoes` | apps/runtime.c:1461-1476 | a compiled if runs its then part when the condition holds and its else part when not, as that part would run alone from what the condition left |
| `BlockLaws.InOrder` | apps/runtime.c:1384-1478 | two runs of statements compiled as one handler run one after the other, unless the first says stop |
| `Cap.UnderHalf` | apps/cap.c:585-651 | over every history with a clock that never goes back, k sounds of brief block satisfy 2(sum of blocks) + k gap <= next start - first start, hence under half |
| `Cap.DutyBound` | apps/cap.c:636-651 | the same for any run of consecutive sounds |
| `Cap.UnderHalfShort` | apps/cap.c:585-651 | the same conclusion for any sounds that each block for less than four seconds |
| `Cap.HalfIff` | apps/cap.c:585-651 | for given block times, sounds stay under half of the machine in every such history exactly when the quiet times after them add up to more than they do |
| `Cap.ShortSounds` | apps/cap.c:636-651 | they do when each sound blocks for less than the quiet maximum, and do not when each blocks for at least that |
| `Cap.SlowSinkOverHalf` | apps/cap.c:636-651 | a sink that blocks ten seconds takes ten of every fourteen |
| `Cap.RunAccounts` | apps/cap.c:574-625 | every accepted request is played, dropped or waiting, and only one of them, once |
| `Cap.GrantedWithin` | apps/runtime.c:1546-1651 | an app that asks in every granting pass is granted within as many grants as there are apps |
| `Cap.NoneTwice` | apps/runtime.c:1546-1651 | no other app is granted twice before it |
| `Cap.PassGrants` | apps/runtime.c:1615-1651 | a granting pass gives the slot to the first asker from the cursor on |
| `Cap.Machine.Request` | apps/cap.c:574-607 | accepts exactly a valid request with the slot free and the window over |
| `Cap.Machine.Service` | apps/cap.c:615-651 | takes the request whatever comes of it and sets the quiet time from the measured block |
| `Cap.Machine.RunTicks` | apps/runtime.c:1609-1651 | the two loops over the pool equal the pass on values |
| `CapLaws.AskDoes` | apps/cap.c:574-607 | taken or not, a request changes only the slot and the numbering; bad arguments or a full slot refuse it, and before any sound there is no wait |
| `CapLaws.ServeDoes` | apps/cap.c:585-651 | a request whose app is open is heard once; then requests are refused for as long as the sound and 500 ms more, at most 4000 ms, from its end, save at a reading more than 4000 ms before that |
| `CapLaws.ClosedDoes` | apps/cap.c:615-630 | one whose app has closed is dropped and costs the others nothing |
| `CapLaws.NeverMuted` | apps/cap.c:585-607 | whatever the clock has shown, a refusal for time is over 4000 ms later |

## Left out

- Instruction bytes and their lengths: the machine has abstract instructions, and the emitter's capacity is counted in instructions.
- The callee-saved registers the trampoline pushes for its C caller, and struct copies by value.
- A `for` loop's initialiser becomes a statement before the loop in the tree, so its labels come before the loop's.
- Wild pointers: memory below the top half of the address space is one array, apart from code and runtime block; an access outside it is a trap.
- The compiler's own stack floor and its arena outside macro copies and symbols, diagnostics, constant folding, struct layout and declarations.
- SimUnit.ImageStops: pushed words and return addresses are kept apart from program memory, so a program that writes past a local array does not overwrite its own return address here, as it would on the real machine; the same holds of every statement about runs of an image. Accesses inside variables cannot meet those words (DepthRun.FramesClear).
- Compiled.DepthIsReal: the same separation of pushed words from program memory.
- DepthRun.StackAtEveryPoint: likewise.
- CLowers.LowersE: calls are to functions already in lowered form, and kernel functions are taken not to look at the caller's temporaries.
- CStatements.FunctionMeans: one function at a time. Lowering a whole unit at once agrees only for programs that never read an uninitialised local, which may lie where an earlier call had its temporaries; the meaning here does not tell such reads apart.
- Function-like macros, directives, includes and conditionals of the preprocessor.
- CcStore.NeverForeign: a directory lists a name once; says which text the code is compiled from; global variables keep their values between cached calls.
- AppBlocks.BlockCompiles: a statement rejected because the app's calls or expressions are used up counts as malformed; those two app-wide pools are not modelled.
- JSON, checksums and the file system below the stores: a torn or foreign record is simply not accepted.
- Fiber stack guard bands, hog reports and names; a join is the yields it makes and the release at its end.
- Agenda times, reports, tool lookup and validation: an item is usable or not by an outside decision; actions do not edit the agenda.
- App documents' JSON, widgets, colours and notes: sets and calls are numbered actions on an abstract state, times and random words are inputs.
- Handler due times: which apps ask in a pass is an input of the rotation.
- Sound arguments and the audio driver: a request is valid or not by an outside decision, a sound is its two clock readings.
- The audio mixer, tool registry, device drivers, GUI, network and chat: not modelled.
