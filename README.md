# Intcode engine, amplifier chain and hull-painting robot

A Dafny model of the Intcode interpreter of an Advent of Code 2019
repository, and of the two puzzle drivers built on it.

- **`intcomp.mjs`** is the engine. `compile` splits a program text on
  commas and `parseInt`s every field into a memory array. `createState`
  closes over that array, a cursor and two callbacks. `runProgram` loops:
  it reads the word under the cursor and decodes it with `readOpcode`
  (the last two decimal digits are the command, the next three are the
  operand modes). It then reads the command's operand words (`readArgs`)
  and runs the command from the `createCommand` table. The commands are
  ADD 1, MULT 2, INP 3, OUT 4, JUMP_IF 5, JUMP_IFNOT 6, LESS_THAN 7,
  EQUALS 8 and HALT 99. `deref` resolves an operand by position (mode 0)
  or takes it as it is (mode 1); any other mode exits with code 2.
- **`save1-intcomp.mjs`** is the first version of the engine. It has
  commands 1 to 4 and 99 only, keeps its cursor in `runProgram`, and
  treats modes differently per command.
- **`day11.mjs`** is a robot that paints a hull. The input callback reports
  the colour under the robot. Output values alternate between a colour to
  paint and a turn. After every turn the robot moves one cell.
- **`day7.mjs`** builds every ordering of the phases 0..4 with five nested
  loops and a uniqueness filter. It runs five forked engines in a chain
  that share one piped value, and keeps the first ordering with the
  largest result.

## How the model is built

Modules follow the program:

- `JsText`: the JavaScript string operations used (`parseInt`, integer
  `toString`, `split`, `join`, `padStart`).
- `JsArray`: JavaScript arrays as memory, with a map of defined cells and a
  length, so holes and `undefined` reads are visible, plus `indexOf`.
- `Runtime`: what both engines share.
- `Decoder`: `readOpcode` and `Decode`, its arithmetic meaning. The first
  engine's copy of `readOpcode` puts the same fields in its own layout,
  with the modes in slots 1 to 3.
- `Intcomp` and `IntcompLaws`: the engine and its laws.
- `IntcompExamples`: the engine's test vectors.
- `Save1` and `Save1Laws`: the first engine and its laws.
- `Day11`: the robot.
- `Day7`: the amplifier chain and the search.

The meaning of a run is given by functions. `Step` is one turn of the
loop. `Evaluate` runs the loop for at most `fuel` turns and gives a `Final`
value: how the run ended, the final state, the callbacks' environment, and
every value that crossed a callback.

A run ends in one of four ways:

- `Halted(snapshot)`: the array was returned.
- `Exit(n)`: the run returned "Exit: n".
- `Thrown(fault)`: an error propagated.
- `OutOfFuel`: the step budget ran out.

The stateful objects are classes whose methods are proved to compute
those functions:

- `Intcomp.Machine`: the object `createState` returns.
- `Save1.Program`: save1's state object.
- `Day11.Robot`: the module variables of `day11.mjs`.

The callbacks are functions on an explicit environment `E`. The
variables a driver's closures update (the grid, the piped value, the
`calledOnce` flag) are that environment. A callback that throws returns
`Fail(reason)`.

## Model

| member | source | states |
|---|---|---|
| JsText.NatToString | intcomp.mjs:114 | the decimal text of a natural number is non-empty and made of digits |
| JsText.DigitsValueOfNatToString | intcomp.mjs:114 | reading the digits of `n.toString()` back gives n |
| JsText.ParseIntOfIntToString | day11.mjs:22-24 | `parseInt(String(n)) == n` for every integer n, negative ones included |
| JsText.ParseIntOfDigits | intcomp.mjs:115-118 | a run of digits parses as its value, and with a leading '-' as its negation |
| JsText.ParseIntSkipsSpace | intcomp.mjs:4 | `parseInt` skips a white space or line terminator character in front of the number |
| JsText.Split | intcomp.mjs:4 | `split` gives at least one piece, and no piece holds the separator |
| JsText.SplitJoin | intcomp.mjs:4 | splitting pieces joined with a separator that none of them holds gives the pieces back |
| JsText.JoinSplit | intcomp.mjs:4 | joining the pieces of a split with the same separator gives the text back |
| JsText.SplitPrefix | day11.mjs:41 | a prefix holding no separator only extends the first piece of a split |
| JsText.IntTextAvoids | day11.mjs:23 | the text of an integer holds no character other than digits and '-' |
| JsText.PadStart | intcomp.mjs:114 | `padStart` keeps the text as its suffix and fills in front up to the width |
| JsArray.FromSeq | intcomp.mjs:51 | an array literal defines exactly its indices below its length |
| JsArray.Dense | intcomp.mjs:68 | the snapshot of an array without holes lists its values in order |
| JsArray.StoreChangesOneCell | intcomp.mjs:64-66 | `memory[n] = v` changes key n and no other, and grows the length past n |
| JsArray.Slice | intcomp.mjs:51 | `slice()` copies the indices below the length, holes staying holes, and no other key |
| JsArray.SnapshotSlice | intcomp.mjs:68 | a slice reads back as the original at every index |
| JsArray.SliceFromSeq | intcomp.mjs:4-5 | the slice of an array built from a literal is that array |
| JsArray.SnapshotFromSeq | intcomp.mjs:68 | `slice()` of a fresh array gives its values with no hole |
| JsArray.StoreFromSeq | intcomp.mjs:64-66 | assigning inside a dense array is a sequence update |
| JsArray.StoreAppend | intcomp.mjs:64-66 | assigning just past the end of a dense array appends |
| JsArray.SnapshotStore | intcomp.mjs:68 | a snapshot after an assignment inside the array shows it at its index |
| JsArray.IndexOf | day7.mjs:13 | `indexOf` gives -1 or an index that holds the value |
| JsArray.IndexOfFirst | day7.mjs:13 | `indexOf` gives the first such index, and -1 exactly when the value is absent |
| Runtime.OutputsAppend | day7.mjs:43-48 | the outputs of two runs in a row are the outputs of the first followed by those of the second |
| Decoder.ReadOpcode | intcomp.mjs:113-120 | decoding a word gives a code and exactly three operand modes |
| Decoder.Decode | intcomp.mjs:113-120 | the decoding in arithmetic terms: code `word % 100`, mode k the k-th digit above it (0 when absent), with the NaN fields a negative word gives |
| Decoder.DecodeAgrees | intcomp.mjs:113-120 | `readOpcode`, written with padStart, slice and parseInt, equals Decode for every integer word |
| Decoder.DecodeNonNegative | intcomp.mjs:113-120 | for a word >= 0, the code is its last two digits and the modes are the next three digits |
| Decoder.DecodeNegative | intcomp.mjs:113-120 | for a word < 0, the fields read off `"-m"` padded with '0': NaN where the '-' falls into a field |
| Decoder.DecodeWord | intcomp.mjs:90 | the loop's call of readOpcode returns Decode(word) |
| Decoder.PaddedNatToString | intcomp.mjs:114 | zero-padding the text of n to a width gives its last digits |
| Decoder.SuffixOfNatToString | intcomp.mjs:114 | the last w characters of the text of n are its last w digits |
| Decoder.NatToStringLength | intcomp.mjs:114 | the text of n has at least 2, 3, 4, 5 characters exactly when n >= 10, 100, 1000, 10000 |
| Decoder.PaddedTail | intcomp.mjs:114 | the last five characters of the padded text of n >= 0 are its last five digits |
| Decoder.SlicesOfDigits | intcomp.mjs:115-119 | the four slices of a text ending in five digits parse to those digits |
| Decoder.TailOfNegative | intcomp.mjs:114 | the padded text of a negative word ends in the five characters NegativeTail gives |
| Decoder.Negative1 | intcomp.mjs:115-119 | a word from -9 to -1 decodes to code `word` and modes 0, 0, 0 |
| Decoder.Negative2 | intcomp.mjs:115-119 | a word from -99 to -10 decodes with a NaN first mode |
| Decoder.Negative3 | intcomp.mjs:115-119 | a word from -999 to -100 decodes with a NaN second mode |
| Decoder.Negative4 | intcomp.mjs:115-119 | a word from -9999 to -1000 decodes with a NaN third mode |
| Decoder.Negative5 | intcomp.mjs:115-119 | a word of -10000 or below decodes like its absolute value |
| Intcomp.ParseFields | intcomp.mjs:4 | every field parses and the values are the parsed fields, or some field reads as NaN |
| Intcomp.Compile | intcomp.mjs:3-6 | compiling fails exactly when some comma-separated field parses to NaN; otherwise the program is a hole-free array with one cell per field, cell i holding parseInt of field i |
| Intcomp.ArgsNumber | intcomp.mjs:26-28 | the operand count of each command, from its exec function's arity: 3 for 1/2/7/8, 2 for 5/6, 1 for 3/4, 0 for 99, none for any other code |
| Intcomp.DerefValue | intcomp.mjs:131-138 | mode 1 gives the word; mode 0 gives memory[word], and throws "Failed to read position" when the cell is undefined; any other mode exits with code 2 |
| Intcomp.Operands | intcomp.mjs:122-129 | the operand words are all defined and are the values read |
| Intcomp.Words | intcomp.mjs:125-127 | the n words `read()` returns from a start address, in order |
| Intcomp.Wire | intcomp.mjs:69-70 | assigned callbacks are the ones called |
| Intcomp.EvaluateStep | intcomp.mjs:88-93 | a run with fuel takes its first step, and then either stops there or goes on from the new state |
| Intcomp.FirstStep | intcomp.mjs:88-93 | the same, for every fuel budget at once |
| Intcomp.AfterNothing | intcomp.mjs:85-107 | no events in front of a run leave it unchanged |
| Intcomp.AfterAfter | intcomp.mjs:85-107 | events put in front of a run compose |
| Intcomp.Machine.constructor | intcomp.mjs:49-53 | createState copies the indices below the initial array's length (`initial.slice()`, so a negative key is not copied), puts the cursor at 0 and assigns no callback |
| Intcomp.Machine.MoveTo | intcomp.mjs:55 | moveTo sets the cursor |
| Intcomp.Machine.Read | intcomp.mjs:57 | read returns the word under the cursor and moves the cursor one on |
| Intcomp.Machine.Get | intcomp.mjs:58-63 | get returns memory[n], and fails exactly when memory[n] is undefined |
| Intcomp.Machine.Set | intcomp.mjs:64-66 | set assigns memory[n] and changes nothing else |
| Intcomp.Machine.Transform | intcomp.mjs:67 | transform replaces the memory with what the function makes of it |
| Intcomp.Machine.Snapshot | intcomp.mjs:68 | snapshot lists every index below the length, undefined cells included |
| Intcomp.Machine.SetInput | intcomp.mjs:69 | setInput assigns the input callback |
| Intcomp.Machine.SetOutput | intcomp.mjs:70 | setOutput assigns the output callback |
| Intcomp.Machine.WithIO | intcomp.mjs:71-75 | withIO assigns both callbacks and returns the same state object |
| Intcomp.Machine.Fork | intcomp.mjs:76 | fork gives a new object over the slice of the memory as it is now (a negative key written by `set` is dropped), with the cursor at 0 and no callbacks |
| Intcomp.Machine.Input | intcomp.mjs:77 | input calls the assigned input callback |
| Intcomp.Machine.Output | intcomp.mjs:78 | output calls the assigned output callback with the value |
| Intcomp.Machine.ReadArgs | intcomp.mjs:122-129 | readArgs reads nargs words from the cursor on and leaves the cursor nargs further |
| Intcomp.Machine.Deref | intcomp.mjs:131-138 | deref on the object computes DerefValue |
| Intcomp.Machine.RunCommand | intcomp.mjs:41-43 | running a command's exec function changes the object as Execute says |
| Intcomp.Machine.StepOnce | intcomp.mjs:89-92 | one turn of the loop changes the object as Step says |
| Intcomp.Machine.DispatchOnce | intcomp.mjs:91-92 | the rest of a turn after the read and the decoding changes the object as Dispatch says |
| Intcomp.Machine.TakeTurn | intcomp.mjs:88-93 | one turn, seen from a run with k steps left |
| Intcomp.Machine.RunProgram | intcomp.mjs:85-107 | the loop, in place on the object, ends with the outcome, state and callback trace that Evaluate gives |
| Intcomp.Machine.Run | intcomp.mjs:8-22 | run with options applies the transform, assigns the given callbacks and runs the loop from the current cursor |
| Intcomp.RunSource | intcomp.mjs:8-11 | run on a text compiles a fresh object and runs it, as RunText says |
| IntcompLaws.StepDecodes | intcomp.mjs:89-90 | a turn reads the word under the cursor, moves past it and decodes it |
| IntcompLaws.StepNoWord | intcomp.mjs:89-90 | an undefined word under the cursor makes the run throw |
| IntcompLaws.DispatchInstruction | intcomp.mjs:91-92 | with its operand words defined, a command reads them and runs past them |
| IntcompLaws.DispatchCompute | intcomp.mjs:157-167 | ADD, MULT, LESS_THAN and EQUALS resolve two operands and write the computed value at the third operand, moving past their operands |
| IntcompLaws.ComputeMeaning | intcomp.mjs:157-204 | ADD writes a + b, MULT a * b, LESS_THAN 1 exactly when a < b and EQUALS 1 exactly when a == b, each writing only 0 or 1 |
| IntcompLaws.DispatchJump | intcomp.mjs:178-192 | JUMP_IF moves the cursor to the second operand exactly when the first is non-zero, JUMP_IFNOT exactly when it is zero; otherwise the run falls through |
| IntcompLaws.DispatchInput | intcomp.mjs:169-171 | INP stores the input callback's value at its operand, and a failing callback stops the run |
| IntcompLaws.DispatchOutput | intcomp.mjs:173-176 | OUT hands its resolved operand to the output callback and writes nothing |
| IntcompLaws.DispatchAbort | intcomp.mjs:131-138 | a first read operand that cannot be resolved ends the run: an unset cell throws, a bad mode exits with 2 |
| IntcompLaws.DispatchSecondAbort | intcomp.mjs:157-203 | for ADD, MULT, both jumps, LESS_THAN and EQUALS, a second read operand that cannot be resolved ends the run the same way, after the first resolved, whether or not a jump would be taken |
| IntcompLaws.DispatchHalt | intcomp.mjs:153-155 | HALT ends the run with a snapshot of memory |
| IntcompLaws.DispatchUnknown | intcomp.mjs:30-39 | a code with no command throws "Unknown command" before any operand is read |
| IntcompLaws.DispatchCursor | intcomp.mjs:122-129 | a command leaves the cursor exactly past its operand words, unless it is a jump |
| IntcompLaws.DispatchFrame | intcomp.mjs:157-204 | a command writes no cell but its destination, and HALT, OUT and the jumps write nothing |
| IntcompLaws.DestinationModeIgnored | intcomp.mjs:160-170 | the mode digit of a destination operand changes nothing |
| IntcompLaws.RunMoreFuel | intcomp.mjs:88-93 | a run that ended within its budget ends the same way with any larger budget |
| IntcompLaws.RunHalt | intcomp.mjs:99-100 | the run from a HALT word returns the snapshot at once |
| IntcompLaws.RunUnknown | intcomp.mjs:102-103 | the run from an unknown code rethrows "Unknown command" |
| IntcompLaws.RunCompute | intcomp.mjs:157-167 | a computing instruction, seen from the whole run, is followed by the run from the updated memory |
| IntcompLaws.RunJump | intcomp.mjs:178-192 | a jump, seen from the whole run |
| IntcompLaws.RunInput | intcomp.mjs:169-171 | an input, seen from the whole run, records the value read |
| IntcompLaws.RunOutput | intcomp.mjs:173-176 | an output, seen from the whole run, records the value written |
| IntcompLaws.ParseFieldsOfTexts | intcomp.mjs:4 | parsing the texts of integers gives the integers |
| IntcompLaws.CompileSource | intcomp.mjs:3-6 | compiling the comma-joined text of a program gives that program's array |
| IntcompLaws.ExecuteEnv | intcomp.mjs:169-176 | a command changes the callbacks' environment only through one input or output call, recorded as its one event |
| IntcompLaws.StepEnv | intcomp.mjs:88-93 | the same for a whole turn |
| IntcompExamples.Codes | test-intcomp.mjs:10-74 | the opcodes of the test programs decode to their commands |
| IntcompExamples.AddProgram | test-intcomp.mjs:10 | `1,0,0,0,99` halts with `2,0,0,0,99` |
| IntcompExamples.MultProgram | test-intcomp.mjs:11 | `2,3,0,3,99` halts with `2,3,0,6,99` |
| IntcompExamples.SquareProgram | test-intcomp.mjs:12 | `2,4,4,5,99,0` halts with `2,4,4,5,99,9801` |
| IntcompExamples.SelfModifyingProgram | test-intcomp.mjs:13 | `1,1,1,4,99,5,6,0,99` overwrites its own HALT and halts with `30,1,1,4,2,5,6,0,99` |
| IntcompExamples.ImmediateModeProgram | test-intcomp.mjs:31 | `1002,4,3,4,33` halts with `1002,4,3,4,99` |
| IntcompExamples.EchoProgram | test-intcomp.mjs:15-19 | `3,5,4,5,99` outputs whatever it reads, and halts with the value stored past the end |
| IntcompExamples.EqualsPositionProgram | test-intcomp.mjs:52-56 | `3,9,8,9,10,9,4,9,99,-1,8` outputs 1 exactly when the input is 8, and 0 otherwise |
| IntcompExamples.LessPositionProgram | test-intcomp.mjs:64-68 | `3,9,7,9,10,9,4,9,99,-1,8` outputs 1 exactly when the input is below 8 |
| IntcompExamples.EqualsImmediateProgram | test-intcomp.mjs:58-62 | `3,3,1108,-1,8,3,4,3,99` outputs 1 exactly when the input is 8 |
| IntcompExamples.LessImmediateProgram | test-intcomp.mjs:70-74 | `3,3,1107,-1,8,3,4,3,99` outputs 1 exactly when the input is below 8 |
| Save1.ReadOpcode | save1-intcomp.mjs:90-98 | the padStart/slice/parseInt decoding gives Layout(Decode(word)): slot 0 null, the code the last two decimal digits, slot k the (k + 2)-th digit from the right, NaN where a minus sign falls |
| Save1.DecodeCom | save1-intcomp.mjs:57-58 | the loop's call of readOpcode returns Layout(Decode(word)) |
| Save1.ArgsNumber | save1-intcomp.mjs:12-28 | only HALT, ADD, MULT, INP and OUT have a command; HALT reads 0 operands, ADD and MULT 3, INP and OUT 1, the same counts as the later engine |
| Save1.Fetch | save1-intcomp.mjs:128-129 | a MULT operand is the word itself in mode 1, and memory[word] in any other mode |
| Save1.StepDecodes | save1-intcomp.mjs:57-60 | a turn gets the word at the cursor, decodes it and moves past it |
| Save1.EvaluateStep | save1-intcomp.mjs:54-70 | a run with fuel takes its first step and then stops or goes on |
| Save1.Wire | save1-intcomp.mjs:38-49 | the callbacks given to createState are the ones called |
| Save1.Program.constructor | save1-intcomp.mjs:38-49 | createState copies the indices below the array's length (`initial.slice()`) and keeps the callbacks |
| Save1.Program.Get | save1-intcomp.mjs:42 | get returns memory[n], undefined included |
| Save1.Program.Put | save1-intcomp.mjs:43 | put assigns memory[n] and changes nothing else |
| Save1.Program.Mem | save1-intcomp.mjs:44 | mem lets the function rewrite the array |
| Save1.Program.Snapshot | save1-intcomp.mjs:47 | snapshot copies the array |
| Save1.Program.ReadArgs | save1-intcomp.mjs:100-106 | the `while(nargs--)` loop gets nargs words from the cursor and returns the cursor moved by nargs |
| Save1.Program.RunCommand | save1-intcomp.mjs:30-32 | running a command changes memory as Execute says |
| Save1.Program.StepAt | save1-intcomp.mjs:57-68 | one turn from a cursor changes memory and the cursor as Step says |
| Save1.Program.DispatchAt | save1-intcomp.mjs:62-68 | the rest of a turn after decoding changes memory and the cursor as Dispatch says |
| Save1.Program.RunProgram | save1-intcomp.mjs:51-84 | the loop, in place, ends with the outcome, cursor and trace Evaluate gives from cursor 0 |
| Save1.RunSource | save1-intcomp.mjs:3-8 | run parses the fields, lets the transform return the memory, creates the state over a slice of it and runs it |
| Save1Laws.DispatchInstruction | save1-intcomp.mjs:62-68 | with its operand words defined, a command reads them and runs past them |
| Save1Laws.DispatchCursor | save1-intcomp.mjs:100-106 | a command that lets the run go on leaves the cursor exactly past its operands |
| Save1Laws.StepAdvances | save1-intcomp.mjs:57-65 | each turn that goes on moves the cursor forward by 1 plus the command's operand count |
| Save1Laws.RunCursorGrows | save1-intcomp.mjs:54-70 | with no jump command, the cursor never moves back over a run |
| Save1Laws.StepNeverExits | save1-intcomp.mjs:72-74 | no turn of this engine ends with an exit code |
| Save1Laws.RunNeverExits | save1-intcomp.mjs:72-74 | no run of this engine returns "Exit: n" |
| Save1Laws.ExecuteAdd | save1-intcomp.mjs:121-125 | ADD stores memory[a] + memory[b] at c, reading by position |
| Save1Laws.AddIgnoresModes | save1-intcomp.mjs:121-125 | the modes of an ADD make no difference |
| Save1Laws.ExecuteAddUndefined | save1-intcomp.mjs:124 | an ADD operand address with nothing stored stops the run |
| Save1Laws.ExecuteMult | save1-intcomp.mjs:127-133 | MULT honours immediate mode on both reads and writes the product at the third operand |
| Save1Laws.ExecuteInput | save1-intcomp.mjs:135-138 | INP stores the input callback's value at its operand |
| Save1Laws.ExecuteOutput | save1-intcomp.mjs:140-142 | OUT hands memory[pos] to the output callback, whatever the mode |
| Save1Laws.ExecuteHalt | save1-intcomp.mjs:117-119 | HALT returns the snapshot |
| Save1Laws.DispatchUnknown | save1-intcomp.mjs:19-28 | every other code throws "Unknown command" |
| Save1Laws.LaterCodesUnknown | save1-intcomp.mjs:111-115 | codes 5 to 8 are unknown here and known to the later engine |
| Save1Laws.AgreesWithIntcomp | save1-intcomp.mjs:117-142 | on position-mode instructions with defined reads, both engines execute alike |
| Save1Laws.RunTransformed | save1-intcomp.mjs:5-7 | the program runs on the slice of the memory the transform returns |
| Save1Laws.Unwired | save1-intcomp.mjs:45-46 | with no callback given, input and output throw |
| Save1Laws.RunAdd | save1-intcomp.mjs:121-125 | an ADD, seen from the whole run |
| Save1Laws.RunHalt | save1-intcomp.mjs:76-78 | a HALT, seen from the whole run |
| Save1Laws.ImmediateAddDiffers | save1-intcomp.mjs:121-125 | `1101,2,3,0,99` halts with 3 in cell 0 here and with 5 in the later engine |
| Day11.FromString | day11.mjs:40-44 | fromString parses the first two pieces of the key |
| Day11.FromStringOfToString | day11.mjs:22-24 | reading back the key of a position gives the position |
| Day11.ToStringInjective | day11.mjs:22-24 | two positions have the same key only when they are equal |
| Day11.Move | day11.mjs:28-37 | move succeeds exactly for the four directions, throws "bad direction ..." otherwise, and goes one cell |
| Day11.MoveSteps | day11.mjs:30-33 | LEFT is x - 1, RIGHT x + 1, UP y - 1, DOWN y + 1 |
| Day11.MoveOpposite | day11.mjs:28-37 | moving one way and then the opposite way comes back |
| Day11.Normalise | day11.mjs:96-97 | the two while loops bring the index into 0..3, to index mod 4 |
| Day11.Turned | day11.mjs:84-98 | a turn of 0 or 1 gives a direction of CLOCKWISE; any other value throws "bad direction" |
| Day11.ClockwiseIndex | day11.mjs:14 | each direction sits at its own index of CLOCKWISE |
| Day11.TurnedSteps | day11.mjs:84-98 | a right turn gives the next direction clockwise, a left turn the previous one, wrapping around |
| Day11.TurnedBack | day11.mjs:84-98 | a left turn undoes a right turn and the other way round |
| Day11.ColorAt | day11.mjs:54-58 | getColor is the colour stored under the key, BLACK for a cell never painted |
| Day11.Start | day11.mjs:47-52 | the robot starts at a WHITE origin, facing UP, with a colour to paint next and a count of 0 |
| Day11.Robot.constructor | day11.mjs:47-64 | the module variables, with the origin painted WHITE |
| Day11.Robot.GetColor | day11.mjs:54-58 | getColor on the robot computes ColorAt |
| Day11.Robot.SetColor | day11.mjs:60-62 | setColor assigns the cell's key and nothing else |
| Day11.Robot.Input | day11.mjs:67-69 | the input callback returns the colour under the robot and changes nothing |
| Day11.Robot.Output | day11.mjs:70-107 | the output callback, in place: the new variables are HullOutput's, or it throws and changes nothing |
| Day11.InputReadsColor | day11.mjs:67-69 | the input is the colour under the robot, BLACK when that cell was never painted |
| Day11.OutputAlternates | day11.mjs:73-106 | an output throws exactly when a turn other than 0 or 1 is due, and otherwise flips paint and turn |
| Day11.OutputPaints | day11.mjs:73-79 | painting sets exactly the cell under the robot, counting it exactly when it had never been painted |
| Day11.OutputTurns | day11.mjs:80-105 | a turn output turns as Turned says, then moves one cell in the new direction, leaving the grid and the count |
| Day11.OutputCounted | day11.mjs:64-78 | every output keeps paintCount + 1 equal to the number of painted cells |
| Day11.RunCounted | day11.mjs:64-78 | that count holds at the end of any engine run with the robot's callbacks |
| Day7.FirstOccurrences | day7.mjs:13 | the filter keeps at most as many entries as it looks at |
| Day7.AllKept | day7.mjs:13 | the filter keeps every entry exactly when each is at its first occurrence |
| Day7.UniqueIffDistinct | day7.mjs:13 | the uniqueness test holds exactly for candidates with no repeated entry |
| Day7.CheckUnique | day7.mjs:12-13 | the test as the loops run it passes exactly the candidates with distinct entries |
| Day7.Base5 | day7.mjs:7-11 | the last k base-5 digits of a number |
| Day7.CandidateDigits | day7.mjs:7-12 | the n-th tuple the loops visit has five entries in 0..4 and spells n in base 5 |
| Day7.CandidateOfCode | day7.mjs:7-12 | each five-digit tuple is visited at the place its digits spell |
| Day7.CodeOrder | day7.mjs:7-11 | a tuple visited earlier is lexicographically smaller |
| Day7.UptoOrdered | day7.mjs:7-17 | the tuples kept so far were visited in increasing order |
| Day7.UptoMembers | day7.mjs:7-17 | the tuples kept so far are exactly the orderings visited so far |
| Day7.Visit | day7.mjs:11-16 | one turn of the innermost loop appends the candidate exactly when its entries are distinct |
| Day7.PhaseSettings | day7.mjs:5-19 | the five loops keep exactly the orderings of 0..4, each once, in lexicographic order |
| Day7.SettingsAreOrderings | day7.mjs:5-19 | every tuple kept is an ordering of 0..4 and every ordering is kept, in strictly increasing order |
| Day7.AmpInputOrder | day7.mjs:29-42 | an amplifier's first input is its phase and every later one the piped value |
| Day7.AmpRunPipes | day7.mjs:43-48 | after one amplifier's run, the piped value is the last value it output, or what it was handed when it output nothing |
| Day7.AmplifyPipes | day7.mjs:50-56 | each amplifier of the chain passes on the last value it output |
| Day7.LastOrAppend | day7.mjs:43-48 | the last value of two output runs is the last of the second, or of the first when the second is empty |
| Day7.RunAmplifiers | day7.mjs:27-57 | five forks run in order from a piped value of 0, as Amplify says, and an error stops the chain |
| Day7.Amplified | day7.mjs:64-66 | the chain's value for every ordering, or the first failure |
| Day7.ScanFirstMaximum | day7.mjs:61-71 | maxValue is the largest value (0 when none is positive), and maxPhases is the first ordering that reaches it, undefined exactly when no value is positive |
| Day7.AmplifiedBreaks | day7.mjs:64-66 | once an ordering's chain fails, the search fails with it |
| Day7.MaxSearch | day7.mjs:61-71 | the forEach over the orderings gives Scan of the chain values, or the first failure |
| Day7.Solve | day7.mjs:5-71 | the puzzle: all orderings from the five loops, through the chain, keeping the first maximum |

## Left out

- Console output (`console.log`, `console.error`), `printGrid` and `process.stdout.write` are not modelled; they do not change any state the model keeps.
- `day2.mjs` is not part of this model; it only drives the engine.
- Opcode 9, relative mode, `runSteps` and `makeInputBuffer` are imported by the drivers, but `intcomp.mjs` does not define them.
- The two drivers cannot run as written, and the model follows their evident intent:
  - day11.mjs:1 imports `runSteps` and `makeInputBuffer`, which `intcomp.mjs` does not export, so the module does not link.
  - day11.mjs:66-70 chains `.setOutput(...)` onto the result of `setInput`, which is `undefined` (intcomp.mjs:69). A TypeError would be thrown before `run(program)`, so the callbacks are never wired.
  - day7.mjs:23-25 is a syntax error, so no line of day7.mjs runs.
  - Day11 wires the robot's two callbacks into the engine as RobotPorts, and Day7 wires each amplifier's callbacks through `withIO`, as the code plainly means to.
- The day11 puzzle program needs opcode 9, so the robot is modelled with its callbacks and an arbitrary program. The run of that puzzle is not modelled.
- The `compareTo8` test vector (test-intcomp.mjs:77-82) is not stated as a lemma. Its run is long, and every command it uses is covered by the per-command laws.
- `makeIOPipe` (day7.mjs:23-25) is not valid JavaScript and is left out.
- JavaScript `Number`s are modelled as unbounded integers. There are no doubles, no precision loss above 2^53, and no `parseInt` base prefixes (a field such as `0x10` parses as 0, where JavaScript reads it in base 16). The white space `parseInt` skips (the WhiteSpace and LineTerminator characters of ECMA-262, Unicode space separators included) and its sign handling are modelled.
- Intcomp.Compile: a field that parses to NaN makes compiling fail (None), where JavaScript would keep NaN in the memory.
- Intcomp.Dispatch: an undefined operand word (read past the end or from a hole) stops the run with MissingOperand. JavaScript would pass `undefined` on to the command.
- Intcomp.Machine.DispatchOnce computes Intcomp.Dispatch, so it stops with MissingOperand in the same case.
- Save1.Dispatch: the same holds for the first engine. Its `readArgs` pushes `program.get(cursor++)`, which is `undefined` past the end or at a hole (save1-intcomp.mjs:103). ADD, MULT, INP and OUT would then run on with `undefined`, for example assigning `mem[undefined]`. The model stops with MissingOperand instead, because the memory holds integers at integer keys and has no place for NaN values or the property `"undefined"`.
- Save1.Program.DispatchAt computes Save1.Dispatch, so it stops with MissingOperand in the same case.
- Save1.Execute: ADD, MULT and OUT on an undefined cell stop with UndefinedValue. JavaScript would compute NaN or output `undefined`.
- Intcomp.Machine.Transform: `transform(fn)` hands the array itself to `fn`, which mutates it. The model gives `fn` the memory and takes back the memory it returns, so aliasing of the array is not modelled.
- Intcomp.Evaluate: `while (true)` runs for at most `fuel` steps, and OutOfFuel stands for a run that has not ended yet. RunMoreFuel shows that more fuel does not change a finished run.
- `pos()` (intcomp.mjs:56) is not used by the engine and is not modelled. The unused `input` and `output` parameters of both `runProgram`s, and the unused local `cursor` at intcomp.mjs:86, are also not modelled.
- Callbacks are functions on an explicit environment, not closures over shared variables. The test suite's assertions inside output callbacks are not modelled; the lemmas state the output values instead.
- Day11.FromString: a key whose first two pieces do not both parse gives None, where JavaScript builds an XY holding NaN. A key with no '_' also gives None, where JavaScript builds an XY whose y is `undefined` (day11.mjs:41-43).
- Day7.PhaseSettings: the ensures say the 120 orderings of 0..4 are kept, each exactly once and in order. The count 120 itself is not stated.
- Day7.RunAmplifiers requires five phases; with fewer, JavaScript would hand `undefined` to the input callback.
- The independence of a fork from the state it was taken from holds by construction: memory is a value, so there is no shared array to alias.
