# JDH-8, from assembly text to a running machine

The JDH-8 is an 8-bit computer: an instruction set (SPEC.txt), an emulator (emu/), an assembler
with macros (asm/) and an OS library of hand-written routines (os/lib/). This project models the
four together and proves that they fit: a routine written with the built-in macros is expanded,
assembled in one pass, loaded and run by the emulator, and what the machine then does is what the
routine is for.

## How the model is built

| layer | modules | what is in them |
|---|---|---|
| numbers | Words | bytes, words, casts, bit operations on two's-complement integers |
| instructions | Isa, Decoding, Manual | the instruction set, its encoding, decoding, and asm2str; bytes, flags, ports and operands in the numbers and letters of SPEC.txt and the headers |
| machine | Machine, MemoryMap, Emulator | `step` as a function on states; the memory map over whole runs; the class Jdh8 on arrays and fields, proved against the function |
| assembler | Source, Assembler, Names, Directives, Simulation | what a program of lines means; the class Context with its output, labels and patches; which label a name gets and which it was meant for; data directives; the image and the symbolic program run alike |
| macros | MacroTable, Expand, Spelling, Sundry, Faults | the built-in macros as data; overload choice, expansion and the parse loop on operations; what each macro expands to; macros that never expand |
| texts | Choosing, Interleaving, Reading, Reassembly | names that are numbers once a label in front has them, and the overloads chosen with them; expansion and assembly line by line, as the assembler does both; the text of asm2str read and assembled again |
| tokens | Tokens, Substitution, Lowering, InPlace | linked tokens; expansion on them; the tokens of an expanded call are the operations of its expansion; expansion, evaluation and reading of one list in place |
| expressions | Eval, Groups, Laws, Templates | the evaluator on linked tokens, against expressions as trees; exactly which tokens it takes; what its values are in arithmetic |
| routines | Core, Macros, Blocks, Multiply, Copying, Copying16, Shifting, Comparing, Filling, Measuring, Products, Calls, Logic | machine programs proved on a core that owns only the memory lent to it |
| all of it | Refinement, Linking, Running, Programs, Library, Comparison, Routines, Jumps, Effects, Nesting, Pipeline | the core is the emulator; the code of a routine is where its label is in any assembled program; the routine, the jumps, the other macros and trees of calls on the machine; text to booted machine |
| pictures | Images | packing of pictures and the screen's unpacking |

The lemmas whose names end in `OnMachine` are the end of the line. Those in Programs, Library,
Comparison and Routines speak each of a routine as it stands in the OS library, anywhere in the text
of any program that assembles, ends below the memory-mapped registers, has unique labels and gives no
global label the name of a label that the routine jumps to. They say where control goes, which registers
come back, what is computed, and that no physical byte of memory has changed but those they name. Those
in Jumps and Effects speak of every use of a macro in the text of any program that assembles and ends below those
registers, and name the line where the use begins. The rest of such a text may be any labels, operations and
data that the assembler takes, macros that need the number of a label in front included: `add16 a, b, [font]` in
os/lib/gfx.asm is one, and has its own lemma (`Jumps.AddOnMachine`).

Routines are proved on a core: registers, stack pointer, pc, and the cells that the caller lends,
some of them for reading only. A routine that touched anything else could not run on it at all, so
the core's result holds on the full machine with everything else unchanged
(`Refinement.RoutineOnMachine`).

## What the code does that its comments do not say

* `mul16` returns its first operand when the multiplier is zero; it is right exactly when the
  multiplier is not zero or the first operand is (`Programs.Mul16OnMachine`).
* `shr` shifts one place, however large the count; it is right exactly for counts 0 and 1 and for
  operands below 2 (`Routines.ShrOnMachine`).
* `cmp16` passes the flags to `shr` as a count. As `shr` never shifts more than one place, and the
  count is zero only when there is nothing to shift, it compares correctly for all operands
  (`Comparison.Cmp16OnMachine`).
* `JGE` jumps always, with three arguments (`Macros.JgeAlwaysJumps`) and with one (`Macros.FlagJumps`).
* `SIGN`, `SIGN16`, and `JNZ` with a pair of registers to jump to never expand (`Faults`).
* `XNOR` with its own register as operand is right only for zero (`Logic.XnorExact`).
* ADC ignores the incoming carry when it sets CARRY, so sums of three bytes go wrong exactly when the
  low bytes carry into middle bytes that add up to 255 (`Logic.ThreeByteSum`). SUB16 needs BORROW
  clear, and is wrong otherwise (`Macros.Sub16Exact`).
* ADD16 and SUB16 read their high operand after changing the low register and the flags: `add16 a, b, b, c`
  is right exactly when c is zero (`Macros.Add16Exact`, `Macros.Sub16Exact`).
* EQ16 compares its low operands after it has set F and H: with one of these for a low operand it is right
  exactly when the high bytes differ or the flags happen to compare alike (`Macros.Eq16Exact`,
  `Macros.Eq16Spoilt`). LW, SW and CALL through a pair set H first: with H for the low register they go to
  the word of the pair exactly when the high register equals H (`Blocks.PointedExact`), and SW of H or L
  stores what these have become (`Blocks.StoredExact`). JNZ of H or L to a fixed target looks at a byte of
  the target, and goes by the register exactly when both are zero or neither is (`Blocks.JumpNonZeroExact`).
* JMS and JMN look at their mask after they have set F: with F for a mask they test the value against itself
  (`Macros.MaskTests`). JMN jumps when some bit of the mask is clear, not only when all are.
* A name that a label in front has is a number when overloads are chosen, so `push [x]` with x at 255 or below
  assembles, and with x behind it does not (`Interleaving.OnlyInterleaved`). Texts that expand without that
  assemble to the same bytes either way (`Interleaving.AssembleSame`).
* `strlen` counts modulo 256 (`Routines.StrlenOnMachine`).
* The evaluator takes more than expressions: values side by side, of which the last counts, operators in
  front of any value, and one token more in the end, which does nothing. `(1 2 +)` is 2
  (`Groups.TakesExactly`, `Groups.TakenForTwo`).
* A reference is looked up by its name alone, whether it has a dot or not, and global labels come first. So
  `.x` misses the sub label x in scope exactly when some global label x exists and has another address
  (`Names.DottedExact`, `Names.ShadowedMissed`), and a reference that means no label is accepted when the
  name has one of the other kind (`Names.Unmeant`).
* asm2str wants one byte more than the instruction has (`Decoding.NeedsOneMore`); `@dn` takes its count
  modulo 65536 (`Directives.Dn`); `@org 0xFFFF` leaves the origin unset (`Directives.Org`).

## Model

| member | source | states |
|---|---|---|
| Machine.StepMeetsSpec | emu/libemu.c:302-407 | fetching and executing the bytes of any instruction has the effect SPEC.txt gives for it, from every running state |
| Machine.RunAdd | emu/libemu.c:302-407 | m + n steps are m steps and then n steps |
| Isa.FlagBits | emu/libemu.c:392-404 | the four flag bits after an arithmetic instruction: unsigned less, equal, sum above 255, less again; the incoming carry and borrow play no part |
| Decoding.StepDecodes | emu/libemu.c:302-407 | for any three bytes at pc, well-formed or not, a step executes exactly the instruction that they decode to |
| Decoding.DecodeEncode | emu/libemu.c:307-323 | decoding undoes encoding, whatever bytes come behind |
| Decoding.ProgramComesBack | emu/libemu.c:307-323 | a sequence of instructions comes back from its bytes with the same boundaries |
| Decoding.NoPrefix | emu/libemu.c:307-323 | no encoding is the beginning of another one |
| Decoding.Append | common/jdh8util.c:7-15 | a piece of text is written exactly when it and one more character fit |
| Decoding.Asm2Str | common/jdh8util.c:6-108 | succeeds exactly when the bytes are legible and text and terminator fit; the buffer then holds the text and the terminator; a read outside the register names happens only for register operands above 7 |
| Decoding.ReadsItself | common/jdh8util.c:39-108 | an encoded instruction with a byte behind it reads as itself |
| Decoding.NeedsOneMore | common/jdh8util.c:17-17 | the last instruction of the bytes is legible exactly when it is one byte long |
| Decoding.ListedAt | common/jdh8util.c:39-108 | at every instruction boundary of any encoded program, what is reported is the instruction that was encoded there |
| Reading.ReadsBack | common/jdh8util.c:6-108 | what asm2str writes for any instruction, read by words, names of operations and registers and hexadecimal digits, is a native operation that the assembler emits as that instruction; a place left out reads as HL |
| Reading.TextSpaced | common/jdh8util.c:39-108 | the words stand one blank behind the name, with a comma and a blank between operands |
| Reading.IllegalReads | common/jdh8util.c:82-87 | bytes that begin with 0x40 to 0x47 read as ILLEGAL INSTRUCTION |
| Reassembly.Reassembles | asm/asm.c:546-638 | the listing of any program, read line by line and assembled at any origin, gives the bytes of that program |
| Manual.RegisterNumbers | common/jdh8.h:33-42 | the numbers of the registers |
| Manual.RegisterLetters | asm/asm.c:329-335 | a register is named by its letter, and nothing else names one |
| Manual.MemoryBytes | SPEC.txt:60-71 | the bytes of LW, SW, PUSH, POP, LDA and JNZ |
| Manual.ByteOrRegister | SPEC.txt:60-66 | the bytes of MW, INB and OUTB |
| Manual.ArithmeticBytes | SPEC.txt:24-30 | the bytes of the seven arithmetic instructions |
| Manual.Sums | emu/libemu.c:374-388 | ADD, ADC and SBB modulo 256 with the carry and borrow bits of F; CMP leaves its operand |
| Manual.BitByBit | emu/libemu.c:374-388 | AND, OR and NOR bit by bit |
| Manual.FlagsAfter | emu/libemu.c:390-406 | ADD, ADC, CMP and SBB load the flags, over a result in F too; the others do not |
| Manual.HaltBit | common/jdh8.h:70-75 | a machine is halted exactly when bit 3 of its status is set |
| Manual.PortsAre | emu/libemu.c:213-263 | port 0 is the status; a present device sends and receives; every other port reads zero and takes nothing |
| Manual.OriginIs | asm/directive.c:259-276 | a program without origin, or with 0xFFFF for one, begins at 0 |
| Manual.FailsByFlags | asm/asm.c:363-367 | an argument is refused for the four reasons that the flags of parameters and arguments give, a number being 8 bits wide up to 255 |
| Manual.Letters | asm/macro.c:8-11 | the letters r, x, a and i of a macro's parameters, in brackets or not, are the sets of flags that its parameters have |
| Manual.NativeHeaders | asm/asm.c:18-92 | the parameters of the native operations |
| Manual.SystemHeaders | asm/macros.asm:7-457 | the overloads of HALT, OUTB, CLF and the flag macros, with their parameters and no others |
| Manual.ByteHeaders | asm/macros.asm:20-164 | those of SUB, INC, FDEC, DEC, SIGN, NOT, NAND, XNOR and XOR |
| Manual.WordHeaders | asm/macros.asm:49-136 | those of EQ16, INC16, DEC16, SUB16, ADD16, SIGN16 and MW16 |
| Manual.MemoryHeaders | asm/macros.asm:167-234 | those of LDA, LW16, SW16, LW and SW |
| Manual.StackHeaders | asm/macros.asm:238-515 | those of PUSH, POP, PUSHA, POPA, CALL and RET |
| Manual.JumpHeaders | asm/macros.asm:262-417 | those of JNZ, JMP, JMS, JMN, JZ, JC, JNC, JB and JNB |
| Manual.ComparisonHeaders | asm/macros.asm:308-388 | those of JLT, JLE, JEQ, JNE, JGE and JGT |
| Decoding.TextTells | common/jdh8util.c:39-108 | no two instructions have the same text: opcode and operands can be told from it |
| MemoryMap.StepStores | emu/libemu.c:325-348 | a step changes memory, banks and MB by the one store of SW or PUSH and by nothing else |
| MemoryMap.ReadsLastWrite | common/jdh8.h:157-201 | over every run, a physical byte holds the last value an accepted store put into it, or its first value |
| MemoryMap.RomStays | common/jdh8.h:188-195 | under write protection no run changes what a ROM address reads |
| MemoryMap.BankStays | common/jdh8.h:157-175 | a bank keeps its bytes over every run in which MB never selects it |
| MemoryMap.PeekIs | common/jdh8.h:157-180 | what every address reads: ROM below 0x8000, from there to 0xBFFF the bank that MB selects or the memory for MB 0, RAM up to 0xFFF9, then MB, SP and PC byte by byte |
| MemoryMap.PokeIs | common/jdh8.h:188-201 | the whole state after a store to any address; nothing changes below 0x8000 under protection and where the selected bank is absent |
| MemoryMap.ReadBackExact | common/jdh8.h:188-201 | for every state, address and byte, protected or not, exactly when a stored byte is read back |
| MemoryMap.ReadsBack | common/jdh8.h:188-201 | from every address of 0x8000 or above that has a byte, the byte stored is read back, write protection or not |
| MemoryMap.OthersStay | common/jdh8.h:157-201 | a store below 0xFFFA changes what one address reads and no other |
| MemoryMap.AcceptedExactly | common/jdh8.h:188-195 | the store of a step is accepted unless it goes below 0x8000 under protection |
| MemoryMap.StepReadsBack | emu/libemu.c:325-348 | the byte that a step stores from 0x8000 to 0xFFF9, where there is one, is read there after the step |
| MemoryMap.StoreStays | emu/libemu.c:325-348 | and after any number of further steps that do not store to the same byte |
| MemoryMap.SwReadsBack | emu/libemu.c:335-341 | SW at such an address: its register is read there afterwards |
| MemoryMap.PushReadsBack | emu/libemu.c:342-344 | PUSH on such a stack: its operand is read there afterwards, and SP is one less |
| MemoryMap.SpecialBytes | common/jdh8.h:157-160 | a store at 0xFFFA and up sets one byte of MB, SP or PC, leaves the other, and is read back |
| Emulator.Jdh8.PeekByte | common/jdh8.h:157-180 | reads the cell that MB and the address select; absent banks read as zero |
| Emulator.Jdh8.PokeByte | common/jdh8.h:188-201 | writes that cell unless ROM refuses, and changes nothing else |
| Emulator.Jdh8.PokeSpecial | common/jdh8.h:157-160 | one byte of MB, SP or PC is set |
| Emulator.Jdh8.Peek16 | common/jdh8.h:182-186 | low byte first, the address wrapping at 16 bits |
| Emulator.Jdh8.Poke16 | common/jdh8.h:203-206 | two stores in that order |
| Emulator.Jdh8.CopyIn | common/jdh8.h:208-219 | equals storing the bytes one after the other, for any number of them |
| Emulator.Jdh8.FillIn | common/jdh8.h:221-230 | equals storing the same byte n times |
| Emulator.Jdh8.Load | emu/libemu.c:265-296 | equals storing the bytes with write protection off, which is then as it was |
| Emulator.Jdh8.Inb | emu/libemu.c:213-239 | illegal ports and absent devices read as zero; the status port reads the status |
| Emulator.Jdh8.Outb | emu/libemu.c:241-263 | the status port takes the status bits; other ports go to their device |
| Emulator.Jdh8.FetchByte | emu/libemu.c:307-307 | the byte at pc, pc moving on before the read |
| Emulator.Jdh8.Imm8Reg | emu/libemu.c:311-314 | one more byte, a value or a register number |
| Emulator.Jdh8.Imm16 | emu/libemu.c:321-323 | two bytes, low byte first |
| Emulator.Jdh8.Result | emu/libemu.c:374-388 | the result of the arithmetic unit for each of its operations |
| Emulator.Jdh8.Arithmetic | emu/libemu.c:363-406 | result and flags in the registers, with nothing else changed |
| Emulator.Jdh8.StepOnce | emu/libemu.c:302-407 | a step of the object is Machine.Step of the state it stands for |
| Emulator.Jdh8.RunSteps | emu/libemu.c:72-74 | n steps of the object are Machine.Run |
| Assembler.EarlyLookup | asm/asm.c:407-442 | while a program is being parsed, a name resolves exactly to a global label of that name that stands earlier |
| Assembler.LateLookup | asm/asm.c:820-834 | when the holes are filled, in any program, a name finds the last global label of that name; failing that, the last sub label of that name under the global label in force at the hole; failing that, none |
| Assembler.FinalIsTaken | asm/asm.c:407-442 | resolved early or late, in any program, a reference gets the label that Source.Binding names for its line, or fails when there is none |
| Names.TakesGlobalFirst | asm/asm.c:407-442 | with unique labels, a name with or without a dot gets its global label wherever that stands, and only failing that the sub label in scope |
| Names.DottedExact | asm/asm.c:407-442 | a reference `.x` with a sub label x in scope gets the address of that label exactly when no global label x exists anywhere, or it has the same address |
| Names.PlainExact | asm/asm.c:407-442 | a reference `x` gets the address of the global label x, whatever sub labels there are |
| Names.MeantExactly | asm/asm.c:407-442 | with unique labels, the label that a name stands for is the one that is meant exactly when the name has a dot just where it has no global label |
| Names.Unmeant | asm/asm.c:407-442 | a reference that means no label gets the label of the other kind of that name, and is refused exactly when there is none |
| Names.FinalIsMeant | asm/asm.c:468-504 | when no name is used both with and without a dot, every reference gets the label it means, and is refused if it means none |
| Names.ShadowedMissed | asm/asm.c:407-442 | a program of five lines in which `.x` goes to a global label x and not to the sub label x on the line before |
| Assembler.LineOfLabel | asm/asm.c:699-724 | every entry of the label list comes from a label line and holds its address |
| Assembler.FillOne | asm/asm.c:831-832 | filling a hole changes the two bytes of that hole and no others |
| Assembler.AssemblesImage | asm/asm.c:802-834 | in any program whose image fits, assembly succeeds exactly when every reference finds a label, and the result is the image with those labels: one pass is enough |
| Assembler.Context.LabelParent | asm/asm.c:397-402 | the nearest label at or before that is no sub label |
| Assembler.Context.ResolveLabel | asm/asm.c:407-442 | the newest label of the name that is global or has the given parent |
| Assembler.Context.AddPatch | asm/asm.c:508-527 | two filler bytes, and a patch with the scope and the place of the hole |
| Assembler.Context.EmitAddress | asm/asm.c:530-542 | the address low byte first, or a hole |
| Assembler.Context.Emit | asm/asm.c:546-638 | appends the encoding of the instruction, with a hole for an unknown name |
| Assembler.Context.ParseLine | asm/asm.c:654-800 | each line takes output, labels and patches to what the lines so far call for |
| Assembler.Context.ParseLines | asm/asm.c:802-812 | gets through exactly when every value is in range |
| Assembler.Context.ResolvePatches | asm/asm.c:820-834 | fails exactly when a name has no label; otherwise all holes are filled |
| Assembler.Context.Assemble | asm/asm.c:802-835 | the whole assembler, on any program: succeeds exactly when all values are in range and all names resolve, and the output of an image that fits is that image |
| Directives.Db | asm/directive.c:187-208 | accepts exactly lines of numbers from -128 to 255 and appends their bytes |
| Directives.Dd | asm/directive.c:210-245 | accepts numbers from -32768 to 65535, bare or in brackets, and appends them as words |
| Directives.WordAt | asm/directive.c:239-242 | every word of the line can be read back from its two bytes |
| Directives.Dn | asm/directive.c:247-257 | appends as many zeros as the count modulo 65536 |
| Directives.Ds | asm/directive.c:173-185 | appends the characters with escapes replaced, and a zero |
| Directives.EscapeComesBack | common/util.h:184-200 | every sequence of bytes can be written as a string |
| Directives.WordLineReads | asm/directive.c:210-245 | any numbers, each in brackets or not, are read as those numbers, when all are from -32768 to 65535 |
| Directives.WordLineOnly | asm/directive.c:210-245 | no other line is accepted |
| Directives.SpelledComesBack | common/util.h:184-200 | bytes written with the twelve escape letters of C wherever there is one come back, for every sequence of bytes |
| Directives.OtherCharacters | common/util.h:184-200 | a backslash in front of any other character leaves that character |
| Directives.TestString | test/esc.asm:15-15 | the string of the test gives its five bytes and the zero |
| Directives.Org | asm/directive.c:259-276 | takes one value in range, once; 0xFFFF counts as none |
| Directives.DataInMemory | asm/directive.c:187-208 | the bytes of a data line are in memory at the address of the line |
| Directives.WordInMemory | asm/directive.c:210-245 | the words of a `@dd` line are what the emulator reads there as 16-bit values |
| Directives.StringInMemory | asm/directive.c:173-185 | a `@ds` line without zero characters is a terminated string in memory |
| Simulation.ImageSimulates | asm/asm.c:546-638 | any number of emulator steps on the assembled image are as many operations of the symbolic program, as long as no operation stores into the image or leaves the program |
| Simulation.StaysLoaded | asm/asm.c:546-638 | an operation that keeps clear of the image leaves the image in place |
| Simulation.CodeHolds | asm/asm.c:546-638 | at the address of every operation memory holds its encoding |
| Expand.CheckArgs | asm/asm.c:350-393 | the walk along arguments and parameters decides whether an operation takes the arguments, optional parameters passed over |
| Expand.FindMacro | asm/asm.c:760-775 | the first overload of the name that takes the arguments |
| Expand.MatchFacts | asm/asm.c:760-775 | the overload found takes the arguments and is one of the macros of that name |
| Expand.RowFalls | asm/macros.asm:1-517 | every line of a built-in macro that is called has lower rank than the call |
| Expand.Enough | asm/macro.c:150-218 | more nesting than the rank of a call changes nothing: expansion of any call of a built-in macro ends |
| Expand.SpliceWeight | asm/macro.c:207-217 | replacing a call by the lines of its macro lowers the weight of the text |
| Expand.SpliceMeans | asm/macro.c:207-217 | the text with the lines spliced in expands to what the call expands to |
| Expand.Parse | asm/asm.c:654-812 | the parse loop with names left as names ends on every text, and its output is the expansion of the text, or none when some operation has no expansion |
| Choosing.SameChoice | asm/asm.c:735-775 | an operation that is native or fits an overload with its names left as names is native, or fits the same overload, with known names as numbers, for every name of the built-in table |
| Interleaving.ReachesPart | asm/asm.c:654-812 | when a text gets through, parsing comes to every part of it: what has been emitted by then stays in front, and the rest of the output is what the part emits there |
| Interleaving.Agrees | asm/asm.c:654-812 | a stretch of text that expands with its names left as names emits the lines it expands to, but for the addresses of known names in them, behind whatever has been emitted and in front of whatever follows |
| Interleaving.InterleavedFine | asm/asm.c:546-638 | whatever a text becomes, its lines are ones the assembler can emit |
| Interleaving.FillingAssembles | asm/asm.c:802-834 | the lines with those addresses in them assemble exactly when the lines with names do, to the same bytes |
| Interleaving.AssembleText | asm/asm.c:654-834 | the whole assembler on a text, expansion and emission line by line: bytes exactly when every line can be parsed with the labels in front of it, all values are in range and all names resolve |
| Interleaving.AssembleSame | asm/asm.c:654-834 | on every text that expands with its names left as names, that gets through exactly when the expanded lines assemble, and gives their image |
| Interleaving.OnlyInterleaved | asm/asm.c:468-504 | a text with `push [x]`, x at 0 in front of it, that expands only with the name as a number; with x behind it does not |
| Faults.SignFails | asm/macros.asm:117-119 | no call of SIGN ever expands |
| Faults.Sign16Fails | asm/macros.asm:123-124 | no call of SIGN16 ever expands |
| Faults.FarJnzFails | asm/macros.asm:262-265 | JNZ with three arguments never expands |
| Spelling.WordMacros | asm/macros.asm:46-130 | ADD16, SUB16 and EQ16 of two pairs and with a constant, INC16, DEC16 and MW16, for all operands, in every nesting deep enough: each expands to its block of native instructions |
| Spelling.ByteMacros | asm/macros.asm:18-164 | SUB, DEC, NAND, XOR and XNOR, for all operands, in every nesting deep enough: each expands to its block of native instructions |
| Spelling.MemoryMacros | asm/macros.asm:178-222 | LW16 and SW16 at an address, LW and SW through a pair of registers, for all operands, in every nesting deep enough: each expands to its block of native instructions |
| Spelling.StackMacros | asm/macros.asm:253-515 | PUSH and POP of five registers, PUSHA, POPA and RET, for all operands, in every nesting deep enough: each expands to its block of native instructions |
| Spelling.LabelMacros | asm/macros.asm:267-391 | JNZ, JMP, JMN and JZ to a label or a number, for all operands, in every nesting deep enough: each expands to its block of native instructions |
| Spelling.CallSpells | asm/macros.asm:236-242 | CALL expands to two pushes of the address behind it, left to the assembler, and the jump |
| Jumps.JumpSpells | asm/macros.asm:293-384 | JMS, JMN, JLT, JLE, JEQ, JNE, JGE and JGT with three arguments expand to their tests and a far jump, for all operands and targets |
| Jumps.FlagJumpSpells | asm/macros.asm:314-417 | so do the forms with one argument, JC, JNC, JB and JNB among them |
| Substitution.FindArgument | asm/macro.c:187-193 | the last parameter of the name, if there is one |
| Substitution.Duplicate | asm/macro.c:124-148 | a fresh copy of the body, cell by cell, linked both ways |
| Substitution.Substitute | asm/macro.c:164-205 | each `%name` of the copy gives way to the argument of that name, all else keeps its order; fails exactly at a name without an argument |
| Substitution.Splice | asm/macro.c:207-214 | the new tokens are linked in where the call stood |
| Substitution.Expand | asm/macro.c:150-218 | what stood before the call, the body with its arguments, what stood behind; the stored body is unchanged |
| Eval.GroupMeans | asm/eval.c:31-99 | on the tokens of any nested expression the evaluator computes its strict left-to-right value, or rejects it when a group is out of range |
| Groups.TakesExactly | asm/eval.c:31-99 | between two matching parentheses the evaluator takes the tokens with value v exactly when they are values with at most one operator in front of each and at most one token more in the end, and their value from left to right is v |
| Groups.TakenForTwo | asm/eval.c:31-99 | `(1 2 +)` is the spelling of no expression and has the value 2 |
| Laws.AnswerIs | asm/eval.c:31-99 | the value of any expression, of any depth and length, is the one that arithmetic gives it from left to right, stated without the functions of the evaluator: differences, products, truncated quotients with their remainders, bits, floors of shifts |
| Laws.MinusLaw | asm/eval.c:7-11 | for two values between parentheses: the value w is in range and w + y == x, or the result does not fit 64 bits, or there is none; the mark for "no value" counts as nothing |
| Laws.PlusLaw | asm/eval.c:15-15 | w - y == x |
| Laws.StarLaw | asm/eval.c:18-18 | w == x * y |
| Laws.SlashLaw | asm/eval.c:20-20 | x == w * y + r with |r| < |y| and r of the sign of x; undefined exactly for y == 0 and quotients beyond 64 bits |
| Laws.AmpersandLaw | asm/eval.c:16-16 | every bit and the sign of w is set just when both are |
| Laws.PipeLaw | asm/eval.c:17-17 | every bit and the sign of w is set just when one of them is |
| Laws.CaretLaw | asm/eval.c:19-19 | every bit and the sign of w is set just when they differ |
| Laws.LessLaw | asm/eval.c:21-21 | w == x * 2^y for x of no sign and y from 0 to 63; undefined exactly otherwise, or beyond 64 bits |
| Laws.GreaterLaw | asm/eval.c:22-22 | w is the floor of x / 2^y for y from 0 to 63; undefined exactly otherwise |
| Laws.NegativeLaw | asm/eval.c:7-10 | a minus in front: w + x == 0 |
| Laws.TildeLaw | asm/eval.c:12-14 | a tilde in front: w + x == -1, and every bit is the other way round |
| Laws.TildeBetween | asm/eval.c:12-14 | a tilde between two values is an error |
| Laws.AloneMeans | asm/eval.c:86-92 | a number in parentheses is itself, exactly when it is from -32768 to 65535 |
| Laws.LeftFirst | asm/eval.c:31-99 | no operator binds more tightly than another |
| Laws.SingleValues | test/eval.asm:4-37 | the values that the test expects of single operations |
| Laws.NestedValues | test/eval.asm:10-19 | and of nested ones |
| Eval.TextReduces | asm/eval.c:104-148 | a line of tokens and groups becomes the line with each group replaced by its value |
| Eval.FindClose | asm/eval.c:44-61 | the parenthesis that closes the one given, or none |
| Eval.EvalExp | asm/eval.c:31-99 | on linked tokens: the outcome of the group between the two parentheses; the recursion ends |
| Eval.Replace | asm/eval.c:137-145 | the opening token becomes the number and is linked past the group |
| Eval.EvalBetween | asm/eval.c:104-148 | on linked tokens, in place: the forward chain afterwards is the reduced line, from the same first to the same last token |
| Templates.TemplateValues | asm/macros.asm:99-113 | the expressions in macro bodies evaluate to the high byte, the low byte and the sum that expansion fills in |
| Templates.InverseValues | asm/macros.asm:426-457 | the masks with `~` evaluate to the complement |
| Templates.HereValues | asm/macros.asm:238-250 | the `$` expressions of CALL evaluate to the bytes of the address behind it, or are rejected when that is no word |
| Lowering.RowReads | asm/asm.c:734-758 | the tokens of a stored line with arguments substituted, `$` located, expressions reduced and arguments read give the arguments that expansion on operations fills in; one fails exactly when the other does |
| InPlace.TypeArgs | asm/asm.c:272-343 | on linked tokens: the arguments of a line, with brackets, names, ranges and the limit on their number as the loop has them |
| InPlace.ArgLineReads | asm/asm.c:272-343 | registers by their letters, numbers with or without brackets and names in brackets are read as those arguments, exactly when there are fewer than 16, or 16 of which the last has no bracket behind it |
| InPlace.ReadArgs | asm/asm.c:734-758 | on linked tokens, in place: `$` located, expressions evaluated and arguments read give what the same three steps give on the values of the tokens |
| InPlace.ReadLines | asm/asm.c:654-800 | on linked tokens, in place: one line after the other, each at its address, up to the token behind the last |
| InPlace.ReadExpansion | asm/macro.c:150-218 | on one list, in place: a call is expanded, and its lines are evaluated and read; the operations are those of the stored body with the arguments substituted, and the stored body is unchanged |
| InPlace.ReadCall | asm/macro.c:150-218 | on one list, in place: for a built-in macro these operations are the text that Expand splices in for the call, or both fail |
| Lowering.CallLowers | asm/macro.c:150-218 | a call expanded on tokens, read line by line, is the text of operations that Expand splices in for it, for every body and all arguments; one fails exactly when the other does |
| Macros.Add16Adds | asm/macros.asm:99-113 | ADD16 on two registers other than F computes the 16-bit sum, and its flags, when the high operand is neither the low register nor F |
| Macros.Add16Exact | asm/macros.asm:99-113 | on two registers other than F, with any operands, ADD16 gives the 16-bit sum exactly when the high operand is not the low register, or the low operand is zero, and not F, or F comes out as it was |
| Macros.Inc16Adds | asm/macros.asm:68-70 | INC16 adds one |
| Macros.Sub16Subtracts | asm/macros.asm:81-95 | SUB16 on two registers other than F with BORROW clear computes the 16-bit difference, and its flags, when the high operand is neither the low register nor F |
| Macros.Sub16Exact | asm/macros.asm:81-95 | on two registers other than F, with any operands, SUB16 gives the 16-bit difference exactly when BORROW was clear and the high operand is not changed before it is read |
| Macros.DecSubtracts | asm/macros.asm:42-44 | DEC takes one away |
| Macros.Dec16Subtracts | asm/macros.asm:74-77 | DEC16 takes one away, whatever BORROW was |
| Macros.Eq16Compares | asm/macros.asm:49-64 | EQ16 with low operands other than F and H leaves the EQUAL bit alone in F, set exactly when both bytes agree |
| Macros.Eq16Exact | asm/macros.asm:49-64 | with any operands, EQ16 tells whether the words agree exactly when the high bytes differ, or the low operands, with F and H read as the flags of two equal bytes, agree just when they did before |
| Macros.Eq16Spoilt | asm/macros.asm:49-54 | registers in which `eq16 a, h, 5` does not find 5 |
| Blocks.PointedExact | asm/macros.asm:174-176 | the two moves that set HL from a pair of registers set it to the word of the pair exactly when the low register is not H or the high one equals H |
| Blocks.RunLwAt | asm/macros.asm:212-215 | LW through any pair of registers reads the address that HL is set to |
| Blocks.RunSwAt | asm/macros.asm:219-222 | SW through any pair of registers stores at that address what the register holds by then |
| Blocks.StoredExact | asm/macros.asm:219-222 | that is the word of the pair and the byte of the register exactly when H is neither the low register nor stored, or stays as it is, and L is not stored, or stays as it is |
| Macros.JumpTests | asm/macros.asm:308-391 | JLT, JLE, JEQ, JNE, JGT and JZ test the unsigned comparison they are named for, on every state |
| Macros.JgeAlwaysJumps | asm/macros.asm:362-367 | the test of JGE always succeeds, and is right exactly when the comparison holds |
| Macros.FlagTests | asm/macros.asm:341-358 | JEQ and JNE without operands test what EQ16 left |
| Macros.CarryJumps | asm/macros.asm:395-417 | JC, JNC, JB and JNB test CARRY and BORROW, and the ones with an N the opposite, whatever F holds |
| Macros.MaskTests | asm/macros.asm:293-304 | JMS tests whether some bit of the mask is set in the register, JMN whether some bit of it is clear, for every mask; F for a mask stands for the value that F has been set to |
| Macros.FlagJumps | asm/macros.asm:314-388 | the forms with one argument test LESS and EQUAL in whatever F holds; that of JGE always jumps |
| Jumps.JumpOnMachine | asm/macros.asm:293-384 | text to machine, for every use of JLT, JLE, JEQ, JNE, JGE, JGT, JMS or JMN with three arguments in the text of any program that assembles: a run that comes to the line where the use begins goes to its number, or to the label that the assembler takes for the name there, exactly when the unsigned comparison holds, always for JGE, for JMS and JMN when some bit of the mask is set or clear, with memory and data registers kept; with unique labels, that is the label that is meant exactly when the name has a dot just where it has no global label |
| Jumps.FlagJumpOnMachine | asm/macros.asm:314-417 | text to machine: the same for every use of the forms with one argument, JC, JNC, JB and JNB among them, by what F holds |
| Jumps.BlockOnMachine | asm/macros.asm:18-164 | text to machine, for every use of a macro that expands to a block without memory or jumps, as it is written or with the labels in front as numbers: a run that comes to the line where the use begins computes what the block computes, with memory and stack pointer kept |
| Jumps.JzOnMachine | asm/macros.asm:390-391 | text to machine: the same for every use of JZ, which jumps exactly when the register is zero |
| Jumps.JnzOnMachine | asm/macros.asm:269-271 | text to machine: every use of JNZ with a fixed target goes there exactly when its operand, read after H and L have been set to the target, is not zero |
| Jumps.JmpOnMachine | asm/macros.asm:287-289 | text to machine: every use of JMP with a fixed target goes there |
| Jumps.CallOnMachine | asm/macros.asm:238-242 | text to machine: every use of CALL with a fixed target enters it with the address of the next instruction on the stack, and no other byte of memory changed |
| Effects.EffectOnMachine | asm/macros.asm:7-458 | text to machine, for every use of HALT, CLF, the eight flag macros, INC, FDEC, LDA and JMP of a pair, LW16 and SW16 through HL, OUTB, SW and SW16 of numbers, SW of a number through a pair, MW16 of pairs, ADD16 and SUB16 with three registers: the whole state when as many instructions have run as the macro has |
| Effects.HaltOnMachine | asm/macros.asm:7-11 | text to machine: every use of HALT stops the machine after three steps and for good, with bit 3 of the status and F set to it, and all else as it was |
| Effects.LdaOnMachine | asm/macros.asm:166-170 | text to machine: every use of LDA with a pair and a target puts the address of the target into the pair |
| Effects.CallPairOnMachine | asm/macros.asm:246-251 | text to machine: every use of CALL through a pair enters it with the address of the next instruction on the stack |
| Effects.LoadsWord | asm/macros.asm:186-189 | LW16 through HL loads the word there, low byte first, when its low register is not H, L or F |
| Effects.SwNameOnMachine | asm/macros.asm:226-228 | text to machine: every use of SW of a number to a name stores it at the address that the name stands for, wherever the label is |
| Effects.NamedOnMachine | asm/asm.c:530-542 | text to machine: every use of LW, SW or LDA with a name has the effect SPEC.txt gives for the address of the label that the name stands for, in front or behind |
| Effects.NativeOnMachine | asm/asm.c:546-638 | text to machine: every use of a native operation has the effect SPEC.txt gives for the instruction that it is |
| Jumps.AddOnMachine | os/lib/gfx.asm:75-75 | text to machine: every use of ADD16 with a name in brackets stands behind a label of that name, or nothing assembles, and adds the address of the last one |
| Blocks.JumpNonZeroExact | asm/macros.asm:269-271 | JNZ to a fixed target goes by its register exactly when that is neither H nor L, or is zero just when the byte of the target is that takes its place |
| Blocks.RunBranch | asm/macros.asm:308-391 | a conditional jump goes to its label exactly when its test succeeds, and keeps memory and data registers |
| Blocks.RunPushes | asm/macros.asm:461-481 | PUSH of any list of registers: the values on the stack in order |
| Blocks.RunPops | asm/macros.asm:485-505 | POP of any list of registers takes them from the stack in order |
| Blocks.RunRet | asm/macros.asm:255-258 | RET goes to the address on the stack |
| Blocks.RunCall | asm/macros.asm:238-242 | CALL enters its target with the address behind it on the stack |
| Calls.RunCallHere | asm/macros.asm:238-252 | either form of CALL, with any registers, enters its target with the address right behind it on the stack, 9 or 10 bytes on; the target of a pair is what HL is set to |
| Calls.CallsNest | asm/macros.asm:236-258 | for call trees of any depth, the cells above the floor stay, and each call resumes right behind it with its stack pointer |
| Calls.CallBehaves | asm/macros.asm:236-258 | a callee that comes to its RET in balance makes a call of that kind |
| Logic.XorExact | asm/macros.asm:159-164 | XOR is the bitwise exclusive or, for all registers and operands but F |
| Logic.XnorDoes | asm/macros.asm:151-155 | what XNOR leaves in its register, and that it changes no other but F |
| Logic.XnorExact | asm/macros.asm:151-155 | that is the exclusive nor exactly unless the operand is the register itself and not zero |
| Logic.Add24Does | emu/libemu.c:379-404 | what ADD, ADC, ADC leave in three registers |
| Logic.ThreeByteSum | emu/libemu.c:379-404 | running ADD, ADC, ADC on three registers gives the 24-bit sum exactly unless the low bytes carry into middle bytes that sum to 255 |
| Multiply.Mul16Runs | os/lib/math.asm:43-57 | on a core: the product mod 65536, or the first operand for a zero multiplier; c, d, z, sp back; memory at D0 and three stack cells only |
| Copying.MemcpyRuns | os/lib/util.asm:24-36 | on a core: one forward copy of z bytes; registers and sp back; five stack cells written besides |
| Copying.CopyMoves | os/lib/util.asm:24-36 | after a forward copy every byte of the destination is the source byte at its offset, or, where the destination begins d places into the source, at its offset modulo d |
| Copying.CopyAdd | os/lib/util.asm:42-64 | a copy of m + n bytes is a copy of m and then one of n |
| Copying16.Memcpy16Loop | os/lib/util.asm:44-58 | any number of passes of 255 bytes leave a rest below 256 to copy, and have copied everything before it |
| Copying16.Memcpy16Runs | os/lib/util.asm:42-64 | on a core: one forward copy of the 16-bit length at D0; registers and sp back; D0 and twelve stack cells written besides |
| Copying16.RestIs | os/lib/util.asm:44-58 | what the passes leave of the length: zero, or a number from 1 to 255 |
| Filling.MemsetRuns | os/lib/util.asm:70-81 | on a core: exactly the cd bytes from ab hold z, for every length; registers and sp back |
| Measuring.StrlenRuns | os/lib/util.asm:7-18 | on a core: the number of characters before the first zero, mod 256; all other data registers and sp back |
| Products.MulRuns | os/lib/math.asm:7-19 | on a core: the product mod 256 of any two bytes |
| Products.Mul168Runs | os/lib/math.asm:24-37 | on a core: the product mod 65536 of any word and byte |
| Products.ShlRuns | os/lib/shift.asm:7-18 | on a core: a times 2^b mod 256 |
| Products.Shl16Runs | os/lib/shift.asm:23-34 | on a core: ab times 2^c mod 65536 |
| Shifting.ShrRuns | os/lib/shift.asm:39-77 | on a core: a halved once for any count but zero |
| Shifting.ShrRight | os/lib/shift.asm:39-77 | that is the promised shift exactly for counts 0 and 1 and operands below 2 |
| Comparing.Cmp16Runs | os/lib/math.asm:63-88 | on a core: LESS and EQUAL of the two words in F, all data registers back |
| Refinement.StepModels | emu/libemu.c:302-407 | a step of the core is a step of the machine it models, and changes no byte that was not lent |
| Refinement.StepsRefine | emu/libemu.c:302-407 | so are any number of steps, with the program still in memory |
| Refinement.RoutineOnMachine | emu/libemu.c:302-407 | what a routine does on its core, the emulator does on the machine, everything else unchanged |
| Running.RunsOnMachine | emu/libemu.c:302-407 | the same stated on the machine alone: registers, lent cells, and which physical bytes may differ |
| Linking.NameComes | asm/asm.c:468-504 | a reference on an emitted line, whether its label was known when it was parsed or not, ends up as the label that Source.Binding names there |
| Linking.LayAt | asm/asm.c:546-638 | where the lines of a block stand, the code holds the block with its label filled in |
| Linking.CallAt | asm/macros.asm:238-242 | the bytes pushed by an assembled CALL are those of the address of the next instruction |
| Linking.LabelLine | asm/asm.c:683-726 | a local label of a routine has the address that the bytes before it give |
| Linking.Links | asm/asm.c:802-834 | behind its global label, a program with unique labels holds the code of the routine, its jumps aimed at its own labels, when no global label has the name of one of those |
| Linking.PartStands | asm/asm.c:654-812 | every stretch of a text that expands with its names left as names, whatever the rest of the text is, has its line: parsing comes to it when so many lines have been emitted, and there stand those it expands to |
| Linking.RoutineStands | asm/asm.c:654-834 | a routine in the text of an assembled program is at the address of its label |
| Programs.Mul16Stands | os/lib/math.asm:43-57 | the assembled code of mul16 is the program that Multiply speaks of |
| Programs.Mul16OnMachine | os/lib/math.asm:43-57 | text to machine: the product mod 65536 exactly when the multiplier is not zero or the operand is; c, d, z, sp back; D0 and three stack bytes changed |
| Library.MemcpyStands | os/lib/util.asm:24-36 | the assembled code of memcpy is the program that Copying speaks of |
| Library.Memcpy16OnMachine | os/lib/util.asm:42-64 | text to machine: as many bytes as D0 says are copied, for every length and every overlap; D0 ends as the length of the last pass; all registers and sp back; nothing changed but destination, D0 and twelve stack bytes |
| Library.MemsetOnMachine | os/lib/util.asm:70-81 | text to machine: exactly the cd bytes from ab hold z, for every length; nothing else changed but five stack bytes |
| Comparison.ShrStands | os/lib/shift.asm:39-77 | the assembled code of shr is the program that Shifting speaks of |
| Comparison.Cmp16OnMachine | os/lib/math.asm:63-88 | text to machine: LESS and EQUAL in F tell how the two words compare, for all words; registers and sp back |
| Routines.StrlenOnMachine | os/lib/util.asm:7-18 | text to machine: the length mod 256 of any string clear of three stack cells |
| Routines.LiteralMeasured | asm/directive.c:173-185 | strlen of a string that a `@ds` line of the same program put into memory |
| Routines.MemcpyOnMachine | os/lib/util.asm:24-36 | text to machine: z bytes are copied, as they were when the destination is not above the source or clear of it, repeating the first of them otherwise |
| Routines.MulOnMachine | os/lib/math.asm:7-19 | text to machine: the product mod 256 |
| Routines.Mul168OnMachine | os/lib/math.asm:24-37 | text to machine: the product mod 65536 of a word and a byte |
| Routines.ShlOnMachine | os/lib/shift.asm:7-18 | text to machine: times 2^b mod 256 |
| Routines.Shl16OnMachine | os/lib/shift.asm:23-34 | text to machine: times 2^c mod 65536 |
| Routines.ShrOnMachine | os/lib/shift.asm:39-77 | text to machine: one place at most; the promised shift exactly for counts 0 and 1 and operands below 2 |
| Nesting.CallsNestOnMachine | asm/macros.asm:236-258 | on the machine, in an assembled program: a tree of calls of any depth resumes behind the call with its stack pointer, and no physical byte changes but lent ones at or below the floor |
| Pipeline.PokedBytes | common/jdh8.h:208-219 | bytes stored one after the other are all there afterwards |
| Pipeline.LoadLoads | emu/libemu.c:265-296 | after loading, the image is in memory |
| Pipeline.BootedRuns | emu/libemu.c:302-407 | a booted program runs as its symbolic form while it keeps clear of its image |
| Pipeline.Build | asm/asm.c:654-835 | every text, line by line: bytes exactly when each line can be parsed with the labels in front of it, all values are in range and all references resolve; with an image that fits, exactly when all references stand for labels, and the bytes are the image of the emitted lines |
| Pipeline.Boot | asm/asm.c:654-835 | text to running machine: succeeds exactly for such texts; the state after n steps is that of the symbolic program of the emitted lines |
| Images.PackByte | misc/imc/imc.py:20-28 | bit k of the byte is set exactly when pixel k is not black |
| Images.Convert | misc/imc/imc.py:8-28 | takes pictures of 208 by 240 only, and packs every pixel of them; the six margin bytes of each line are zero |
| Images.Show | emu/screen.c:89-98 | every pixel of the screen shows its bit of the bank |
| Images.ShowsPicture | emu/screen.c:89-98 | a packed picture is shown lit exactly where the source is not black |
| Images.ScanlinesAre | SPEC.txt:107-117 | in numbers: lines of 32 bytes with 208 bits from byte 4 on, a bit set and shown as 0xFFFFFFFF unless the pixel is (0, 0, 0), and zeros at both ends |
| Images.MarginsBlank | misc/imc/imc.py:17-19 | the margins of a packed picture are zero |

## Left out

- Timing, threads, SDL, the keyboard, the monitor's command loop and file access (emu/emu.c, emu/screen.c outside its loop, emu/kb.c, emu/win). Devices are arbitrary sources and sinks of bytes and do not touch memory; their `tick` is not modelled, nor are ports from 125 to 127, behind which the emulator's device table has no entry.
- MB of 256 and above, where the emulator reads past its table of banks; adding and removing banks while running; `push`, `push16`, `pop`, `pop16` of the emulator, which nothing calls.
- The lexer: texts are sequences of labels, operations and data lines whose arguments are values, registers and symbols. Names are compared as given; the assembler ignores case.
- Conditional assembly, includes and defines: the lexer sets a different bit from the one that the parser tests, so a skipped line has no one meaning.
- Labels as plain numbers, in arithmetic, or `$` in a program of one's own: symbols stand in brackets, and `$` is used by the CALL macros alone. Labels with the name of a register.
- `@org` after the first line of output, which would move the addresses of later labels only.
- Macros that a program defines for itself: termination, overload choice and expansion by text are proved for the built-in set; `Substitution.Expand` holds for any body.
- A macro body that begins with an argument name, where the original follows a null pointer. SW without an argument, which the original accepts and then reads an argument that is not there.
- Expand.Parse: the loop with names left as names, apart from assembly. `Interleaving.AssembleText`, on which the results on the machine rest, does both line by line, with known names as numbers; `InPlace.ReadCall` has the expansion of a call on tokens. The argument of PUSH in the CALL macros is the only one whose value depends on the place, and it is kept symbolic in both.
- Lowering.CallLowers, InPlace.ReadCall: the names of operations are any that can be told apart; lines of a macro that are calls themselves are read, not expanded in turn.
- Eval.GroupMeans: division by zero, shifts of negative numbers to the left or by 64 and more, and 64-bit overflow, which C leaves undefined, have the outcome Undefined, about which nothing is said.
- Eval.EvalBetween, like Substitution.Expand, speaks of the forward chain of tokens; links backwards over replaced tokens are stale in the original too.
- Assembler.Context.AddPatch: the place of a hole is a natural number where the original keeps 16 bits; the two differ only for images that do not fit.
- Linking.Links, and the `OnMachine` lemmas on routines: for programs with unique labels in which no global label has the name of a label that the routine jumps to; the assembler and the lemmas in Jumps are proved without that.
- Effects.EffectOnMachine: SUB16 with three registers when BORROW is set, and stores of these macros into the program, to PC, or to MB while the program lies in the banked window.
- Macros.Add16Exact, Macros.Sub16Exact: nothing is said of a pair that is one register twice or has F in it.
- MacroTable: a hand-made transcription of asm/macros.asm; the parsing of macro signatures from tokens is not modelled.
- Flags and H, L after a routine: the routines make no promise about them, except that cmp16 sets F.
- os/lib/gfx.asm, os/lib/term.asm, programs and the kernel: display code of the same kind, parts of which ignore an argument.
- asm/microcode.c, circ, misc/aep, misc/avt and misc/chk: their meaning rests on hardware that is not described.
