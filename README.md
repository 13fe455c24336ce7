# Universal Machine emulator, modelled in Dafny

This project models the core of a C emulator for the Universal Machine. The
machine has eight 32-bit registers and a table of word segments. Segment 0
holds the running program, and a program counter points into it. The
emulator has four parts:

- **Segmented memory manager** (`memory.c`, module `SegmentedMemory`). It
  keeps the segment table, a FIFO queue of freed segment ids and the
  program counter. Each operation has two forms. The state `MemState` with
  its functions (`Mapped`, `Unmapped`, `ProgramLoaded`, ...) says what the
  operation does. The class `Memory` updates its fields in place, and its
  methods are proved to make exactly those state changes while keeping the
  table invariant. The invariant says that segment 0 is never a tombstone,
  and that the free queue holds exactly the tombstoned ids, each once and
  never 0.
- **Instruction handlers** (`instructions.c`, module `Instructions`). The
  class `Machine` owns the eight-register array, the memory, the
  console input still to be read, the output written so far, and a
  run status. It has one method per handler.
- **Decoder, execution loop and program loader** (`lilum.c`, module
  `Lilum`). `Decode` splits a word into its fields. `Exec` and `Step` give
  the meaning of one trip round the loop of `execute`, and `Run` gives the
  meaning of the whole loop. The methods `Dispatch`, `Execute` and
  `ReadInstructions` are the imperative code, proved against those
  functions.
- **Instruction encoder and binary writer** (`umlab.c`, module `Umlab`).
  This part holds the two instruction formats and one wrapper per
  instruction. It also holds the instruction stream that `Um_write_sequence`
  drains into big-endian bytes. Round-trip lemmas tie it to the decoder
  and the loader.

Module `Words` defines words, bytes and 32-bit truncation. Module
`Programs` takes the unit-test program `build_add_test` and proves that
the emulator prints the byte 48 and halts when it runs that program.

Words are integers in `[0, 2^32)`. Wrap-around is written out explicitly
as arithmetic modulo 2^32, and nand is computed on 32-bit vectors.

## Model

| member | source | states |
|---|---|---|
| Words.ToWord | memory.c:101-108 | The `(uint32_t)` cast of a segment id leaves every id below 2^32 unchanged, and in general differs from the id by a multiple of 2^32. |
| SegmentedMemory.Initial | memory.c:46-55 | A new memory has one empty segment 0, nothing free and program counter 0, and satisfies the table invariant. |
| SegmentedMemory.Appended | memory.c:71-73 | Appending adds exactly that word at the end of segment 0. Every other segment, the free queue and the program counter stay the same. |
| SegmentedMemory.Mapped | memory.c:92-111 | Mapping returns a non-zero id of a mapped segment of `n` zero words. With an empty free queue, the id is the old table length and the table grows by one slot. Otherwise the id is the head of the queue, the head leaves the queue and the table length is unchanged. No other slot changes, and the invariant is kept. |
| SegmentedMemory.Unmapped | memory.c:129-134 | Unmapping a mapped, non-zero id makes its slot a tombstone and adds the id at the back of the free queue. No other slot changes, and the invariant is kept. |
| SegmentedMemory.ProgramLoaded | memory.c:157-173 | Segment 0 becomes equal to segment `id` and the program counter becomes `target`. Every other slot and the free queue stay the same. With `id == 0`, no segment changes. |
| SegmentedMemory.ValueAt | memory.c:192-196 | A load reads the word at the given location of a mapped segment: storing that word back leaves the memory exactly as it was. |
| SegmentedMemory.Stored | memory.c:216-220 | A store replaces exactly one word of one segment. Every segment keeps its length, every other slot stays the same, and so do the free queue and the program counter. |
| SegmentedMemory.Continues | memory.c:293-296 | Execution goes on exactly when the program counter is a readable location of segment 0. |
| SegmentedMemory.Fetched | memory.c:238-244 | A fetch returns the word of segment 0 under the program counter and advances the counter by exactly one. Nothing else changes. |
| SegmentedMemory.MapAllReusesOldestFirst | memory.c:104-108 | As long as freed ids remain, successive maps return them in the order they were freed, and the queue keeps the ones not yet reused. |
| SegmentedMemory.FreedIdsReusedInOrder | memory.c:129-134 | Starting from an empty free queue, unmapping `a` and then `b` makes the next two maps return `a` and then `b`. |
| SegmentedMemory.StoreThenLoad | memory.c:192-220 | A load sees the word just stored at the same location. A load from any other location sees the old word. |
| SegmentedMemory.LoadedProgramIsACopy | memory.c:164-167 | Segment 0 is a copy, not an alias: a store into the source segment after loading it leaves the program unchanged. |
| SegmentedMemory.NewZeroSegment | memory.c:95-97 | The filling loop yields exactly `n` zero words. |
| SegmentedMemory.Duplicate | memory.c:164-167 | The element-by-element copying loop yields a sequence equal to its source. |
| SegmentedMemory.Memory.constructor | memory.c:46-55 | The new object holds the initial state and satisfies the invariant. |
| SegmentedMemory.Memory.AppendSegment0 | memory.c:71-73 | The new state is `Appended` of the old one, and the invariant is kept. |
| SegmentedMemory.Memory.MapSegmentHelper | memory.c:92-111 | The new state and the returned id are those of `Mapped`. |
| SegmentedMemory.Memory.UnmapSegmentHelper | memory.c:129-134 | The new state is `Unmapped` of the old one, for a mapped, non-zero id. |
| SegmentedMemory.Memory.LoadProgramHelper | memory.c:157-173 | The new state is `ProgramLoaded` of the old one. The copy is made by a loop. |
| SegmentedMemory.Memory.ValueInSegment | memory.c:192-196 | It returns the word at the given offset of the given mapped segment. It requires an in-bounds location, which the C code leaves unchecked. |
| SegmentedMemory.Memory.StoreInSegment | memory.c:216-220 | The new state is `Stored` of the old one, for an in-bounds location. |
| SegmentedMemory.Memory.Instruction | memory.c:238-244 | It returns the word under the program counter and leaves the state `Fetched` describes. |
| SegmentedMemory.Memory.InstructionsComplete | memory.c:293-296 | True if and only if the program counter is inside segment 0. |
| Instructions.Add | instructions.c:114-117 | The sum modulo 2^32: the plain sum when it fits, otherwise the sum minus 2^32. |
| Instructions.Mul | instructions.c:134-140 | The product modulo 2^32: it differs from the true product by a multiple of 2^32, and equals it when it fits. |
| Instructions.Div | instructions.c:157-160 | Unsigned division rounding down: `r*c <= b < r*c + c`, for a non-zero divisor. |
| Instructions.Nand | instructions.c:178-181 | As a 32-bit vector, the result is the complement of the bitwise and. |
| Instructions.NandCommutes | instructions.c:178-181 | Nand does not depend on the order of its operands. |
| Instructions.NandZeroIsAllOnes | instructions.c:178-181 | Nand with zero gives the word with all 32 bits set, whatever the other operand. |
| Instructions.ZeroRegisters | instructions.c:27 | Eight registers, all zero. |
| Instructions.Machine.constructor | instructions.c:27 | A running machine with zeroed registers over the given memory, with the whole input unread and nothing written. |
| Instructions.Machine.ConditionalMove | instructions.c:44-51 | Register A receives register B if and only if register C is non-zero. Otherwise no register changes. |
| Instructions.Machine.SegmentedLoad | instructions.c:70-74 | Register A receives the word at segment `$rB`, offset `$rC`. No other register changes. |
| Instructions.Machine.SegmentedStore | instructions.c:93-97 | Memory becomes `Stored` with register C at segment `$rA`, offset `$rB`. |
| Instructions.Machine.Addition | instructions.c:114-117 | Register A receives `Add` of registers B and C. No other register changes. |
| Instructions.Machine.Multiplication | instructions.c:134-140 | Register A receives `Mul` of registers B and C. No other register changes. |
| Instructions.Machine.Division | instructions.c:157-160 | Register A receives `Div` of registers B and C, for a non-zero register C. No other register changes. |
| Instructions.Machine.BitwiseNand | instructions.c:178-181 | Register A receives `Nand` of registers B and C. No other register changes. |
| Instructions.Machine.Halt | instructions.c:197-202 | The status becomes Halted, and the console streams stay as they were. |
| Instructions.Machine.MapSegment | instructions.c:221-231 | Memory becomes `Mapped` with `$rC` words, and register B receives the new id cast to 32 bits. No other register changes. |
| Instructions.Machine.UnmapSegment | instructions.c:249-253 | Memory becomes `Unmapped` at the id held in register C. |
| Instructions.Machine.Output | instructions.c:268-273 | Exactly the byte in register C, which must be at most 255, is appended to the output. |
| Instructions.Machine.Input | instructions.c:288-296 | Register C receives the next input byte, which is consumed. At end of input, register C receives `0xFFFFFFFF`, the value `fgetc`'s -1 takes once cast. |
| Instructions.Machine.LoadProgram | instructions.c:314-320 | The handler passes register contents, not register indices: memory becomes `ProgramLoaded(m, $rB, $rC)`. |
| Instructions.Machine.LoadValue | instructions.c:336-339 | Register A receives the value. No other register changes. |
| Lilum.OpcodeOf | lilum.c:134 | The opcode is bits 31-28, so it is always below 16. |
| Lilum.Decode | lilum.c:133-146 | The decoder picks the immediate layout if and only if the opcode is 13. Its fields are in range: register indices below 8 and the immediate below 2^25. |
| Lilum.DecodeIgnoresUnusedBits | lilum.c:144-146 | A three-register instruction depends only on its opcode bits and its low nine bits: clearing bits 27-9 leaves the decoded instruction unchanged. |
| Lilum.DecodedFieldsInRange | lilum.c:137-146 | Every decoded instruction names registers inside the register file. |
| Lilum.Exec | lilum.c:149-193 | The switch keeps the register file at eight registers and the memory invariant. Only load-program moves the program counter. Opcodes 14 and 15 change nothing. Halt stops with registers and memory unchanged. |
| Lilum.Step | lilum.c:133-193 | One fetch-decode-dispatch keeps the machine state well formed. |
| Lilum.Run | lilum.c:131-194 | The bounded loop keeps the machine state well formed. |
| Lilum.StepAdvancesByOne | lilum.c:133 | Every instruction except load-program that leaves the machine running moves the program counter exactly one word on. |
| Lilum.StepLoadsValue | lilum.c:137-141 | One step of load value sets register A to the 25-bit immediate, advances the counter, and changes nothing else. |
| Lilum.StepAdds | lilum.c:160-162 | One step of addition sets register A to the wrapped sum, advances the counter, and changes nothing else. |
| Lilum.StepOutputs | lilum.c:181-183 | One step of output, whatever its A and B fields hold, appends register C when it is at most 255, and faults otherwise. |
| Lilum.StepHalts | lilum.c:172-173 | One step of halt changes only two things: the program counter moves past the instruction and the status becomes Halted. Registers, the rest of memory and the streams are unchanged. |
| Lilum.StepIgnoresUnusedOpcode | lilum.c:149-193 | Opcodes 14 and 15 match no case, so only the program counter moves. |
| Lilum.RunUnfolds | lilum.c:131-133 | While running and inside segment 0, a run is one step followed by the rest of the run. |
| Lilum.StoppedStaysStopped | lilum.c:131 | After a halt, a fault, or once the counter leaves segment 0, no further instruction runs. |
| Lilum.Dispatch | lilum.c:149-193 | The machine's new state is `Exec` of its old state and the decoded instruction. A condition on which the C code aborts, fails its output `assert`, or has undefined behaviour becomes a fault status. |
| Lilum.Execute | lilum.c:121-195 | The loop leaves the machine in `Run` of its starting state. |
| Lilum.Pack | lilum.c:96-100 | The first byte becomes bits 31-24 and the last byte becomes bits 7-0. |
| Lilum.Assembled | lilum.c:75-102 | There is one word per complete group of four bytes, in order, each packed big-endian. A trailing partial group is dropped. |
| Lilum.AssembledConcat | lilum.c:72-104 | Assembling a byte stream cut at a word boundary is assembling each part. |
| Lilum.ReadInstructions | lilum.c:71-105 | Segment 0 grows by exactly the assembled words. Every other segment, the free queue and the program counter stay the same. |
| Lilum.Boot | um.c:48-49 | The starting state is running, with all registers zero, the program counter at 0, a table holding only segment 0 with the assembled binary, an empty free queue, the whole input unread and nothing written. |
| Lilum.Load | um.c:48-49 | Creating the memory, reading the binary into it and creating the machine over it leaves the machine in the state `Boot` describes. |
| Umlab.Number | umlab.c:25-28 | Each opcode's number is below 14. Only load value has number 13. |
| Umlab.NumberIsInjective | umlab.c:25-28 | Distinct opcodes have distinct numbers. |
| Umlab.ThreeRegisterWord | umlab.c:33-43 | The opcode is in bits 31-28, A, B and C are in bits 8-6, 5-3 and 2-0, and bits 27-9 are zero. Decoding gives back the same opcode and registers. |
| Umlab.LoadVal | umlab.c:45-53 | 13 is in bits 31-28, register A in bits 27-25 and the value in bits 24-0, so decoding gives back opcode 13, register A and the value. The register must be below 8 and the value below 2^25. |
| Umlab.ThreeRegisterWordOfDecode | umlab.c:33-43 | Every word with opcode below 14 other than 13, and with bits 27-9 clear, is the encoding of its own decoded fields. |
| Umlab.HaltInstruction | umlab.c:58-61 | It decodes as opcode 7 with all register fields zero. |
| Umlab.ConditionalMove | umlab.c:65-68 | It decodes as opcode 0 with the given registers. |
| Umlab.SegmentedLoad | umlab.c:70-73 | It decodes as opcode 1 with the given registers. |
| Umlab.SegmentedStore | umlab.c:75-78 | It decodes as opcode 2 with the given registers. |
| Umlab.Addition | umlab.c:80-83 | It decodes as opcode 3 with the given registers. |
| Umlab.Multiplication | umlab.c:85-88 | It decodes as opcode 4 with the given registers. |
| Umlab.Division | umlab.c:90-93 | It decodes as opcode 5 with the given registers. |
| Umlab.BitwiseNand | umlab.c:95-98 | It decodes as opcode 6 with the given registers. |
| Umlab.MapSegment | umlab.c:100-102 | It decodes as opcode 8 with register A zero. |
| Umlab.UnmapSegment | umlab.c:104-106 | It decodes as opcode 9 with registers A and B zero. |
| Umlab.Output | umlab.c:108-110 | It decodes as opcode 10 with registers A and B zero. |
| Umlab.Input | umlab.c:112-114 | It decodes as opcode 11 with registers A and B zero. |
| Umlab.LoadProgram | umlab.c:116-118 | It decodes as opcode 12 with register A zero. |
| Umlab.Serialised | umlab.c:132-143 | A stream of `n` words is written as `4n` bytes. |
| Umlab.PackOfWordBytes | lilum.c:96-100 | Packing the four bytes the writer emits for a word gives back that word. |
| Umlab.WordBytesOfPack | umlab.c:138-140 | The writer's four bytes for a packed word are the bytes that were packed. |
| Umlab.AssembledSerialised | umlab.c:136-140 | The loader reads back exactly the words the writer wrote. |
| Umlab.SerialisedAssembled | lilum.c:75-102 | Writing out what the loader assembled gives back the binary, less a trailing partial group. |
| Umlab.EmitWord | umlab.c:138-140 | The inner loop emits the bytes from bit 24 down to bit 0, most significant first. |
| Umlab.InstructionStream.Append | umlab.c:124-128 | The instruction is added at the back of the stream. |
| Umlab.InstructionStream.WriteSequence | umlab.c:132-143 | The bytes written are the serialisation of the whole stream in order, and the stream is left empty. |
| Programs.AddTest | umlab.c:153-161 | The add test is five instructions long. |
| Programs.AddTestDecodes | umlab.c:153-161 | The five words decode as load 10 into r2, load 38 into r3, r1 := r2 + r3, output r1, halt. |
| Programs.AddTestRuns | lilum.c:121-195 | From any well-formed running state whose program is the add test, five steps print 48 and halt. |
| Programs.AddTestPrintsSum | umlab.c:153-161 | Writing the add test out, loading the bytes and running them prints the single byte 48 and halts, whatever the input. |

## Left out

- `main` in `um.c` and `open_file` in `lilum.c` are left out. They handle the command line and opening files, and `Lilum.Boot` stands for what they set up.
- The file-size `hint` of `create_segment0` is left out because it only pre-sizes a sequence.
- Standard input and output are byte sequences in the machine state. Opcode 11 consumes input and opcode 10 appends output. `fgetc`, `fputc`, `fflush` and the `FILE*` reads of `read_instructions` are not modelled; the loader takes the bytes of the binary as a sequence.
- The internals of the sequence and bit-packing libraries (`Seq_T` growth, `Bitpack` exceptions) are not modelled. An argument that would make `Bitpack_newu` raise becomes a `requires` on `Umlab.ThreeRegisterWord` and `Umlab.LoadVal`.
- `free_segments`, `Seq_free` and the `exit(0)` in `halt` are not modelled. Halt sets a terminal `Halted` status, and no further instruction runs.
- Lilum.Execute: the C loop runs until the program counter leaves segment 0 or the process exits. The model runs at most `fuel` instructions, so a run that never stops is described only up to any bound.
- Unchecked conditions: the C code reads or writes an unmapped segment or an out-of-range offset, divides by zero, unmaps segment 0, unmaps an id that is already unmapped or out of range, or loads a program from an unmapped id, without a check of its own. The result is an abort inside the sequence library or undefined behaviour. Output of a value above 255 is checked, by an `assert` in the `output` handler, and aborts. The handlers require these conditions away. `Lilum.Dispatch` and `Lilum.Exec` stop the machine with a `Faulted` status instead.
- Lilum.Exec: unmapping segment 0 in C frees the running program, and the next loop test, `instructions_complete`, aborts on the freed slot. The model faults at the unmap itself.
- Opcodes 14 and 15: the machine's specification calls them a fatal error. The C `switch` has no case for them, so such a word only advances the program counter. The model follows the code.
- SegmentedMemory.Mapped: `map_segment_helper` passes the requested size to `Seq_new`, whose size hint is a signed `int`; a size of 2^31 words or more aborts there. The model maps a segment of any size.
- Instructions.Machine.MapSegment: the segment id is cast to 32 bits, as in the C code. An id of 2^32 or more cannot be reached with real memory, and no lemma is stated for it.
- Umlab.InstructionStream: the stream's words are a sequence field. `Um_write_sequence` takes its file argument as the returned byte sequence. The other unit-test generators of `umlab.c` (`build_halt_test`, `build_output_test`, ...) and `print_six` are not modelled. `Programs` treats `build_add_test` as a representative example.
- Segments are Dafny sequences, which are values. Aliasing between segment 0 and the segment it was loaded from cannot arise in the model. `SegmentedMemory.LoadedProgramIsACopy` states the property the deep copy of `load_program_helper` provides.
