/** The execution engine and the program loader (lilum.c): the decoder of
    instruction words, the fetch-decode-dispatch loop, and the assembly of
    the program binary's bytes into segment 0. */
module Lilum {
  import opened Words
  import opened SegmentedMemory
  import opened Instructions

  // ---------------------------------------------------------------------------
  // Decoding (Bitpack_getu on fixed fields)

  /** A decoded instruction. Opcode 13 carries register A and a 25-bit
      immediate; every other opcode carries three register indices. */
  datatype Decoded =
    | ThreeRegister(op: nat, a: nat, b: nat, c: nat)
    | LoadImmediate(a: nat, value: nat)

  const OpLoadValue: nat := 13

  /** Bits 31-28. */
  function OpcodeOf(w: Word): (op: nat)
    ensures op < 16
  {
    w / 0x1000_0000
  }

  /** Splits an instruction word into its fields. */
  function Decode(w: Word): (d: Decoded)
    ensures d.LoadImmediate? <==> OpcodeOf(w) == OpLoadValue
    ensures d.ThreeRegister? ==> d.op == OpcodeOf(w) && d.a < 8 && d.b < 8 && d.c < 8
    ensures d.LoadImmediate? ==> d.a < 8 && d.value < 0x200_0000
  {
    var op := OpcodeOf(w);
    if op == OpLoadValue then
      LoadImmediate((w / 0x200_0000) % 8, w % 0x200_0000)
    else
      ThreeRegister(op, (w / 64) % 8, (w / 8) % 8, w % 8)
  }

  /** The fields of a decoded instruction are in range, so every register
      access it makes is within the register file. */
  predicate FieldsInRange(d: Decoded) {
    match d
    case ThreeRegister(op, a, b, c) => op < 16 && op != OpLoadValue && a < 8 && b < 8 && c < 8
    case LoadImmediate(a, value) => a < 8 && value < 0x200_0000
  }

  lemma DecodedFieldsInRange(w: Word)
    ensures FieldsInRange(Decode(w))
  {
  }

  /** Below bit 9, the three register fields of `k * 512 + r` are those of `r`. */
  lemma LowFields(k: nat, r: nat)
    requires r < 512
    ensures (k * 512 + r) / 64 % 8 == r / 64 % 8
    ensures (k * 512 + r) / 8 % 8 == r / 8 % 8
    ensures (k * 512 + r) % 8 == r % 8
  {
    var x := k * 512 + r;
    DivisionUnique(x, 64, k * 8 + r / 64, r % 64);
    DivisionUnique(k * 8 + r / 64, 8, k + r / 64 / 8, r / 64 % 8);
    DivisionUnique(x, 8, k * 64 + r / 8, r % 8);
    DivisionUnique(k * 64 + r / 8, 8, k * 8 + r / 8 / 8, r / 8 % 8);
  }

  /** A three-register instruction is read from bits 31-28 and 8-0 alone:
      bits 27-9 make no difference to what it decodes to. */
  lemma DecodeIgnoresUnusedBits(w: Word)
    requires OpcodeOf(w) != OpLoadValue
    ensures Decode(w) == Decode(OpcodeOf(w) * 0x1000_0000 + w % 512)
  {
    var n, r := OpcodeOf(w), w % 512;
    var v := n * 0x1000_0000 + r;
    DivisionUnique(v, 0x1000_0000, n, r);
    DivisionUnique(w, 512, w / 512, r);
    LowFields(w / 512, r);
    LowFields(n * 0x8_0000, r);
  }

  // ---------------------------------------------------------------------------
  // What one instruction does, as a function of the machine state

  /** The state stopped by a failed run-time check. */
  function WithFault(s: State, f: Fault): State {
    s.(status := Faulted(f))
  }

  /** The switch of `execute`, applied to a state whose program counter has
      already moved past the instruction. */
  function Exec(s: State, d: Decoded): (r: State)
    requires WellFormed(s) && FieldsInRange(d)
    ensures WellFormed(r)
    ensures s.status == Running && r.status == Running && !(d.ThreeRegister? && d.op == 12) ==> r.mem.pc == s.mem.pc
    ensures d.ThreeRegister? && d.op >= 14 ==> r == s
    ensures d.ThreeRegister? && d.op == 7 ==> r.status == Halted && r.mem == s.mem && r.regs == s.regs
  {
    match d
    case LoadImmediate(a, value) => s.(regs := s.regs[a := value])
    case ThreeRegister(op, a, b, c) =>
      var R := s.regs;
      if op == 0 then
        if R[c] != 0 then s.(regs := R[a := R[b]]) else s
      else if op == 1 then
        if !IsMapped(s.mem, R[b]) then WithFault(s, UnmappedSegment)
        else if !InBounds(s.mem, R[b], R[c]) then WithFault(s, OffsetOutOfRange)
        else s.(regs := R[a := ValueAt(s.mem, R[b], R[c])])
      else if op == 2 then
        if !IsMapped(s.mem, R[a]) then WithFault(s, UnmappedSegment)
        else if !InBounds(s.mem, R[a], R[b]) then WithFault(s, OffsetOutOfRange)
        else s.(mem := Stored(s.mem, R[c], R[a], R[b]))
      else if op == 3 then s.(regs := R[a := Add(R[b], R[c])])
      else if op == 4 then s.(regs := R[a := Mul(R[b], R[c])])
      else if op == 5 then
        if R[c] == 0 then WithFault(s, DivisionByZero) else s.(regs := R[a := Div(R[b], R[c])])
      else if op == 6 then s.(regs := R[a := Nand(R[b], R[c])])
      else if op == 7 then s.(status := Halted)
      else if op == 8 then
        var (m, id) := Mapped(s.mem, R[c]);
        s.(mem := m, regs := R[b := ToWord(id)])
      else if op == 9 then
        if R[c] == 0 then WithFault(s, UnmapOfSegmentZero)
        else if !IsMapped(s.mem, R[c]) then WithFault(s, UnmappedSegment)
        else s.(mem := Unmapped(s.mem, R[c]))
      else if op == 10 then
        if R[c] > 255 then WithFault(s, OutputTooLarge) else s.(output := s.output + [R[c]])
      else if op == 11 then
        if s.input == [] then s.(regs := R[c := EndOfInput])
        else s.(regs := R[c := s.input[0]], input := s.input[1..])
      else if op == 12 then
        if !IsMapped(s.mem, R[b]) then WithFault(s, UnmappedSegment)
        else s.(mem := ProgramLoaded(s.mem, R[b], R[c]))
      else
        s  // opcodes 14 and 15 match no case of the switch
  }

  /** One trip round the loop of `execute`: fetch, advance, decode, execute. */
  function Step(s: State): (r: State)
    requires WellFormed(s) && Continues(s.mem)
    ensures WellFormed(r)
  {
    var (m, w) := Fetched(s.mem);
    Exec(s.(mem := m), Decode(w))
  }

  /** Whether `execute` would go round its loop again. */
  predicate Active(s: State)
    requires WellFormed(s)
  {
    s.status == Running && Continues(s.mem)
  }

  /** At most `fuel` trips round the loop of `execute`; it stops early on
      halt, on a fault, or once the program counter leaves segment 0. */
  function Run(s: State, fuel: nat): (r: State)
    requires WellFormed(s)
    ensures WellFormed(r)
    decreases fuel
  {
    if fuel == 0 || !Active(s) then s else Run(Step(s), Spend(fuel))
  }

  /** The fuel left after one trip round the loop. */
  function Spend(fuel: nat): (rest: nat)
    requires fuel > 0
    ensures rest + 1 == fuel
  {
    fuel - 1
  }

  // ---------------------------------------------------------------------------
  // Properties of the loop

  /** An instruction other than load-program leaves the program counter just
      past itself. */
  lemma StepAdvancesByOne(s: State)
    requires WellFormed(s) && Active(s)
    requires var d := Decode(Program(s.mem)[s.mem.pc]); !(d.ThreeRegister? && d.op == 12)
    ensures Step(s).status == Running ==> Step(s).mem.pc == s.mem.pc + 1
  {
  }

  /** The state with the program counter moved past the current instruction. */
  function Advanced(s: State): (r: State)
    requires WellFormed(s) && Continues(s.mem)
    ensures WellFormed(r) && r.mem.pc == s.mem.pc + 1
  {
    s.(mem := Fetched(s.mem).0)
  }

  /** load value: one trip round the loop sets register A and nothing else. */
  lemma StepLoadsValue(s: State, a: nat, value: nat)
    requires WellFormed(s) && Active(s) && a < 8
    requires Decode(Program(s.mem)[s.mem.pc]) == LoadImmediate(a, value)
    ensures value < 0x200_0000 && Step(s) == Advanced(s).(regs := s.regs[a := value])
  {
  }

  /** addition: register A receives the wrapped sum of registers B and C. */
  lemma StepAdds(s: State, a: nat, b: nat, c: nat)
    requires WellFormed(s) && Active(s) && a < 8 && b < 8 && c < 8
    requires Decode(Program(s.mem)[s.mem.pc]) == ThreeRegister(3, a, b, c)
    ensures Step(s) == Advanced(s).(regs := s.regs[a := Add(s.regs[b], s.regs[c])])
  {
  }

  /** output: a byte-sized register C is appended to the output; a larger
      value stops the machine. Fields A and B play no part. */
  lemma StepOutputs(s: State, a: nat, b: nat, c: nat)
    requires WellFormed(s) && Active(s) && a < 8 && b < 8 && c < 8
    requires Decode(Program(s.mem)[s.mem.pc]) == ThreeRegister(10, a, b, c)
    ensures s.regs[c] <= 255 ==> Step(s) == Advanced(s).(output := s.output + [s.regs[c]])
    ensures s.regs[c] > 255 ==> Step(s) == Advanced(s).(status := Faulted(OutputTooLarge))
  {
  }

  /** halt: the machine stops with registers, memory and streams as they were. */
  lemma StepHalts(s: State)
    requires WellFormed(s) && Active(s)
    requires Decode(Program(s.mem)[s.mem.pc]).ThreeRegister? && Decode(Program(s.mem)[s.mem.pc]).op == 7
    ensures Step(s) == Advanced(s).(status := Halted)
  {
  }

  /** Opcodes 14 and 15 match no case of the switch: only the program
      counter moves. */
  lemma StepIgnoresUnusedOpcode(s: State)
    requires WellFormed(s) && Active(s)
    requires OpcodeOf(Program(s.mem)[s.mem.pc]) >= 14
    ensures Step(s) == Advanced(s)
  {
  }

  /** One trip round the loop, then the rest of the run. */
  lemma RunUnfolds(s: State, fuel: nat, rest: nat)
    requires WellFormed(s) && Active(s) && fuel > 0 && rest == Spend(fuel)
    ensures Run(s, fuel) == Run(Step(s), rest)
  {
  }

  /** The loop invariant of Execute carried across one trip round the loop:
      what remains of the run from the next state is what remained of the
      whole run. */
  lemma RunContinues(start: State, fuel: nat, before: State, left: nat, rest: nat)
    requires WellFormed(start) && WellFormed(before) && Active(before) && left > 0 && rest == left - 1
    requires Run(start, fuel) == Run(before, left)
    ensures Run(start, fuel) == Run(Step(before), rest)
  {
    RunUnfolds(before, left, rest);
  }

  /** A run that begins with one trip round the loop ends where the run from
      the next state ends. */
  lemma RunFrom(s: State, fuel: nat, rest: nat, final: State)
    requires WellFormed(s) && Active(s) && fuel > 0 && rest == fuel - 1
    requires Run(Step(s), rest) == final
    ensures Run(s, fuel) == final
  {
    RunUnfolds(s, fuel, rest);
  }

  /** Halt and faults are terminal, and so is a program counter past the end
      of segment 0: no further instruction runs. */
  lemma StoppedStaysStopped(s: State, fuel: nat)
    requires WellFormed(s) && !Active(s)
    ensures Run(s, fuel) == s
  {
  }


  // ---------------------------------------------------------------------------
  // The imperative engine

  /** The switch of `execute`: hands a decoded instruction to its handler,
      after checking the conditions the handlers take for granted. */
  method Dispatch(um: Machine, d: Decoded)
    requires um.Valid() && FieldsInRange(d)
    modifies um, um.regs, um.mem
    ensures um.Valid()
    ensures um.Snapshot() == Exec(old(um.Snapshot()), d)
  {
    match d
    case LoadImmediate(a, value) =>
      um.LoadValue(a, value);
    case ThreeRegister(op, a, b, c) =>
      if op == 0 {
        um.ConditionalMove(a, b, c);
      } else if op == 1 {
        if !IsMapped(um.mem.State(), um.regs[b]) {
          um.status := Faulted(UnmappedSegment);
        } else if !InBounds(um.mem.State(), um.regs[b], um.regs[c]) {
          um.status := Faulted(OffsetOutOfRange);
        } else {
          um.SegmentedLoad(a, b, c);
        }
      } else if op == 2 {
        if !IsMapped(um.mem.State(), um.regs[a]) {
          um.status := Faulted(UnmappedSegment);
        } else if !InBounds(um.mem.State(), um.regs[a], um.regs[b]) {
          um.status := Faulted(OffsetOutOfRange);
        } else {
          um.SegmentedStore(a, b, c);
        }
      } else if op == 3 {
        um.Addition(a, b, c);
      } else if op == 4 {
        um.Multiplication(a, b, c);
      } else if op == 5 {
        if um.regs[c] == 0 {
          um.status := Faulted(DivisionByZero);
        } else {
          um.Division(a, b, c);
        }
      } else if op == 6 {
        um.BitwiseNand(a, b, c);
      } else if op == 7 {
        um.Halt();
      } else if op == 8 {
        um.MapSegment(b, c);
      } else if op == 9 {
        if um.regs[c] == 0 {
          um.status := Faulted(UnmapOfSegmentZero);
        } else if !IsMapped(um.mem.State(), um.regs[c]) {
          um.status := Faulted(UnmappedSegment);
        } else {
          um.UnmapSegment(c);
        }
      } else if op == 10 {
        if um.regs[c] > 255 {
          um.status := Faulted(OutputTooLarge);
        } else {
          um.Output(c);
        }
      } else if op == 11 {
        um.Input(c);
      } else if op == 12 {
        if !IsMapped(um.mem.State(), um.regs[b]) {
          um.status := Faulted(UnmappedSegment);
        } else {
          um.LoadProgram(b, c);
        }
      }
  }

  /** execute: fetch, decode and dispatch while the program counter is inside
      segment 0, for at most `fuel` instructions. */
  method Execute(um: Machine, fuel: nat)
    requires um.Valid()
    modifies um, um.regs, um.mem
    ensures um.Valid()
    ensures um.Snapshot() == Run(old(um.Snapshot()), fuel)
  {
    ghost var start := um.Snapshot();
    var left := fuel;
    while left > 0
      invariant um.Valid()
      invariant Run(start, fuel) == Run(um.Snapshot(), left)
    {
      if um.status != Running {
        break;
      }
      var more := um.mem.InstructionsComplete();
      if !more {
        break;
      }
      ghost var before := um.Snapshot();
      var word := um.mem.Instruction();
      Dispatch(um, Decode(word));
      var rest := left - 1;
      RunContinues(start, fuel, before, left, rest);
      left := rest;
    }
  }

  // ---------------------------------------------------------------------------
  // Loading the program binary

  /** One big-endian group of four bytes as a word. */
  function Pack(b0: Byte, b1: Byte, b2: Byte, b3: Byte): (w: Word)
    ensures w / 0x100_0000 == b0 && w % 0x100 == b3
  {
    b0 * 0x100_0000 + b1 * 0x1_0000 + b2 * 0x100 + b3
  }

  /** The words read_instructions appends: each complete group of four
      bytes in order, a trailing partial group dropped. */
  function Assembled(bytes: seq<Byte>): (ws: seq<Word>)
    ensures |ws| == |bytes| / 4
    ensures forall i :: 0 <= i < |ws| ==>
      ws[i] == Pack(bytes[4 * i], bytes[4 * i + 1], bytes[4 * i + 2], bytes[4 * i + 3])
    decreases |bytes|
  {
    if |bytes| < 4 then []
    else [Pack(bytes[0], bytes[1], bytes[2], bytes[3])] + Assembled(bytes[4..])
  }

  /** Assembly of a byte stream cut at a word boundary. */
  lemma {:induction false} AssembledConcat(front: seq<Byte>, back: seq<Byte>)
    requires |front| % 4 == 0
    ensures Assembled(front + back) == Assembled(front) + Assembled(back)
    decreases |front|
  {
    if |front| != 0 {
      var whole := front + back;
      assert whole[4..] == front[4..] + back;
      assert whole[0] == front[0] && whole[1] == front[1] && whole[2] == front[2] && whole[3] == front[3];
      var w := Pack(front[0], front[1], front[2], front[3]);
      assert Assembled(whole) == [w] + Assembled(whole[4..]);
      assert Assembled(front) == [w] + Assembled(front[4..]);
      AssembledConcat(front[4..], back);
    }
  }

  /** read_instructions: reads the bytes four at a time, stopping at the first
      incomplete group, and appends each word to segment 0. */
  method ReadInstructions(bytes: seq<Byte>, mem: Memory)
    requires mem.Valid()
    modifies mem
    ensures mem.Valid()
    ensures Program(mem.State()) == old(Program(mem.State())) + Assembled(bytes)
    ensures |mem.State().segments| == old(|mem.State().segments|)
    ensures forall id :: 0 < id < |mem.segments| ==> mem.segments[id] == old(mem.segments[id])
    ensures mem.free == old(mem.free) && mem.pc == old(mem.pc)
  {
    ghost var m0 := mem.State();
    var pos := 0;
    assert Program(m0) + Assembled(bytes[..0]) == Program(m0);
    assert m0.segments[0 := Some(Program(m0))] == m0.segments;
    while pos + 4 <= |bytes|
      invariant mem.Valid() && pos <= |bytes| && pos % 4 == 0
      invariant mem.State() == m0.(segments := m0.segments[0 := Some(Program(m0) + Assembled(bytes[..pos]))])
    {
      var word := Pack(bytes[pos], bytes[pos + 1], bytes[pos + 2], bytes[pos + 3]);
      mem.AppendSegment0(word);
      AssembledConcat(bytes[..pos], bytes[pos..pos + 4]);
      assert bytes[..pos + 4] == bytes[..pos] + bytes[pos..pos + 4];
      assert Program(m0) + Assembled(bytes[..pos + 4]) == Program(m0) + Assembled(bytes[..pos]) + [word];
      pos := pos + 4;
    }
    AssembledConcat(bytes[..pos], bytes[pos..]);
    assert bytes == bytes[..pos] + bytes[pos..];
  }

  /** The state `execute` starts from: zeroed registers and segment 0 holding
      the program assembled from the binary. */
  function Boot(binary: seq<Byte>, stdin: seq<Byte>): (s: State)
    ensures WellFormed(s) && s.status == Running && s.mem.pc == 0
    ensures Program(s.mem) == Assembled(binary)
    ensures |s.mem.segments| == 1 && s.mem.free == []
    ensures s.regs == ZeroRegisters() && s.input == stdin && s.output == []
  {
    var m := Initial();
    State(ZeroRegisters(), m.(segments := [Some(Assembled(binary))]), stdin, [], Running)
  }

  /** The set-up of `main`: a fresh memory, the binary read into segment 0,
      and a machine with zeroed registers over that memory. */
  method Load(binary: seq<Byte>, stdin: seq<Byte>) returns (um: Machine)
    ensures um.Valid() && fresh(um) && fresh(um.regs) && fresh(um.mem)
    ensures um.Snapshot() == Boot(binary, stdin)
  {
    var mem := new Memory();
    ReadInstructions(binary, mem);
    assert [] + Assembled(binary) == Assembled(binary);
    assert |mem.segments| == 1 && mem.segments[0] == Some(Assembled(binary));
    assert mem.segments == [Some(Assembled(binary))];
    um := new Machine(mem, stdin);
  }
}
