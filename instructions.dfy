/** The register file and the fourteen instruction handlers (instructions.c).
    Each handler updates the eight registers in place and, for the memory
    instructions, the segmented memory through its helpers. */
module Instructions {
  import opened Words
  import opened SegmentedMemory

  // ---------------------------------------------------------------------------
  // Word arithmetic, as `uint32_t` performs it

  /** addition: the sum modulo 2^32. */
  function Add(b: Word, c: Word): (r: Word)
    ensures b + c < WordModulus ==> r == b + c
    ensures b + c >= WordModulus ==> r == b + c - WordModulus
  {
    (b + c) % WordModulus
  }

  /** multiplication: the product modulo 2^32. */
  function Mul(b: Word, c: Word): (r: Word)
    ensures b * c < WordModulus ==> r == b * c
    ensures (b * c - r) % WordModulus == 0
  {
    (b * c) % WordModulus
  }

  /** division: unsigned, rounding down. */
  function Div(b: Word, c: Word): (r: Word)
    requires c != 0
    ensures r * c <= b < r * c + c
  {
    b / c
  }

  /** nand: the bitwise complement of the bitwise and. */
  function Nand(b: Word, c: Word): (r: Word)
    ensures r as bv32 == !((b as bv32) & (c as bv32))
  {
    (!((b as bv32) & (c as bv32))) as int
  }

  /** The order of the operands does not matter. */
  lemma NandCommutes(b: Word, c: Word)
    ensures Nand(b, c) == Nand(c, b)
  {
    assert (b as bv32) & (c as bv32) == (c as bv32) & (b as bv32);
  }

  /** Nand with zero sets every bit: machine programs load all ones this way. */
  lemma NandZeroIsAllOnes(x: Word)
    ensures Nand(x, 0) == WordModulus - 1
  {
    assert (x as bv32) & 0 == 0;
  }

  // ---------------------------------------------------------------------------
  // The machine

  /** Why a run stopped abnormally. Only output checks its condition itself,
      with an `assert` in its handler; the others go unchecked in C and end
      in an abort inside the sequence library or in undefined behaviour. */
  datatype Fault =
    | UnmappedSegment   // a segment id that is out of range or unmapped
    | OffsetOutOfRange  // an offset beyond the end of a segment
    | UnmapOfSegmentZero
    | DivisionByZero
    | OutputTooLarge    // output of a value above 255

  datatype Status = Running | Halted | Faulted(fault: Fault)

  /** The whole machine as a value: registers, memory, the input still to be
      read, the output written so far, and whether it is still running. */
  datatype State = State(regs: seq<Word>, mem: MemState, input: seq<Byte>, output: seq<Byte>, status: Status)

  ghost predicate WellFormed(s: State) {
    |s.regs| == 8 && Invariant(s.mem)
  }

  /** A register file of eight registers, all zero, at program start. */
  function ZeroRegisters(): (r: seq<Word>)
    ensures |r| == 8 && forall i :: 0 <= i < 8 ==> r[i] == 0
  {
    seq(8, _ => 0)
  }

  /** The machine of instructions.c: the global `registers[8]` together
      with the memory every handler is given and the console streams. */
  class Machine {
    const regs: array<Word>
    const mem: Memory
    var input: seq<Byte>
    var output: seq<Byte>
    var status: Status

    ghost predicate Valid()
      reads this, regs, mem
    {
      regs.Length == 8 && mem.Valid()
    }

    function Snapshot(): State
      reads this, regs, mem
    {
      State(regs[..], mem.State(), input, output, status)
    }

    /** A running machine with zeroed registers over the given memory. */
    constructor (m: Memory, stdin: seq<Byte>)
      requires m.Valid()
      ensures Valid() && mem == m && fresh(regs)
      ensures Snapshot() == State(ZeroRegisters(), m.State(), stdin, [], Running)
    {
      regs := new Word[8](_ => 0);
      mem := m;
      input := stdin;
      output := [];
      status := Running;
    }

    /** conditional_move */
    method ConditionalMove(a: nat, b: nat, c: nat)
      requires Valid() && a < 8 && b < 8 && c < 8
      modifies regs
      ensures regs[..] == if old(regs[c]) != 0 then old(regs[..])[a := old(regs[b])] else old(regs[..])
    {
      if regs[c] != 0 {
        regs[a] := regs[b];
      }
    }

    /** segmented_load */
    method SegmentedLoad(a: nat, b: nat, c: nat)
      requires Valid() && a < 8 && b < 8 && c < 8
      requires InBounds(mem.State(), regs[b], regs[c])
      modifies regs
      ensures regs[..] == old(regs[..])[a := ValueAt(mem.State(), old(regs[b]), old(regs[c]))]
    {
      var v := mem.ValueInSegment(regs[b], regs[c]);
      regs[a] := v;
    }

    /** segmented_store */
    method SegmentedStore(a: nat, b: nat, c: nat)
      requires Valid() && a < 8 && b < 8 && c < 8
      requires InBounds(mem.State(), regs[a], regs[b])
      modifies mem
      ensures Valid()
      ensures mem.State() == Stored(old(mem.State()), regs[c], regs[a], regs[b])
    {
      mem.StoreInSegment(regs[c], regs[a], regs[b]);
    }

    /** addition */
    method Addition(a: nat, b: nat, c: nat)
      requires Valid() && a < 8 && b < 8 && c < 8
      modifies regs
      ensures regs[..] == old(regs[..])[a := Add(old(regs[b]), old(regs[c]))]
    {
      regs[a] := Add(regs[b], regs[c]);
    }

    /** multiplication */
    method Multiplication(a: nat, b: nat, c: nat)
      requires Valid() && a < 8 && b < 8 && c < 8
      modifies regs
      ensures regs[..] == old(regs[..])[a := Mul(old(regs[b]), old(regs[c]))]
    {
      regs[a] := Mul(regs[b], regs[c]);
    }

    /** division */
    method Division(a: nat, b: nat, c: nat)
      requires Valid() && a < 8 && b < 8 && c < 8 && regs[c] != 0
      modifies regs
      ensures regs[..] == old(regs[..])[a := Div(old(regs[b]), old(regs[c]))]
    {
      regs[a] := Div(regs[b], regs[c]);
    }

    /** nand */
    method BitwiseNand(a: nat, b: nat, c: nat)
      requires Valid() && a < 8 && b < 8 && c < 8
      modifies regs
      ensures regs[..] == old(regs[..])[a := Nand(old(regs[b]), old(regs[c]))]
    {
      regs[a] := Nand(regs[b], regs[c]);
    }

    /** halt: the run ends for good. */
    method Halt()
      modifies this
      ensures status == Halted
      ensures input == old(input) && output == old(output)
    {
      status := Halted;
    }

    /** map_segment: the new segment's id goes to register B. */
    method MapSegment(b: nat, c: nat)
      requires Valid() && b < 8 && c < 8
      modifies regs, mem
      ensures Valid()
      ensures mem.State() == Mapped(old(mem.State()), old(regs[c])).0
      ensures regs[..] == old(regs[..])[b := ToWord(Mapped(old(mem.State()), old(regs[c])).1)]
    {
      var id := mem.MapSegmentHelper(regs[c]);
      regs[b] := ToWord(id);
    }

    /** unmap_segment: frees the segment whose id is in register C. */
    method UnmapSegment(c: nat)
      requires Valid() && c < 8
      requires regs[c] != 0 && IsMapped(mem.State(), regs[c])
      modifies mem
      ensures Valid()
      ensures mem.State() == Unmapped(old(mem.State()), regs[c])
    {
      mem.UnmapSegmentHelper(regs[c]);
    }

    /** output: register C, which must hold a byte, goes to the console. */
    method Output(c: nat)
      requires Valid() && c < 8 && regs[c] <= 255
      modifies this
      ensures output == old(output) + [regs[c]]
      ensures input == old(input) && status == old(status)
    {
      output := output + [regs[c]];
    }

    /** input: the next console byte, or all 32 bits set at end of input. */
    method Input(c: nat)
      requires Valid() && c < 8
      modifies this, regs
      ensures old(input) == [] ==> input == [] && regs[..] == old(regs[..])[c := EndOfInput]
      ensures old(input) != [] ==> input == old(input)[1..] && regs[..] == old(regs[..])[c := old(input)[0]]
      ensures output == old(output) && status == old(status)
    {
      if input == [] {
        regs[c] := EndOfInput;
      } else {
        regs[c] := input[0];
        input := input[1..];
      }
    }

    /** load_program: called with the contents of registers B and C, not with
        their indices. */
    method LoadProgram(b: nat, c: nat)
      requires Valid() && b < 8 && c < 8
      requires IsMapped(mem.State(), regs[b])
      modifies mem
      ensures Valid()
      ensures mem.State() == ProgramLoaded(old(mem.State()), regs[b], regs[c])
    {
      mem.LoadProgramHelper(regs[b], regs[c]);
    }

    /** load_value */
    method LoadValue(a: nat, value: Word)
      requires Valid() && a < 8
      modifies regs
      ensures regs[..] == old(regs[..])[a := value]
    {
      regs[a] := value;
    }
  }
}
