/** The unit-test writer (umlab.c): encoders for the two instruction
    formats, one wrapper per instruction, and the stream of instructions
    that is written out as a big-endian byte sequence. */
module Umlab {
  import opened Words
  import Lilum

  /** The opcodes of the instruction set, in numbering order. */
  datatype Opcode =
    | Cmov | Sload | Sstore | Add | Mul | Div | Nand
    | Halt | Activate | Inactivate | Out | In | Loadp | Lv

  /** The number an opcode occupies in bits 31-28. */
  function Number(op: Opcode): (n: nat)
    ensures n < 14
    ensures op == Lv <==> n == Lilum.OpLoadValue
  {
    match op
    case Cmov => 0
    case Sload => 1
    case Sstore => 2
    case Add => 3
    case Mul => 4
    case Div => 5
    case Nand => 6
    case Halt => 7
    case Activate => 8
    case Inactivate => 9
    case Out => 10
    case In => 11
    case Loadp => 12
    case Lv => 13
  }

  lemma NumberIsInjective(x: Opcode, y: Opcode)
    ensures Number(x) == Number(y) ==> x == y
  {
  }

  // ---------------------------------------------------------------------------
  // The two instruction formats

  /** three_register: the opcode in bits 31-28 and registers A, B and C in
      bits 8-6, 5-3 and 2-0; every other bit is zero. A register index that
      does not fit in three bits makes the bit-packing library raise an
      exception. */
  function ThreeRegisterWord(op: Opcode, ra: nat, rb: nat, rc: nat): (w: Word)
    requires ra < 8 && rb < 8 && rc < 8
    ensures Lilum.OpcodeOf(w) == Number(op)
    ensures (w / 64) % 8 == ra && (w / 8) % 8 == rb && w % 8 == rc
    ensures (w / 512) % 0x8_0000 == 0
    ensures op != Lv ==> Lilum.Decode(w) == Lilum.ThreeRegister(Number(op), ra, rb, rc)
    ensures op == Lv ==> Lilum.Decode(w) == Lilum.LoadImmediate(0, ra * 64 + rb * 8 + rc)
  {
    var low := ra * 64 + rb * 8 + rc;
    assert low < 512;
    var w := Number(op) * 0x1000_0000 + low;
    assert w / 0x1000_0000 == Number(op);
    assert w / 512 == Number(op) * 0x8_0000;
    assert w == 64 * (Number(op) * 0x40_0000 + ra) + (rb * 8 + rc);
    assert w / 64 == Number(op) * 0x40_0000 + ra;
    assert w == 8 * (Number(op) * 0x200_0000 + ra * 8 + rb) + rc;
    assert w / 8 == Number(op) * 0x200_0000 + ra * 8 + rb;
    assert w / 0x200_0000 == Number(op) * 8;
    assert w % 0x200_0000 == low;
    w
  }

  /** loadval: opcode 13, register A in bits 27-25 and the value in bits
      24-0. A register or value too wide for its field makes the bit-packing
      library raise an exception. */
  function LoadVal(ra: nat, val: nat): (w: Word)
    requires ra < 8 && val < 0x200_0000
    ensures Lilum.OpcodeOf(w) == 13 && (w / 0x200_0000) % 8 == ra && w % 0x200_0000 == val
    ensures Lilum.Decode(w) == Lilum.LoadImmediate(ra, val)
  {
    var w := 13 * 0x1000_0000 + ra * 0x200_0000 + val;
    assert w / 0x1000_0000 == 13;
    assert w / 0x200_0000 == 13 * 8 + ra;
    assert w % 0x200_0000 == val;
    w
  }

  /** A three-register word is determined by what it decodes to: the
      encoder is a left inverse of the decoder on words whose unused bits
      are clear. */
  lemma ThreeRegisterWordOfDecode(w: Word)
    requires Lilum.OpcodeOf(w) != Lilum.OpLoadValue && Lilum.OpcodeOf(w) < 14
    requires (w / 512) % 0x8_0000 == 0
    ensures exists op :: (Number(op) == Lilum.OpcodeOf(w) &&
      ThreeRegisterWord(op, (w / 64) % 8, (w / 8) % 8, w % 8) == w)
  {
    var n := Lilum.OpcodeOf(w);
    var op := OpcodeNumbered(n);
    var c, t1 := w % 8, w / 8;
    var b, t2 := t1 % 8, t1 / 8;
    var a, t3 := t2 % 8, t2 / 8;
    var low := a * 64 + b * 8 + c;
    DivisionUnique(w, 64, t2, b * 8 + c);
    DivisionUnique(w, 512, t3, low);
    var m := t3 / 0x8_0000;
    assert t3 == m * 0x8_0000;
    DivisionUnique(w, 0x1000_0000, m, low);
    assert w == n * 0x1000_0000 + low;
  }

  /** The opcode with a given number. */
  function OpcodeNumbered(n: nat): (op: Opcode)
    requires n < 14
    ensures Number(op) == n
  {
    if n == 0 then Cmov else if n == 1 then Sload else if n == 2 then Sstore
    else if n == 3 then Add else if n == 4 then Mul else if n == 5 then Div
    else if n == 6 then Nand else if n == 7 then Halt else if n == 8 then Activate
    else if n == 9 then Inactivate else if n == 10 then Out else if n == 11 then In
    else if n == 12 then Loadp else Lv
  }

  // ---------------------------------------------------------------------------
  // One wrapper per instruction; operands a wrapper does not take are zero

  function HaltInstruction(): (w: Word)
    ensures Lilum.Decode(w) == Lilum.ThreeRegister(7, 0, 0, 0)
  {
    ThreeRegisterWord(Halt, 0, 0, 0)
  }

  function ConditionalMove(a: nat, b: nat, c: nat): (w: Word)
    requires a < 8 && b < 8 && c < 8
    ensures Lilum.Decode(w) == Lilum.ThreeRegister(0, a, b, c)
  {
    ThreeRegisterWord(Cmov, a, b, c)
  }

  function SegmentedLoad(a: nat, b: nat, c: nat): (w: Word)
    requires a < 8 && b < 8 && c < 8
    ensures Lilum.Decode(w) == Lilum.ThreeRegister(1, a, b, c)
  {
    ThreeRegisterWord(Sload, a, b, c)
  }

  function SegmentedStore(a: nat, b: nat, c: nat): (w: Word)
    requires a < 8 && b < 8 && c < 8
    ensures Lilum.Decode(w) == Lilum.ThreeRegister(2, a, b, c)
  {
    ThreeRegisterWord(Sstore, a, b, c)
  }

  function Addition(a: nat, b: nat, c: nat): (w: Word)
    requires a < 8 && b < 8 && c < 8
    ensures Lilum.Decode(w) == Lilum.ThreeRegister(3, a, b, c)
  {
    ThreeRegisterWord(Add, a, b, c)
  }

  function Multiplication(a: nat, b: nat, c: nat): (w: Word)
    requires a < 8 && b < 8 && c < 8
    ensures Lilum.Decode(w) == Lilum.ThreeRegister(4, a, b, c)
  {
    ThreeRegisterWord(Mul, a, b, c)
  }

  function Division(a: nat, b: nat, c: nat): (w: Word)
    requires a < 8 && b < 8 && c < 8
    ensures Lilum.Decode(w) == Lilum.ThreeRegister(5, a, b, c)
  {
    ThreeRegisterWord(Div, a, b, c)
  }

  function BitwiseNand(a: nat, b: nat, c: nat): (w: Word)
    requires a < 8 && b < 8 && c < 8
    ensures Lilum.Decode(w) == Lilum.ThreeRegister(6, a, b, c)
  {
    ThreeRegisterWord(Nand, a, b, c)
  }

  function MapSegment(b: nat, c: nat): (w: Word)
    requires b < 8 && c < 8
    ensures Lilum.Decode(w) == Lilum.ThreeRegister(8, 0, b, c)
  {
    ThreeRegisterWord(Activate, 0, b, c)
  }

  function UnmapSegment(c: nat): (w: Word)
    requires c < 8
    ensures Lilum.Decode(w) == Lilum.ThreeRegister(9, 0, 0, c)
  {
    ThreeRegisterWord(Inactivate, 0, 0, c)
  }

  function Output(c: nat): (w: Word)
    requires c < 8
    ensures Lilum.Decode(w) == Lilum.ThreeRegister(10, 0, 0, c)
  {
    ThreeRegisterWord(Out, 0, 0, c)
  }

  function Input(c: nat): (w: Word)
    requires c < 8
    ensures Lilum.Decode(w) == Lilum.ThreeRegister(11, 0, 0, c)
  {
    ThreeRegisterWord(In, 0, 0, c)
  }

  function LoadProgram(b: nat, c: nat): (w: Word)
    requires b < 8 && c < 8
    ensures Lilum.Decode(w) == Lilum.ThreeRegister(12, 0, b, c)
  {
    ThreeRegisterWord(Loadp, 0, b, c)
  }

  // ---------------------------------------------------------------------------
  // Writing a stream of instructions

  /** The divisor that brings the byte whose lowest bit is `lsb` down to
      bits 7-0. */
  function Shift(lsb: nat): (p: nat)
    requires lsb == 0 || lsb == 8 || lsb == 16 || lsb == 24
    ensures p > 0
  {
    if lsb == 24 then 0x100_0000 else if lsb == 16 then 0x1_0000 else if lsb == 8 then 0x100 else 1
  }

  /** The eight bits of `w` starting at bit `lsb`. */
  function ByteAt(w: Word, lsb: nat): (b: Byte)
    requires lsb == 0 || lsb == 8 || lsb == 16 || lsb == 24
  {
    (w / Shift(lsb)) % 256
  }

  /** The four bytes of a word, most significant first. */
  function WordBytes(w: Word): (bs: seq<Byte>)
    ensures |bs| == 4
  {
    [ByteAt(w, 24), ByteAt(w, 16), ByteAt(w, 8), ByteAt(w, 0)]
  }

  /** The bytes Um_write_sequence emits for a stream, word by word from the
      front. */
  function Serialised(ws: seq<Word>): (bytes: seq<Byte>)
    ensures |bytes| == 4 * |ws|
  {
    if ws == [] then [] else WordBytes(ws[0]) + Serialised(ws[1..])
  }

  /** Byte-wise reassembly undoes the split into bytes. */
  lemma PackOfWordBytes(w: Word)
    ensures Lilum.Pack(ByteAt(w, 24), ByteAt(w, 16), ByteAt(w, 8), ByteAt(w, 0)) == w
  {
    var q1 := w / 0x100;
    var q2 := q1 / 0x100;
    var q3 := q2 / 0x100;
    var r1, r2, r3 := w % 0x100, q1 % 0x100, q2 % 0x100;
    DivisionUnique(w, 0x1_0000, q2, r2 * 0x100 + r1);
    DivisionUnique(w, 0x100_0000, q3, r3 * 0x1_0000 + r2 * 0x100 + r1);
    DivisionUnique(q3, 0x100, 0, q3);
  }

  /** Splitting into bytes undoes the reassembly. */
  lemma WordBytesOfPack(b0: Byte, b1: Byte, b2: Byte, b3: Byte)
    ensures WordBytes(Lilum.Pack(b0, b1, b2, b3)) == [b0, b1, b2, b3]
  {
    var w := Lilum.Pack(b0, b1, b2, b3);
    var hi3, hi2 := b0 * 0x1_0000 + b1 * 0x100 + b2, b0 * 0x100 + b1;
    DivisionUnique(w, 0x100, hi3, b3);
    DivisionUnique(hi3, 0x100, hi2, b2);
    DivisionUnique(w, 0x1_0000, hi2, b2 * 0x100 + b3);
    DivisionUnique(hi2, 0x100, b0, b1);
    DivisionUnique(w, 0x100_0000, b0, b1 * 0x1_0000 + b2 * 0x100 + b3);
    DivisionUnique(b0, 0x100, 0, b0);
  }

  /** The loader reads back exactly the words the writer wrote. */
  lemma {:induction false} AssembledSerialised(ws: seq<Word>)
    ensures Lilum.Assembled(Serialised(ws)) == ws
  {
    if ws != [] {
      var bytes := Serialised(ws);
      assert bytes == WordBytes(ws[0]) + Serialised(ws[1..]);
      assert bytes[4..] == Serialised(ws[1..]);
      PackOfWordBytes(ws[0]);
      AssembledSerialised(ws[1..]);
    }
  }

  /** Writing out what the loader assembled gives back the binary, less a
      trailing partial group of fewer than four bytes. */
  lemma {:induction false} SerialisedAssembled(bytes: seq<Byte>)
    ensures Serialised(Lilum.Assembled(bytes)) == bytes[..|bytes| / 4 * 4]
    decreases |bytes|
  {
    if |bytes| >= 4 {
      var ws := Lilum.Assembled(bytes);
      assert ws[1..] == Lilum.Assembled(bytes[4..]);
      WordBytesOfPack(bytes[0], bytes[1], bytes[2], bytes[3]);
      SerialisedAssembled(bytes[4..]);
      assert bytes[..|bytes| / 4 * 4] == bytes[..4] + bytes[4..][..|bytes[4..]| / 4 * 4];
    }
  }

  /** The inner loop of Um_write_sequence: the bytes of one instruction,
      from the byte at bit 24 down to the byte at bit 0. */
  method EmitWord(inst: Word) returns (chunk: seq<Byte>)
    ensures chunk == WordBytes(inst)
  {
    chunk := [];
    var lsb: int := 24;
    while lsb >= 0
      invariant -8 <= lsb <= 24 && lsb % 8 == 0
      invariant chunk == WordBytes(inst)[..(24 - lsb) / 8]
    {
      chunk := chunk + [ByteAt(inst, lsb)];
      lsb := lsb - 8;
    }
  }

  /** A unit test under construction: the sequence of instructions that
      `append` extends and Um_write_sequence drains. */
  class InstructionStream {
    var words: seq<Word>

    constructor ()
      ensures words == []
    {
      words := [];
    }

    /** append: the instruction goes on the high end. */
    method Append(inst: Word)
      modifies this
      ensures words == old(words) + [inst]
    {
      words := words + [inst];
    }

    /** Um_write_sequence: removes the instructions from the low end one at a
        time and emits each as four bytes, bits 31-24 first. */
    method WriteSequence() returns (bytes: seq<Byte>)
      modifies this
      ensures bytes == Serialised(old(words))
      ensures words == []
    {
      bytes := [];
      var count := |words|;
      for i := 0 to count
        invariant |words| == count - i
        invariant bytes + Serialised(words) == Serialised(old(words))
      {
        var inst := words[0];
        words := words[1..];
        var chunk := EmitWord(inst);
        bytes := bytes + chunk;
      }
    }
  }
}
