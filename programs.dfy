/** Whole programs: a unit test produced by the test writer, read back by
    the loader and run by the execution engine. */
module Programs {
  import opened Words
  import opened SegmentedMemory
  import opened Instructions
  import opened Lilum
  import Umlab

  /** build_add_test: r2 := 10, r3 := 38, r1 := r2 + r3, output r1, halt. */
  function AddTest(): (ws: seq<Word>)
    ensures |ws| == 5
  {
    [Umlab.LoadVal(2, 10), Umlab.LoadVal(3, 38), Umlab.Addition(1, 2, 3), Umlab.Output(1), Umlab.HaltInstruction()]
  }

  /** What the five words of the add test decode to. */
  predicate DecodesAsAddTest(ws: seq<Word>) {
    && |ws| == 5
    && Decode(ws[0]) == LoadImmediate(2, 10)
    && Decode(ws[1]) == LoadImmediate(3, 38)
    && Decode(ws[2]) == ThreeRegister(3, 1, 2, 3)
    && Decode(ws[3]) == ThreeRegister(10, 0, 0, 1)
    && Decode(ws[4]) == ThreeRegister(7, 0, 0, 0)
  }

  lemma AddTestDecodes()
    ensures DecodesAsAddTest(AddTest())
  {
    var ws := AddTest();
    assert ws[0] == Umlab.LoadVal(2, 10);
    assert ws[1] == Umlab.LoadVal(3, 38);
    assert ws[2] == Umlab.Addition(1, 2, 3);
    assert ws[3] == Umlab.Output(1);
    assert ws[4] == Umlab.HaltInstruction();
  }

  /** From the start of any program that decodes like the add test, five
      trips round the loop print the character '0' (10 + 38 = 48) and halt;
      more fuel changes nothing. */
  lemma AddTestRuns(s0: State, fuel: nat)
    requires WellFormed(s0) && s0.status == Running && s0.mem.pc == 0
    requires DecodesAsAddTest(Program(s0.mem)) && fuel >= 5
    ensures Run(s0, fuel).output == s0.output + [48]
    ensures Run(s0, fuel).status == Halted
  {
    var s1 := Step(s0);
    StepLoadsValue(s0, 2, 10);
    var s2 := Step(s1);
    StepLoadsValue(s1, 3, 38);
    var s3 := Step(s2);
    StepAdds(s2, 1, 2, 3);
    assert s3.regs[1] == 48;
    var s4 := Step(s3);
    StepOutputs(s3, 0, 0, 1);
    var s5 := Step(s4);
    StepHalts(s4);
    var f1 := fuel - 1;
    var f2 := f1 - 1;
    var f3 := f2 - 1;
    var f4 := f3 - 1;
    var f5 := f4 - 1;
    StoppedStaysStopped(s5, f5);
    RunFrom(s4, f4, f5, s5);
    RunFrom(s3, f3, f4, s5);
    RunFrom(s2, f2, f3, s5);
    RunFrom(s1, f1, f2, s5);
    RunFrom(s0, fuel, f1, s5);
  }

  /** Written out by the test writer, loaded and run on any input, the add
      test prints '0' and halts. */
  lemma AddTestPrintsSum(stdin: seq<Byte>, fuel: nat)
    requires fuel >= 5
    ensures var r := Run(Boot(Umlab.Serialised(AddTest()), stdin), fuel);
      r.output == [48] && r.status == Halted
  {
    Umlab.AssembledSerialised(AddTest());
    AddTestDecodes();
    AddTestRuns(Boot(Umlab.Serialised(AddTest()), stdin), fuel);
  }
}
