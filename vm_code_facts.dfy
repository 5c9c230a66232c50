/**
 * What the line sequences of the code writer mean: how they move the stack
 * pointer, where their numeric jumps land once the assembler has given the
 * instructions ROM addresses, and how `writeCall` and `writeReturn` agree on
 * the layout of a saved frame.
 */
module VmCodeFacts {
  import opened Results
  import opened PyStrings
  import opened VmCodeWriter

  // ---------------------------------------------------------------------------
  // Stack-pointer movement
  // ---------------------------------------------------------------------------

  const Inc := "M=M+1"
  const Dec := "M=M-1"

  /**
   * How often the lines perform `SP := SP + 1` (op `Inc`) or `SP := SP - 1`
   * (op `Dec`): an `@SP` line directly followed by `op`.
   */
  function Bumps(lines: seq<string>, op: string): (r: nat)
    ensures r <= |lines|
  {
    if |lines| < 2 then 0
    else (if lines[0] == "@SP" && lines[1] == op then 1 else 0) + Bumps(lines[1..], op)
  }

  predicate EndsOffSP(lines: seq<string>) {
    lines == [] || lines[|lines| - 1] != "@SP"
  }

  lemma {:induction false} BumpsAppend(a: seq<string>, b: seq<string>, op: string)
    requires EndsOffSP(a)
    ensures Bumps(a + b, op) == Bumps(a, op) + Bumps(b, op)
  {
    if a == [] {
      assert a + b == b;
    } else if |a| == 1 {
      if b != [] {
        assert (a + b)[1..] == b;
      } else {
        assert a + b == a;
      }
    } else {
      assert (a + b)[1..] == a[1..] + b;
      BumpsAppend(a[1..], b, op);
    }
  }

  /** Lines in which `@SP` is never followed by `op`. */
  lemma {:induction false} NoBumps(lines: seq<string>, op: string)
    requires forall k :: 0 <= k < |lines| - 1 ==> lines[k] != "@SP" || lines[k + 1] != op
    ensures Bumps(lines, op) == 0
  {
    if |lines| >= 2 {
      NoBumps(lines[1..], op);
    }
  }

  lemma {:induction false} BlockBumps()
    ensures Bumps(IncrementSPLines(), Inc) == 1 && Bumps(IncrementSPLines(), Dec) == 0
    ensures Bumps(DecreaseSPLines(), Inc) == 0 && Bumps(DecreaseSPLines(), Dec) == 1
    ensures Bumps(TopOfStackLines(), Inc) == 0 && Bumps(TopOfStackLines(), Dec) == 0
    ensures Bumps(PushDLines(), Inc) == 1 && Bumps(PushDLines(), Dec) == 0
    ensures Bumps(PopToDLines(), Inc) == 0 && Bumps(PopToDLines(), Dec) == 1
  {
    assert Bumps(IncrementSPLines()[1..], Inc) == 0;
    assert Bumps(DecreaseSPLines()[1..], Dec) == 0;
    NoBumps(["@SP", "A=M", "M=D"], Inc);
    NoBumps(["@SP", "A=M", "M=D"], Dec);
    BumpsAppend(["@SP", "A=M", "M=D"], IncrementSPLines(), Inc);
    BumpsAppend(["@SP", "A=M", "M=D"], IncrementSPLines(), Dec);
    NoBumps(["@SP", "A=M", "D=M"], Inc);
    NoBumps(["@SP", "A=M", "D=M"], Dec);
    BumpsAppend(DecreaseSPLines(), ["@SP", "A=M", "D=M"], Inc);
    BumpsAppend(DecreaseSPLines(), ["@SP", "A=M", "D=M"], Dec);
  }

  /** A block in which no line addresses SP moves it in neither direction. */
  lemma {:induction false} Quiet(lines: seq<string>)
    requires "@SP" !in lines
    ensures Bumps(lines, Inc) == 0 && Bumps(lines, Dec) == 0 && EndsOffSP(lines)
  {
    NoBumps(lines, Inc);
    NoBumps(lines, Dec);
  }

  lemma {:induction false} AtNotSP(n: int)
    ensures At(n) != "@SP"
  {
    assert At(n)[1] == IntToString(n)[0];
  }

  lemma {:induction false} AppendSlices<T>(a: seq<T>, b: seq<T>)
    ensures (a + b)[..|a|] == a && (a + b)[|a|..] == b
  {
  }

  lemma {:induction false} Regroup<T>(h: seq<T>, x: seq<T>, y: seq<T>, p: seq<T>, q: seq<T>)
    ensures (h + x) + ((y + p) + q) == ((h + (x + y)) + p) + q
  {
  }

  lemma {:induction false} Regroup4<T>(a: seq<T>, b: seq<T>, c: seq<T>, d: seq<T>)
    ensures ((a + b) + c) + d == a + ((b + c) + d)
  {
  }

  /** The lines every binary and comparison command emits before its computing line. */
  function TwoOperandLines(): (r: seq<string>)
    ensures |r| == 9
  {
    PopToDLines() + DecreaseSPLines() + TopOfStackLines()
  }

  lemma {:induction false} TwoOperandBumps()
    ensures Bumps(TwoOperandLines(), Inc) == 0 && Bumps(TwoOperandLines(), Dec) == 2
    ensures EndsOffSP(TwoOperandLines())
  {
    BlockBumps();
    BumpsAppend(PopToDLines(), DecreaseSPLines(), Inc);
    BumpsAppend(PopToDLines(), DecreaseSPLines(), Dec);
    BumpsAppend(PopToDLines() + DecreaseSPLines(), TopOfStackLines(), Inc);
    BumpsAppend(PopToDLines() + DecreaseSPLines(), TopOfStackLines(), Dec);
  }

  /** The last two lines pushed after a single computing line `op`. */
  lemma {:induction false} ComputeThenPushBumps(pre: seq<string>, op: string)
    requires EndsOffSP(pre) && op != "@SP"
    ensures Bumps(pre + [op] + IncrementSPLines(), Inc) == Bumps(pre, Inc) + 1
    ensures Bumps(pre + [op] + IncrementSPLines(), Dec) == Bumps(pre, Dec)
  {
    BlockBumps();
    BumpsAppend(pre, [op], Inc);
    BumpsAppend(pre, [op], Dec);
    BumpsAppend(pre + [op], IncrementSPLines(), Inc);
    BumpsAppend(pre + [op], IncrementSPLines(), Dec);
  }

  lemma {:induction false} BinaryBumps(op: string)
    requires IsBinaryOp(op)
    ensures Bumps(BinaryLines(op), Dec) == 2 && Bumps(BinaryLines(op), Inc) == 1
  {
    TwoOperandBumps();
    ComputeThenPushBumps(TwoOperandLines(), op);
  }

  lemma {:induction false} UnaryBumps(op: string)
    requires op in {"M=-M", "M=!M"}
    ensures Bumps(UnaryLines(op), Dec) == 1 && Bumps(UnaryLines(op), Inc) == 1
  {
    BlockBumps();
    BumpsAppend(DecreaseSPLines(), TopOfStackLines(), Inc);
    BumpsAppend(DecreaseSPLines(), TopOfStackLines(), Dec);
    ComputeThenPushBumps(DecreaseSPLines() + TopOfStackLines(), op);
  }

  /** The subtraction and the conditional jump of a comparison entered with counter `c`. */
  function CompareTestLines(c: int, jumpType: string): seq<string> {
    ["D=M-D", At(c + 20), "D;" + jumpType]
  }

  /** A comparison: pop both operands and test, the false block, the true block. */
  lemma {:induction false} CompareParts(c: int, jumpType: string)
    ensures var r := CompareLines(c, jumpType);
            r[..12] == TwoOperandLines() + CompareTestLines(c, jumpType)
            && r[12..19] == PushFalseLines(c + 12) && r[19..] == PushTrueLines()
  {
    var h := TwoOperandLines();
    var jump := [At(c + 20), "D;" + jumpType];
    var pf := PushFalseLines(c + 12);
    var pt := PushTrueLines();
    assert CompareLines(c, jumpType) == (h + ["D=M-D"]) + ((jump + pf) + pt);
    Regroup(h, ["D=M-D"], jump, pf, pt);
    assert ["D=M-D"] + jump == CompareTestLines(c, jumpType);
    var front := h + CompareTestLines(c, jumpType);
    AppendSlices(front + pf, pt);
    AppendSlices(front, pf);
  }

  /** The ROM-relative lines a comparison's jumps use. */
  lemma {:induction false} CompareLinesAt(c: int, jumpType: string)
    ensures var r := CompareLines(c, jumpType);
            r[10] == At(c + 20) && r[11] == "D;" + jumpType
            && r[17] == At(c + 25) && r[18] == "0;JMP"
            && r[19] == "@SP" && r[20] == "A=M"
  {
    CompareParts(c, jumpType);
    var r := CompareLines(c, jumpType);
    assert r[10] == r[..12][10] && r[11] == r[..12][11];
    assert r[17] == r[12..19][5] && r[18] == r[12..19][6];
    assert r[19] == r[19..][0] && r[20] == r[19..][1];
  }

  lemma {:induction false} TestBumps(c: int, jumpType: string)
    ensures var front := TwoOperandLines() + CompareTestLines(c, jumpType);
            Bumps(front, Dec) == 2 && Bumps(front, Inc) == 0
  {
    TwoOperandBumps();
    AtNotSP(c + 20);
    assert ("D;" + jumpType)[0] == 'D';
    Quiet(CompareTestLines(c, jumpType));
    BumpsAppend(TwoOperandLines(), CompareTestLines(c, jumpType), Inc);
    BumpsAppend(TwoOperandLines(), CompareTestLines(c, jumpType), Dec);
  }

  lemma {:induction false} PushFalseBumps(c: int)
    ensures Bumps(PushFalseLines(c), Inc) == 1 && Bumps(PushFalseLines(c), Dec) == 0
  {
    BlockBumps();
    var set0 := ["@SP", "A=M", "M=0"];
    var exit := [At(c + 13), "0;JMP"];
    NoBumps(set0, Inc);
    NoBumps(set0, Dec);
    AtNotSP(c + 13);
    Quiet(exit);
    BumpsAppend(set0, IncrementSPLines(), Inc);
    BumpsAppend(set0, IncrementSPLines(), Dec);
    BumpsAppend(set0 + IncrementSPLines(), exit, Inc);
    BumpsAppend(set0 + IncrementSPLines(), exit, Dec);
  }

  lemma {:induction false} PushTrueBumps()
    ensures Bumps(PushTrueLines(), Inc) == 1 && Bumps(PushTrueLines(), Dec) == 0
  {
    BlockBumps();
    var set1 := ["@SP", "A=M", "M=-1"];
    NoBumps(set1, Inc);
    NoBumps(set1, Dec);
    BumpsAppend(set1, IncrementSPLines(), Inc);
    BumpsAppend(set1, IncrementSPLines(), Dec);
  }

  /** The two operands are popped before the jump; each branch then pushes one result. */
  lemma {:induction false} CompareBumps(c: int, jumpType: string)
    ensures var r := CompareLines(c, jumpType);
            Bumps(r[..12], Dec) == 2 && Bumps(r[..12], Inc) == 0
            && Bumps(r[12..19], Inc) == 1 && Bumps(r[12..19], Dec) == 0
            && Bumps(r[19..], Inc) == 1 && Bumps(r[19..], Dec) == 0
  {
    CompareParts(c, jumpType);
    TestBumps(c, jumpType);
    PushFalseBumps(c + 12);
    PushTrueBumps();
  }

  /**
   * `add`, `sub`, `and`, `or` decrement SP twice and increment it once;
   * `neg`, `not` once each; a comparison decrements twice before its jump and
   * each of its two branches increments once; an unknown command emits nothing.
   */
  lemma {:induction false} ArithmeticStackEffect(command: string, c: int)
    ensures command in {"add", "sub", "and", "or"} ==>
      Bumps(ArithmeticLines(command, c), Dec) == 2 && Bumps(ArithmeticLines(command, c), Inc) == 1
    ensures command in {"neg", "not"} ==>
      Bumps(ArithmeticLines(command, c), Dec) == 1 && Bumps(ArithmeticLines(command, c), Inc) == 1
    ensures command in {"eq", "gt", "lt"} ==>
      var r := ArithmeticLines(command, c);
      Bumps(r[..12], Dec) == 2 && Bumps(r[..12], Inc) == 0
      && Bumps(r[12..19], Inc) == 1 && Bumps(r[12..19], Dec) == 0
      && Bumps(r[19..], Inc) == 1 && Bumps(r[19..], Dec) == 0
    ensures command !in {"add", "sub", "and", "or", "neg", "not", "eq", "gt", "lt"} ==>
      ArithmeticLines(command, c) == []
  {
    if command == "add" { BinaryBumps("M=M+D"); }
    else if command == "sub" { BinaryBumps("M=M-D"); }
    else if command == "and" { BinaryBumps("M=M&D"); }
    else if command == "or" { BinaryBumps("M=M|D"); }
    else if command == "neg" { UnaryBumps("M=-M"); }
    else if command == "not" { UnaryBumps("M=!M"); }
    else if command == "eq" { CompareBumps(c, "JEQ"); }
    else if command == "gt" { CompareBumps(c, "JGT"); }
    else if command == "lt" { CompareBumps(c, "JLT"); }
  }

  // ---------------------------------------------------------------------------
  // Push and pop
  // ---------------------------------------------------------------------------

  /** The segments of the VM and the base symbol and addressing (`M` indirect, `A` direct) of each. */
  const SegmentBases: map<string, (string, string)> := map[
    "local" := ("LCL", "M"), "argument" := ("ARG", "M"),
    "this" := ("THIS", "M"), "that" := ("THAT", "M"),
    "pointer" := ("R3", "A"), "temp" := ("R5", "A"), "static" := ("16", "A")]

  /**
   * `push constant i` loads i and pushes it; every other known segment reads
   * base + i through the table above; an unknown segment emits nothing.
   */
  lemma {:induction false} PushMapping(segment: string, index: int)
    ensures segment == "constant" ==>
      PushLines(segment, index) == SetDLines(index) + PushDLines()
    ensures segment in SegmentBases ==>
      PushLines(segment, index)
        == PushSegmentLines(SegmentBases[segment].0, index, SegmentBases[segment].1)
    ensures PushLines(segment, index) == [] <==> segment != "constant" && segment !in SegmentBases
  {
  }

  /** A pop writes to base + i for the same table; `constant` and unknown segments emit nothing. */
  lemma {:induction false} PopMapping(segment: string, index: int)
    ensures segment in SegmentBases ==>
      PopLines(segment, index)
        == PopSegmentLines(SegmentBases[segment].0, index, SegmentBases[segment].1)
    ensures PopLines(segment, index) == [] <==> segment !in SegmentBases
  {
  }

  /** A push increments SP once and never decrements it. */
  lemma {:induction false} PushStackEffect(segment: string, index: int)
    ensures PushLines(segment, index) != [] ==>
      Bumps(PushLines(segment, index), Inc) == 1 && Bumps(PushLines(segment, index), Dec) == 0
  {
    PushMapping(segment, index);
    BlockBumps();
    if segment == "constant" {
      AtNotSP(index);
      Quiet(SetDLines(index));
      BumpsAppend(SetDLines(index), PushDLines(), Inc);
      BumpsAppend(SetDLines(index), PushDLines(), Dec);
    } else if segment in SegmentBases {
      PushSegmentBumps(SegmentBases[segment].0, index, SegmentBases[segment].1);
    }
  }

  /** A pop decrements SP once and never increments it. */
  lemma {:induction false} PopStackEffect(segment: string, index: int)
    ensures PopLines(segment, index) != [] ==>
      Bumps(PopLines(segment, index), Dec) == 1 && Bumps(PopLines(segment, index), Inc) == 0
  {
    PopMapping(segment, index);
    if segment in SegmentBases {
      PopSegmentBumps(SegmentBases[segment].0, index, SegmentBases[segment].1);
    }
  }

  lemma {:induction false} PushSegmentBumps(segment: string, index: int, am: string)
    ensures Bumps(PushSegmentLines(segment, index, am), Inc) == 1
    ensures Bumps(PushSegmentLines(segment, index, am), Dec) == 0
  {
    BlockBumps();
    var address := ["@" + segment, "A=" + am + "+D", "D=M"];
    assert address[1][0] == 'A';
    AtNotSP(index);
    Quiet(SetDLines(index));
    NoBumps(address, Inc);
    NoBumps(address, Dec);
    BumpsAppend(SetDLines(index), address, Inc);
    BumpsAppend(SetDLines(index), address, Dec);
    BumpsAppend(SetDLines(index) + address, PushDLines(), Inc);
    BumpsAppend(SetDLines(index) + address, PushDLines(), Dec);
  }

  /** The lines of a pop that compute the target address and park it in R13. */
  lemma {:induction false} PopAddressBumps(segment: string, index: int, am: string)
    ensures var front := SetDLines(index) + ["@" + segment, "D=" + am + "+D", "@R13", "M=D"];
            Bumps(front, Inc) == 0 && Bumps(front, Dec) == 0 && EndsOffSP(front)
  {
    var address := ["@" + segment, "D=" + am + "+D", "@R13", "M=D"];
    assert address[1][0] == 'D';
    AtNotSP(index);
    Quiet(SetDLines(index));
    NoBumps(address, Inc);
    NoBumps(address, Dec);
    BumpsAppend(SetDLines(index), address, Inc);
    BumpsAppend(SetDLines(index), address, Dec);
  }

  lemma {:induction false} PopSegmentBumps(segment: string, index: int, am: string)
    ensures Bumps(PopSegmentLines(segment, index, am), Dec) == 1
    ensures Bumps(PopSegmentLines(segment, index, am), Inc) == 0
  {
    BlockBumps();
    var front := SetDLines(index) + ["@" + segment, "D=" + am + "+D", "@R13", "M=D"];
    var store := ["@R13", "A=M", "M=D"];
    PopAddressBumps(segment, index, am);
    Quiet(store);
    BumpsAppend(front, PopToDLines(), Inc);
    BumpsAppend(front, PopToDLines(), Dec);
    BumpsAppend(front + PopToDLines(), store, Inc);
    BumpsAppend(front + PopToDLines(), store, Dec);
  }

  /**
   * A pop computes base + index into D, parks it in R13, pops the top of the
   * stack into D and stores it through R13: R13 is written before the pop
   * and read only after it.
   */
  lemma {:induction false} PopThroughR13(segment: string, index: int, am: string)
    ensures var r := PopSegmentLines(segment, index, am);
      |r| == 14
      && r[..2] == SetDLines(index) && r[2..4] == ["@" + segment, "D=" + am + "+D"]
      && r[4..6] == ["@R13", "M=D"]
      && r[6..11] == PopToDLines()
      && r[11..] == ["@R13", "A=M", "M=D"]
      && (forall k :: 6 <= k < 11 ==> r[k] != "@R13")
  {
  }

  // ---------------------------------------------------------------------------
  // ROM addresses and jump targets
  // ---------------------------------------------------------------------------

  lemma {:induction false} LoadedAt(n: int)
    ensures LoadedAddress(At(n)) == Some(n)
  {
    ParseIntToString(n);
  }

  /** The number of label declarations among the lines. */
  function LabelCount(lines: seq<string>): (r: nat)
    ensures r <= |lines|
  {
    if lines == [] then 0 else (if IsLabelLine(lines[0]) then 1 else 0) + LabelCount(lines[1..])
  }

  /** Every line is either an instruction or a label. */
  lemma {:induction false} RomLength(lines: seq<string>)
    ensures |Rom(lines)| + LabelCount(lines) == |lines|
  {
    if lines != [] {
      RomLength(lines[1..]);
    }
  }

  /**
   * While the counter is in step (no drift), it equals the number of lines
   * written minus the label lines, minus one: the ROM address of the last
   * instruction.
   */
  lemma {:induction false} CounterInStep(lines: seq<string>, counter: int)
    requires counter - (|Rom(lines)| - 1) == 0
    ensures counter == |lines| - LabelCount(lines) - 1
  {
    RomLength(lines);
  }

  /**
   * The two jumps of a comparison written after `pre` with counter `counter`.
   * `base` is the ROM address of its first instruction and `drift` how far the
   * counter is ahead of the ROM addresses: both jumps land `drift` instructions
   * past the intended place (the `@SP` that starts the true block, the first
   * instruction after the comparison).
   */
  lemma {:induction false} CompareTargets(pre: seq<string>, counter: int, jumpType: string)
    ensures var base := |Rom(pre)|;
            var rom := Rom(pre + CompareLines(counter, jumpType));
            var drift := counter - (base - 1);
            |rom| == base + 24
            && rom[base + 11] == "D;" + jumpType
            && LoadedAddress(rom[base + 10]) == Some(base + 19 + drift)
            && rom[base + 19] == "@SP" && rom[base + 20] == "A=M"
            && rom[base + 18] == "0;JMP"
            && LoadedAddress(rom[base + 17]) == Some(base + 24 + drift)
  {
    RomAppendCode(pre, CompareLines(counter, jumpType));
    CompareLinesAt(counter, jumpType);
    LoadedAt(counter + 20);
    LoadedAt(counter + 25);
  }

  /**
   * With the counter in step, the conditional jump of a comparison lands on
   * the `@SP` that starts the true block and the false block's jump lands on
   * the first instruction after the comparison.
   */
  lemma {:induction false} CompareJumpsLand(pre: seq<string>, jumpType: string)
    ensures var base := |Rom(pre)|;
            var rom := Rom(pre + CompareLines(base - 1, jumpType));
            |rom| == base + 24
            && LoadedAddress(rom[base + 10]) == Some(base + 19) && rom[base + 19] == "@SP"
            && LoadedAddress(rom[base + 17]) == Some(|rom|)
  {
    CompareTargets(pre, |Rom(pre)| - 1, jumpType);
  }

  /**
   * The jump `close` writes, after `pre` with counter `counter`: it targets its
   * own `0;JMP` line, shifted by the drift.
   */
  lemma {:induction false} CloseTargets(pre: seq<string>, counter: int)
    ensures var base := |Rom(pre)|;
            var rom := Rom(pre + CloseLines(counter));
            |rom| == base + 2 && rom[base + 1] == "0;JMP"
            && LoadedAddress(rom[base]) == Some(base + 1 + (counter - (base - 1)))
  {
    RomAppendCode(pre, CloseLines(counter));
    LoadedAt(counter + 2);
  }

  /** With the counter in step, `close` is a one-instruction loop: `0;JMP` jumps to itself. */
  lemma {:induction false} CloseSelfLoop(pre: seq<string>)
    ensures var base := |Rom(pre)|;
            var rom := Rom(pre + CloseLines(base - 1));
            |rom| == base + 2 && rom[base + 1] == "0;JMP" && LoadedAddress(rom[base]) == Some(base + 1)
  {
    CloseTargets(pre, |Rom(pre)| - 1);
  }

  // ---------------------------------------------------------------------------
  // The writeCall counter drift
  // ---------------------------------------------------------------------------

  /**
   * As written: after `writeCall` on a fresh writer (counter 53, but only 53
   * instructions at ROM 0..52), an `eq`/`gt`/`lt` jumps to ROM 73, which is the
   * `A=M` after the true block's `@SP` at 72, and its false block jumps to 78,
   * past the 77 instructions written.
   */
  lemma {:induction false} CallThenCompareMisses(functionName: string, numberOfArgs: int, jumpType: string)
    ensures var rom := Rom(CallLines(functionName, numberOfArgs) + CompareLines(53, jumpType));
            |rom| == 77
            && LoadedAddress(rom[63]) == Some(73) && rom[72] == "@SP" && rom[73] == "A=M"
            && LoadedAddress(rom[70]) == Some(78)
  {
    var pre := CallLines(functionName, numberOfArgs);
    CallRom([], functionName, numberOfArgs);
    assert [] + pre == pre;
    CompareTargets(pre, 53, jumpType);
  }

  /** The same program through the writer as written. */
  method CallThenCompare(functionName: string, numberOfArgs: int) returns (rom: seq<string>)
    ensures |rom| == 77
    ensures LoadedAddress(rom[63]) == Some(73) && rom[72] == "@SP" && rom[73] == "A=M"
    ensures LoadedAddress(rom[70]) == Some(78)
  {
    var writer := new CodeWriter();
    writer.WriteCall(functionName, numberOfArgs);
    ghost var pre := writer.fs.lines;
    assert pre == CallLines(functionName, numberOfArgs) by {
      assert [] + CallLines(functionName, numberOfArgs) == CallLines(functionName, numberOfArgs);
    }
    writer.WriteArithmetic("eq");
    assert writer.fs.lines == pre + CompareLines(53, "JEQ");
    rom := Rom(writer.fs.lines);
    CallThenCompareMisses(functionName, numberOfArgs, "JEQ");
  }

  /** The same program with the corrected call: both jumps land where they should. */
  method CallThenCompareSynced(functionName: string, numberOfArgs: int) returns (rom: seq<string>)
    ensures |rom| == 77
    ensures LoadedAddress(rom[63]) == Some(72) && rom[72] == "@SP"
    ensures LoadedAddress(rom[70]) == Some(77)
  {
    var writer := new CodeWriter();
    writer.WriteCallSynced(functionName, numberOfArgs);
    ghost var pre := writer.fs.lines;
    CallRom([], functionName, numberOfArgs);
    assert pre == [] + CallLines(functionName, numberOfArgs);
    writer.WriteArithmetic("eq");
    rom := Rom(writer.fs.lines);
    CompareJumpsLand(pre, "JEQ");
  }

  // ---------------------------------------------------------------------------
  // Call, function and return
  // ---------------------------------------------------------------------------

  lemma {:induction false} SaveFrameAt(functionName: string)
    ensures var s := SaveFrameLines(functionName);
      s[0] == "@" + ReturnLabel(functionName) && s[1] == "D=A"
      && s[7] == "@LCL" && s[14] == "@ARG" && s[21] == "@THIS" && s[28] == "@THAT"
      && s[8] == "D=M" && s[15] == "D=M" && s[22] == "D=M" && s[29] == "D=M"
  {
  }

  lemma {:induction false} SetArgAt(numberOfArgs: int)
    ensures var a := SetArgLines(numberOfArgs);
      a[0] == "@SP" && a[1] == "D=M" && a[2] == "@ARG" && a[3] == "M=D"
      && a[4] == At(numberOfArgs) && a[5] == "D=A" && a[6] == "@ARG" && a[7] == "M=M-D"
      && a[8] == At(5) && a[9] == "D=A" && a[10] == "@ARG" && a[11] == "M=M-D"
  {
  }

  /**
   * `writeCall` pushes the address of its return label and then the values of
   * LCL, ARG, THIS and THAT; sets ARG := SP, subtracts the argument count and
   * then 5; sets LCL := SP; jumps to the function and declares the return
   * label, which therefore names the instruction right after the jump.
   */
  lemma {:induction false} CallLayout(pre: seq<string>, functionName: string, numberOfArgs: int)
    ensures var r := CallLines(functionName, numberOfArgs);
      r[0] == "@" + ReturnLabel(functionName) && r[1] == "D=A"
      && r[7] == "@LCL" && r[14] == "@ARG" && r[21] == "@THIS" && r[28] == "@THAT"
      && r[8] == "D=M" && r[15] == "D=M" && r[22] == "D=M" && r[29] == "D=M"
      && r[35] == "@SP" && r[36] == "D=M" && r[37] == "@ARG" && r[38] == "M=D"
      && LoadedAddress(r[39]) == Some(numberOfArgs) && r[41] == "@ARG" && r[42] == "M=M-D"
      && LoadedAddress(r[43]) == Some(5) && r[45] == "@ARG" && r[46] == "M=M-D"
      && r[47] == "@SP" && r[48] == "D=M" && r[49] == "@LCL" && r[50] == "M=D"
      && r[51] == "@" + functionName && r[52] == "0;JMP"
      && r[53] == "(" + ReturnLabel(functionName) + ")"
    ensures |Rom(pre + CallLines(functionName, numberOfArgs))| == |Rom(pre)| + 53
  {
    CallFrameLayout(functionName, numberOfArgs);
    CallArgLayout(functionName, numberOfArgs);
    CallJumpLayout(functionName, numberOfArgs);
    CallRom(pre, functionName, numberOfArgs);
  }

  /** The call's lines: the saved frame, the new ARG, the new LCL and the jump, the return label. */
  lemma {:induction false} CallParts(functionName: string, numberOfArgs: int)
    ensures CallLines(functionName, numberOfArgs)
      == SaveFrameLines(functionName) + SetArgLines(numberOfArgs) + CallJumpLines(functionName)
  {
  }

  /** The lines of a call after ARG is set: LCL := SP, the jump and the return label. */
  function CallJumpLines(functionName: string): (r: seq<string>)
    ensures |r| == 7
  {
    ["@SP", "D=M", "@LCL", "M=D"] + ["@" + functionName, "0;JMP"] + LabelLines(ReturnLabel(functionName))
  }

  lemma {:induction false} CallFrameLayout(functionName: string, numberOfArgs: int)
    ensures var r := CallLines(functionName, numberOfArgs);
      r[0] == "@" + ReturnLabel(functionName) && r[1] == "D=A"
      && r[7] == "@LCL" && r[14] == "@ARG" && r[21] == "@THIS" && r[28] == "@THAT"
      && r[8] == "D=M" && r[15] == "D=M" && r[22] == "D=M" && r[29] == "D=M"
  {
    var s := SaveFrameLines(functionName);
    var rest := SetArgLines(numberOfArgs) + CallJumpLines(functionName);
    assert CallLines(functionName, numberOfArgs) == s + rest by {
      CallParts(functionName, numberOfArgs);
    }
    SaveFrameAt(functionName);
  }

  lemma {:induction false} CallArgLayout(functionName: string, numberOfArgs: int)
    ensures var r := CallLines(functionName, numberOfArgs);
      r[35] == "@SP" && r[36] == "D=M" && r[37] == "@ARG" && r[38] == "M=D"
      && LoadedAddress(r[39]) == Some(numberOfArgs) && r[41] == "@ARG" && r[42] == "M=M-D"
      && LoadedAddress(r[43]) == Some(5) && r[45] == "@ARG" && r[46] == "M=M-D"
  {
    var front := SaveFrameLines(functionName);
    var a := SetArgLines(numberOfArgs);
    var back := CallJumpLines(functionName);
    assert CallLines(functionName, numberOfArgs) == (front + a) + back by {
      CallParts(functionName, numberOfArgs);
    }
    SetArgAt(numberOfArgs);
    LoadedAt(numberOfArgs);
    LoadedAt(5);
  }

  lemma {:induction false} CallJumpLayout(functionName: string, numberOfArgs: int)
    ensures var r := CallLines(functionName, numberOfArgs);
      && r[47] == "@SP" && r[48] == "D=M" && r[49] == "@LCL" && r[50] == "M=D"
      && r[51] == "@" + functionName && r[52] == "0;JMP"
      && r[53] == "(" + ReturnLabel(functionName) + ")"
  {
    var front := SaveFrameLines(functionName) + SetArgLines(numberOfArgs);
    var back := CallJumpLines(functionName);
    assert CallLines(functionName, numberOfArgs) == front + back by {
      CallParts(functionName, numberOfArgs);
    }
  }

  /** `writeCall` increments SP five times (the five pushes) and never decrements it. */
  lemma {:induction false} CallBumps(functionName: string, numberOfArgs: int)
    ensures Bumps(CallLines(functionName, numberOfArgs), Inc) == 5
    ensures Bumps(CallLines(functionName, numberOfArgs), Dec) == 0
  {
    var saves := SaveFrameLines(functionName);
    var arg := SetArgLines(numberOfArgs);
    var tail := ["@SP", "D=M", "@LCL", "M=D"] + ["@" + functionName, "0;JMP"]
                + LabelLines(ReturnLabel(functionName));
    SaveFrameBumps(functionName);
    SetArgAt(numberOfArgs);
    AtNotSP(numberOfArgs);
    AtNotSP(5);
    NoBumps(arg, Inc);
    NoBumps(arg, Dec);
    NoBumps(tail, Inc);
    NoBumps(tail, Dec);
    assert CallLines(functionName, numberOfArgs) == (saves + arg) + tail;
    BumpsAppend(saves, arg, Inc);
    BumpsAppend(saves, arg, Dec);
    BumpsAppend(saves + arg, tail, Inc);
    BumpsAppend(saves + arg, tail, Dec);
  }

  lemma {:induction false} SaveSegmentBumps(segment: string, am: string)
    ensures Bumps(SaveSegmentLines(segment, am), Inc) == 1
    ensures Bumps(SaveSegmentLines(segment, am), Dec) == 0
    ensures EndsOffSP(SaveSegmentLines(segment, am))
  {
    BlockBumps();
    var load := ["@" + segment, "D=" + am];
    assert load[1][0] == 'D';
    NoBumps(load, Inc);
    NoBumps(load, Dec);
    BumpsAppend(load, PushDLines(), Inc);
    BumpsAppend(load, PushDLines(), Dec);
  }

  lemma {:induction false} SaveFrameBumps(functionName: string)
    ensures Bumps(SaveFrameLines(functionName), Inc) == 5
    ensures Bumps(SaveFrameLines(functionName), Dec) == 0
    ensures EndsOffSP(SaveFrameLines(functionName))
  {
    var s0 := SaveSegmentLines(ReturnLabel(functionName), "A");
    var s1 := SaveSegmentLines("LCL", "M");
    var s2 := SaveSegmentLines("ARG", "M");
    var s3 := SaveSegmentLines("THIS", "M");
    var s4 := SaveSegmentLines("THAT", "M");
    SaveSegmentBumps(ReturnLabel(functionName), "A");
    SaveSegmentBumps("LCL", "M");
    SaveSegmentBumps("ARG", "M");
    SaveSegmentBumps("THIS", "M");
    SaveSegmentBumps("THAT", "M");
    BumpsAppend(s0, s1, Inc);
    BumpsAppend(s0, s1, Dec);
    BumpsAppend(s0 + s1, s2, Inc);
    BumpsAppend(s0 + s1, s2, Dec);
    BumpsAppend(s0 + s1 + s2, s3, Inc);
    BumpsAppend(s0 + s1 + s2, s3, Dec);
    BumpsAppend(s0 + s1 + s2 + s3, s4, Inc);
    BumpsAppend(s0 + s1 + s2 + s3, s4, Dec);
  }

  /**
   * Every call of one function pushes the same return address and declares
   * the same return label, whatever the call site: a second call of `f`
   * declares `(f.return)` again.
   */
  lemma {:induction false} ReturnLabelShared(functionName: string, n1: int, n2: int)
    ensures CallLines(functionName, n1)[53] == CallLines(functionName, n2)[53]
    ensures CallLines(functionName, n1)[0] == CallLines(functionName, n2)[0]
  {
  }

  lemma {:induction false} PrefixSlice<T>(a: seq<T>, b: seq<T>, i: int, j: int)
    requires 0 <= i <= j <= |a|
    ensures (a + b)[i..j] == a[i..j]
  {
  }

  lemma {:induction false} SuffixSlice<T>(a: seq<T>, b: seq<T>, i: int, j: int)
    requires |a| <= i <= j <= |a| + |b|
    ensures (a + b)[i..j] == b[i - |a| .. j - |a|]
  {
  }

  /** The i-th six-line block of the loop in `writeFunction` zeroes local i. */
  lemma {:induction false} ZeroLocalsLayout(count: int, i: int)
    requires 0 <= i < count
    ensures ZeroLocalsLines(count)[6 * i .. 6 * i + 6] == ZeroLocalLines(i)
  {
    var prefix := ZeroLocalsLines(count - 1);
    BlockOfAppend(ZeroLocalsLines(count), prefix, ZeroLocalLines(count - 1), i, count - 1);
    if i < count - 1 {
      ZeroLocalsLayout(count - 1, i);
    }
  }

  /** Six-line block `i` of a run of blocks that ends in `last`. */
  lemma {:induction false} BlockOfAppend(whole: seq<string>, prefix: seq<string>, last: seq<string>, i: int, n: int)
    requires whole == prefix + last && |prefix| == 6 * n && |last| == 6 && 0 <= i <= n
    ensures whole[6 * i .. 6 * i + 6] == if i < n then prefix[6 * i .. 6 * i + 6] else last
  {
    if i < n {
      PrefixSlice(prefix, last, 6 * i, 6 * i + 6);
    } else {
      SuffixSlice(prefix, last, 6 * i, 6 * i + 6);
      assert last[0..6] == last;
    }
  }

  lemma {:induction false} ZeroLocalsAvoidSP(count: int)
    ensures "@SP" !in ZeroLocalsLines(count)
  {
    if count > 0 {
      ZeroLocalsAvoidSP(count - 1);
      AtNotSP(count - 1);
      assert ZeroLocalsLines(count) == ZeroLocalsLines(count - 1) + ZeroLocalLines(count - 1);
    }
  }

  /**
   * `writeFunction` declares the label and then, for i = 0 .. k - 1 in order,
   * sets RAM[LCL + i] := 0.
   */
  lemma {:induction false} FunctionZeroesLocals(labelName: string, numberOfLocals: int, i: int)
    requires 0 <= i < numberOfLocals
    ensures var r := FunctionLines(labelName, numberOfLocals);
      r[0] == "(" + labelName + ")"
      && r[1 + 6 * i .. 7 + 6 * i] == ZeroLocalLines(i)
      && LoadedAddress(r[1 + 6 * i]) == Some(i)
      && r[3 + 6 * i] == "@LCL" && r[6 + 6 * i] == "M=0"
  {
    var r := FunctionLines(labelName, numberOfLocals);
    ZeroLocalsLayout(numberOfLocals, i);
    SuffixSlice(LabelLines(labelName), ZeroLocalsLines(numberOfLocals), 1 + 6 * i, 7 + 6 * i);
    assert r[1 + 6 * i] == r[1 + 6 * i .. 7 + 6 * i][0];
    assert r[3 + 6 * i] == r[1 + 6 * i .. 7 + 6 * i][2];
    assert r[6 + 6 * i] == r[1 + 6 * i .. 7 + 6 * i][5];
    LoadedAt(i);
  }

  /** No line `writeFunction` emits addresses SP: it leaves the stack as it is. */
  lemma {:induction false} FunctionLeavesSP(labelName: string, numberOfLocals: int)
    ensures "@SP" !in FunctionLines(labelName, numberOfLocals)
    ensures Bumps(FunctionLines(labelName, numberOfLocals), Inc) == 0
    ensures Bumps(FunctionLines(labelName, numberOfLocals), Dec) == 0
  {
    ZeroLocalsAvoidSP(numberOfLocals);
    assert FunctionLines(labelName, numberOfLocals)[0][0] == '(';
    Quiet(FunctionLines(labelName, numberOfLocals));
  }

  lemma {:induction false} RepositionQuiet(segment: string)
    requires segment in FrameOffsets
    ensures "@SP" !in RepositionLines(segment)
  {
    AtNotSP(FrameOffsets[segment]);
  }

  /** FRAME := LCL, then pop the return value into D and store it at RAM[ARG]. */
  lemma {:induction false} ReturnValueFrontBumps()
    ensures var front := ["@LCL", "D=M", "@FRAME", "M=D"] + PopToDLines() + ["@ARG", "A=M", "M=D"];
            Bumps(front, Dec) == 1 && Bumps(front, Inc) == 0 && EndsOffSP(front)
  {
    BlockBumps();
    var head := ["@LCL", "D=M", "@FRAME", "M=D"];
    var store := ["@ARG", "A=M", "M=D"];
    NoBumps(head, Inc);
    NoBumps(head, Dec);
    NoBumps(store, Inc);
    NoBumps(store, Dec);
    BumpsAppend(head, PopToDLines(), Inc);
    BumpsAppend(head, PopToDLines(), Dec);
    var popped := head + PopToDLines();
    assert EndsOffSP(popped) by {
      assert popped[8] == PopToDLines()[4] == "D=M";
    }
    BumpsAppend(popped, store, Inc);
    BumpsAppend(popped, store, Dec);
  }

  lemma {:induction false} ReturnValueBumps()
    ensures Bumps(ReturnValueLines(), Dec) == 1 && Bumps(ReturnValueLines(), Inc) == 0
    ensures EndsOffSP(ReturnValueLines())
  {
    var front := ["@LCL", "D=M", "@FRAME", "M=D"] + PopToDLines() + ["@ARG", "A=M", "M=D"];
    var setSP := ["@ARG", "D=M+1", "@SP", "M=D"];
    ReturnValueFrontBumps();
    NoBumps(setSP, Inc);
    NoBumps(setSP, Dec);
    BumpsAppend(front, setSP, Inc);
    BumpsAppend(front, setSP, Dec);
  }

  /** The part of `writeReturn` after SP := ARG + 1 never addresses SP. */
  lemma {:induction false} ReturnTailAvoidsSP()
    ensures "@SP" !in RestoreSegmentsLines() + SetDLines(5) + ["@FRAME", "D=M-D", "A=D", "0;JMP"]
  {
    RepositionQuiet("THAT");
    RepositionQuiet("THIS");
    RepositionQuiet("ARG");
    RepositionQuiet("LCL");
    AtNotSP(5);
  }

  /** `writeReturn` decrements SP once (the pop of the return value) and never increments it. */
  lemma {:induction false} ReturnBumps()
    ensures Bumps(ReturnLines(), Dec) == 1 && Bumps(ReturnLines(), Inc) == 0
  {
    var rest := RestoreSegmentsLines() + SetDLines(5) + ["@FRAME", "D=M-D", "A=D", "0;JMP"];
    ReturnValueBumps();
    ReturnTailAvoidsSP();
    Quiet(rest);
    Regroup4(ReturnValueLines(), RestoreSegmentsLines(), SetDLines(5), ["@FRAME", "D=M-D", "A=D", "0;JMP"]);
    BumpsAppend(ReturnValueLines(), rest, Inc);
    BumpsAppend(ReturnValueLines(), rest, Dec);
  }

  lemma {:induction false} RestoreAt()
    ensures var s := RestoreSegmentsLines();
      s[0] == At(1) && s[6] == "@THAT" && s[8] == At(2) && s[14] == "@THIS"
      && s[16] == At(3) && s[22] == "@ARG" && s[24] == At(4) && s[30] == "@LCL"
      && s[7] == "M=D" && s[15] == "M=D" && s[23] == "M=D" && s[31] == "M=D"
  {
  }

  lemma {:induction false} ReturnAt()
    ensures var r := ReturnLines();
      r[16] == At(1) && r[22] == "@THAT" && r[24] == At(2) && r[30] == "@THIS"
      && r[32] == At(3) && r[38] == "@ARG" && r[40] == At(4) && r[46] == "@LCL"
      && r[23] == "M=D" && r[31] == "M=D" && r[39] == "M=D" && r[47] == "M=D"
      && r[48] == At(5)
    ensures ReturnLines()[48..] == [At(5), "D=A", "@FRAME", "D=M-D", "A=D", "0;JMP"]
  {
    RestoreAt();
  }

  /** The call's push of `segment` is slot 5 - k of its five pushes, k its frame offset. */
  lemma {:induction false} CallSlot(functionName: string, numberOfArgs: int, segment: string)
    requires segment in FrameOffsets
    ensures var k := FrameOffsets[segment];
            var call := CallLines(functionName, numberOfArgs);
            call[7 * (5 - k)] == "@" + segment && call[7 * (5 - k) + 1] == "D=M"
    ensures CallLines(functionName, numberOfArgs)[0] == "@" + ReturnLabel(functionName)
  {
    SaveFrameAt(functionName);
    var call := CallLines(functionName, numberOfArgs);
    assert call[..35] == SaveFrameLines(functionName) by {
      AppendSlices(SaveFrameLines(functionName), call[35..]);
      assert call == SaveFrameLines(functionName) + call[35..];
    }
    if segment == "THAT" {
      assert FrameOffsets[segment] == 1;
    } else if segment == "THIS" {
      assert FrameOffsets[segment] == 2;
    } else if segment == "ARG" {
      assert FrameOffsets[segment] == 3;
    } else {
      assert FrameOffsets[segment] == 4;
    }
  }

  /** The return's block restoring `segment` loads its frame offset k and stores into it. */
  lemma {:induction false} ReturnSlot(segment: string)
    requires segment in FrameOffsets
    ensures var k := FrameOffsets[segment];
            var ret := ReturnLines();
            LoadedAddress(ret[8 * k + 8]) == Some(k)
            && ret[8 * k + 14] == "@" + segment && ret[8 * k + 15] == "M=D"
    ensures LoadedAddress(ReturnLines()[48]) == Some(5)
  {
    ReturnAt();
    LoadedAt(5);
    var ret := ReturnLines();
    if segment == "THAT" {
      assert FrameOffsets[segment] == 1;
      LoadedAt(1);
    } else if segment == "THIS" {
      assert FrameOffsets[segment] == 2;
      LoadedAt(2);
    } else if segment == "ARG" {
      assert FrameOffsets[segment] == 3;
      LoadedAt(3);
    } else {
      assert FrameOffsets[segment] == 4;
      LoadedAt(4);
    }
  }

  /**
   * Call and return agree on the frame. The segment a return restores from
   * FRAME - k (its block loads k and ends by storing into the segment) is the
   * one a call pushed k slots below the new LCL: slot 5 - k of its five
   * pushes. The first push saves the return label's address at FRAME - 5;
   * the return jumps to the address FRAME - 5 itself and never reads that
   * slot (see `ReturnAt`).
   */
  lemma {:induction false} FrameLayoutAgrees(functionName: string, numberOfArgs: int, segment: string)
    requires segment in FrameOffsets
    ensures var k := FrameOffsets[segment];
            var call := CallLines(functionName, numberOfArgs);
            var ret := ReturnLines();
      call[7 * (5 - k)] == ret[8 * k + 14] == "@" + segment
      && call[7 * (5 - k) + 1] == "D=M" && ret[8 * k + 15] == "M=D"
      && LoadedAddress(ret[8 * k + 8]) == Some(k)
    ensures CallLines(functionName, numberOfArgs)[0] == "@" + ReturnLabel(functionName)
    ensures LoadedAddress(ReturnLines()[48]) == Some(5)
  {
    CallSlot(functionName, numberOfArgs, segment);
    ReturnSlot(segment);
  }
}
