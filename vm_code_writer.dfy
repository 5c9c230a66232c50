/**
 * The code writer of the VM translator (07/translator/code_writer.py): each VM
 * command becomes a fixed run of Hack assembly lines appended to the output.
 *
 * The output file is a `Filestream` holding the emitted lines and
 * `globalCounter`, the running count the writer uses to compute numeric jump
 * targets. The lines each helper appends are given by a function of the same
 * role (`PushDLines` for `_push_D_to_stack`, ...); the methods are proved to
 * append exactly those lines, and the lemmas in vm_code_facts.dfy say what
 * the lines mean: how many there are, where the jumps land, how the stack
 * pointer moves.
 */
module VmCodeWriter {
  import opened Results
  import opened PyStrings
  import VmParser

  // ---------------------------------------------------------------------------
  // The emitted text as the assembler sees it
  // ---------------------------------------------------------------------------

  /** A label declaration `(name)`: it takes no ROM address. */
  predicate IsLabelLine(line: string) {
    |line| > 0 && line[0] == '('
  }

  predicate NoLabelLines(lines: seq<string>) {
    forall line <- lines :: !IsLabelLine(line)
  }

  /** The instructions among the lines, in order: the i-th one gets ROM address i. */
  function Rom(lines: seq<string>): (r: seq<string>)
    ensures |r| <= |lines| && NoLabelLines(r)
  {
    if lines == [] then []
    else (if IsLabelLine(lines[0]) then [] else [lines[0]]) + Rom(lines[1..])
  }

  /** `f"@{n}"`. */
  function At(n: int): (r: string)
    ensures |r| > 1 && r[0] == '@' && r[1..] == IntToString(n)
  {
    "@" + IntToString(n)
  }

  /** The address an `@n` line with a decimal literal loads into A. */
  function LoadedAddress(line: string): Option<int> {
    if |line| > 0 && line[0] == '@' then ParseInt(line[1..]) else None
  }

  // ---------------------------------------------------------------------------
  // The lines each emitting helper appends
  // ---------------------------------------------------------------------------

  /** `_set_D_to_index`. */
  function SetDLines(index: int): (r: seq<string>)
    ensures |r| == 2 && NoLabelLines(r)
  {
    [At(index), "D=A"]
  }

  /** `_increment_SP`. */
  function IncrementSPLines(): (r: seq<string>)
    ensures |r| == 2 && NoLabelLines(r)
  {
    ["@SP", "M=M+1"]
  }

  /** `_decrease_SP`. */
  function DecreaseSPLines(): (r: seq<string>)
    ensures |r| == 2 && NoLabelLines(r)
  {
    ["@SP", "M=M-1"]
  }

  /** `_set_A_to_top_of_stack`. */
  function TopOfStackLines(): (r: seq<string>)
    ensures |r| == 2 && NoLabelLines(r)
  {
    ["@SP", "A=M"]
  }

  /** `_push_D_to_stack`. */
  function PushDLines(): (r: seq<string>)
    ensures |r| == 5 && NoLabelLines(r)
  {
    ["@SP", "A=M", "M=D"] + IncrementSPLines()
  }

  /** `_pop_to_D`. */
  function PopToDLines(): (r: seq<string>)
    ensures |r| == 5 && NoLabelLines(r)
  {
    DecreaseSPLines() + ["@SP", "A=M", "D=M"]
  }

  /** The computing line of each binary operation (`_add`, `_sub`, `_and`, `_or`). */
  predicate IsBinaryOp(op: string) {
    op in {"M=M+D", "M=M-D", "M=M&D", "M=M|D"}
  }

  /** `_add`, `_sub`, `_and`, `_or`: pop into D, step down, combine into the top, step up. */
  function BinaryLines(op: string): (r: seq<string>)
    requires IsBinaryOp(op)
    ensures |r| == 12 && NoLabelLines(r)
  {
    PopToDLines() + DecreaseSPLines() + TopOfStackLines() + [op] + IncrementSPLines()
  }

  /** `_neg`, `_not`. */
  function UnaryLines(op: string): (r: seq<string>)
    requires op in {"M=-M", "M=!M"}
    ensures |r| == 7 && NoLabelLines(r)
  {
    DecreaseSPLines() + TopOfStackLines() + [op] + IncrementSPLines()
  }

  /** `_push_false`, entered with counter `c`: it jumps to `c + 5 + 8`. */
  function PushFalseLines(c: int): (r: seq<string>)
    ensures |r| == 7 && NoLabelLines(r)
  {
    ["@SP", "A=M", "M=0"] + IncrementSPLines() + [At(c + 5 + 8), "0;JMP"]
  }

  /** `_push_true`. */
  function PushTrueLines(): (r: seq<string>)
    ensures |r| == 5 && NoLabelLines(r)
  {
    ["@SP", "A=M", "M=-1"] + IncrementSPLines()
  }

  /** `_jump`, entered with counter `c`: the conditional jump goes to `c + 10`. */
  function JumpLines(c: int, jumpType: string): (r: seq<string>)
    ensures |r| == 14 && NoLabelLines(r)
  {
    [At(c + 10), "D;" + jumpType] + PushFalseLines(c + 2) + PushTrueLines()
  }

  /** `_eq`, `_gt`, `_lt`, entered with counter `c`. */
  function CompareLines(c: int, jumpType: string): (r: seq<string>)
    ensures |r| == 24 && NoLabelLines(r)
  {
    PopToDLines() + DecreaseSPLines() + TopOfStackLines() + ["D=M-D"] + JumpLines(c + 10, jumpType)
  }

  /** `writeArithmetic`, entered with counter `c`; an unknown command emits nothing. */
  function ArithmeticLines(command: string, c: int): (r: seq<string>)
    ensures NoLabelLines(r)
    ensures |r| == if command in {"add", "sub", "and", "or"} then 12
                   else if command in {"neg", "not"} then 7
                   else if command in {"eq", "gt", "lt"} then 24
                   else 0
  {
    if command == "add" then BinaryLines("M=M+D")
    else if command == "sub" then BinaryLines("M=M-D")
    else if command == "eq" then CompareLines(c, "JEQ")
    else if command == "gt" then CompareLines(c, "JGT")
    else if command == "lt" then CompareLines(c, "JLT")
    else if command == "and" then BinaryLines("M=M&D")
    else if command == "or" then BinaryLines("M=M|D")
    else if command == "neg" then UnaryLines("M=-M")
    else if command == "not" then UnaryLines("M=!M")
    else []
  }

  /** `_push_constant`. */
  function PushConstantLines(index: int): (r: seq<string>)
    ensures |r| == 7 && NoLabelLines(r)
  {
    SetDLines(index) + PushDLines()
  }

  /** `_push_segment_index`: A := base (+ M-indirection) + index, then push RAM[A]. */
  function PushSegmentLines(segment: string, index: int, am: string): (r: seq<string>)
    ensures |r| == 10 && NoLabelLines(r)
  {
    SetDLines(index) + ["@" + segment, "A=" + am + "+D", "D=M"] + PushDLines()
  }

  /** `_pop_segment_index`: the target address goes to R13 before the pop. */
  function PopSegmentLines(segment: string, index: int, am: string): (r: seq<string>)
    ensures |r| == 14 && NoLabelLines(r)
  {
    SetDLines(index) + ["@" + segment, "D=" + am + "+D", "@R13", "M=D"]
    + PopToDLines() + ["@R13", "A=M", "M=D"]
  }

  /** The push branch of `writePushPop`; an unknown segment emits nothing. */
  function PushLines(segment: string, index: int): (r: seq<string>)
    ensures NoLabelLines(r)
  {
    if segment == "constant" then PushConstantLines(index)
    else if segment == "local" then PushSegmentLines("LCL", index, "M")
    else if segment == "argument" then PushSegmentLines("ARG", index, "M")
    else if segment == "this" then PushSegmentLines("THIS", index, "M")
    else if segment == "that" then PushSegmentLines("THAT", index, "M")
    else if segment == "pointer" then PushSegmentLines("R3", index, "A")
    else if segment == "temp" then PushSegmentLines("R5", index, "A")
    else if segment == "static" then PushSegmentLines("16", index, "A")
    else []
  }

  /** The pop branch of `writePushPop`; `constant` and unknown segments emit nothing. */
  function PopLines(segment: string, index: int): (r: seq<string>)
    ensures NoLabelLines(r)
  {
    if segment == "local" then PopSegmentLines("LCL", index, "M")
    else if segment == "argument" then PopSegmentLines("ARG", index, "M")
    else if segment == "this" then PopSegmentLines("THIS", index, "M")
    else if segment == "that" then PopSegmentLines("THAT", index, "M")
    else if segment == "pointer" then PopSegmentLines("R3", index, "A")
    else if segment == "temp" then PopSegmentLines("R5", index, "A")
    else if segment == "static" then PopSegmentLines("16", index, "A")
    else []
  }

  /** `writePushPop`: every kind other than push takes the pop branch. */
  function PushPopLines(kind: VmParser.CommandType, segment: string, index: int): (r: seq<string>)
    ensures NoLabelLines(r)
  {
    if kind == VmParser.C_Push then PushLines(segment, index) else PopLines(segment, index)
  }

  /** `writeLabel`. */
  function LabelLines(labelName: string): (r: seq<string>)
    ensures |r| == 1 && IsLabelLine(r[0])
  {
    ["(" + labelName + ")"]
  }

  /** `writeGoto`. */
  function GotoLines(labelName: string): (r: seq<string>)
    ensures |r| == 2 && NoLabelLines(r)
  {
    ["@" + labelName, "0;JMP"]
  }

  /** `writeIf`: pop into D and jump when it is non-zero. */
  function IfLines(labelName: string): (r: seq<string>)
    ensures |r| == 7 && NoLabelLines(r)
  {
    PopToDLines() + ["@" + labelName, "D;JNE"]
  }

  /** `_save_segement_address`: push the symbol's address (`A`) or the cell's value (`M`). */
  function SaveSegmentLines(segment: string, am: string): (r: seq<string>)
    ensures |r| == 7 && NoLabelLines(r)
  {
    ["@" + segment, "D=" + am] + PushDLines()
  }

  /** The return label of `writeCall`: the same for every call of one function. */
  function ReturnLabel(functionName: string): string {
    functionName + ".return"
  }

  /** The 53 instructions of `writeCall` before its closing return label. */
  function CallCodeLines(functionName: string, numberOfArgs: int): (r: seq<string>)
    ensures |r| == 53 && NoLabelLines(r)
  {
    SaveFrameLines(functionName) + SetArgLines(numberOfArgs)
    + ["@SP", "D=M", "@LCL", "M=D"]
    + ["@" + functionName, "0;JMP"]
  }

  /** The first part of `writeCall`: push the return address, LCL, ARG, THIS and THAT. */
  function SaveFrameLines(functionName: string): (r: seq<string>)
    ensures |r| == 35 && NoLabelLines(r)
  {
    SaveSegmentLines(ReturnLabel(functionName), "A")
    + SaveSegmentLines("LCL", "M") + SaveSegmentLines("ARG", "M")
    + SaveSegmentLines("THIS", "M") + SaveSegmentLines("THAT", "M")
  }

  /** The second part of `writeCall`: ARG := SP - numberOfArgs - 5. */
  function SetArgLines(numberOfArgs: int): (r: seq<string>)
    ensures |r| == 12 && NoLabelLines(r)
  {
    ["@SP", "D=M", "@ARG", "M=D"]
    + SetDLines(numberOfArgs) + ["@ARG", "M=M-D"]
    + SetDLines(5) + ["@ARG", "M=M-D"]
  }

  /** `writeCall`. */
  function CallLines(functionName: string, numberOfArgs: int): (r: seq<string>)
    ensures |r| == 54 && NoLabelLines(r[..53]) && IsLabelLine(r[53])
  {
    CallCodeLines(functionName, numberOfArgs) + LabelLines(ReturnLabel(functionName))
  }

  /** One iteration of the loop in `writeFunction`: RAM[LCL + index] := 0. */
  function ZeroLocalLines(index: int): (r: seq<string>)
    ensures |r| == 6 && NoLabelLines(r)
  {
    SetDLines(index) + ["@LCL", "D=M+D", "A=D", "M=0"]
  }

  /** The first `count` iterations of that loop. */
  function ZeroLocalsLines(count: int): (r: seq<string>)
    ensures |r| == 6 * (if count < 0 then 0 else count) && NoLabelLines(r)
  {
    if count <= 0 then [] else ZeroLocalsLines(count - 1) + ZeroLocalLines(count - 1)
  }

  /** Every count of locals below one gives no zeroing run. */
  lemma ZeroLocalsSame(count: int, other: int)
    requires count == other || (count <= 0 && other <= 0)
    ensures ZeroLocalsLines(count) == ZeroLocalsLines(other)
  {
  }

  /** `writeFunction`. */
  function FunctionLines(labelName: string, numberOfLocals: int): (r: seq<string>)
    ensures |r| == 1 + 6 * (if numberOfLocals < 0 then 0 else numberOfLocals)
  {
    LabelLines(labelName) + ZeroLocalsLines(numberOfLocals)
  }

  /** `positions_from_frame` in `_reposition_segments`. */
  const FrameOffsets: map<string, int> := map["THAT" := 1, "THIS" := 2, "ARG" := 3, "LCL" := 4]

  /** `_reposition_segments`: segment := RAM[FRAME - offset]. */
  function RepositionLines(segment: string): (r: seq<string>)
    requires segment in FrameOffsets
    ensures |r| == 8 && NoLabelLines(r)
  {
    SetDLines(FrameOffsets[segment]) + ["@FRAME", "D=M-D", "A=D", "D=M"] + ["@" + segment, "M=D"]
  }

  /** `writeReturn`. */
  function ReturnLines(): (r: seq<string>)
    ensures |r| == 54 && NoLabelLines(r)
  {
    ReturnValueLines() + RestoreSegmentsLines()
    + SetDLines(5) + ["@FRAME", "D=M-D", "A=D", "0;JMP"]
  }

  /** The first part of `writeReturn`: FRAME := LCL, RAM[ARG] := pop(), SP := ARG + 1. */
  function ReturnValueLines(): (r: seq<string>)
    ensures |r| == 16 && NoLabelLines(r)
  {
    ["@LCL", "D=M", "@FRAME", "M=D"]
    + PopToDLines() + ["@ARG", "A=M", "M=D"]
    + ["@ARG", "D=M+1", "@SP", "M=D"]
  }

  /** The middle part of `writeReturn`: THAT, THIS, ARG, LCL := their saved values. */
  function RestoreSegmentsLines(): (r: seq<string>)
    ensures |r| == 32 && NoLabelLines(r)
  {
    RepositionLines("THAT") + RepositionLines("THIS") + RepositionLines("ARG") + RepositionLines("LCL")
  }

  /** The lines `close` writes, entered with counter `c`. */
  function CloseLines(c: int): (r: seq<string>)
    ensures |r| == 2 && NoLabelLines(r)
  {
    [At(c + 2), "0;JMP"]
  }

  /** `writeInit`: SP := 256, then call Sys.init with no arguments. */
  function InitLines(): (r: seq<string>)
    ensures |r| == 58
  {
    ["@256", "D=A", "@SP", "M=D"] + CallLines("Sys.init", 0)
  }

  // ---------------------------------------------------------------------------
  // Output stream and writer
  // ---------------------------------------------------------------------------

  /** `Filestream` with the file replaced by the list of lines written so far. */
  class Filestream {
    var lines: seq<string>
    var globalCounter: int

    constructor ()
      ensures lines == [] && globalCounter == -1
    {
      lines := [];
      globalCounter := -1;
    }

    /** `write`: one line out, counter up by one. */
    method Write(line: string)
      modifies this
      ensures lines == old(lines) + [line]
      ensures globalCounter == old(globalCounter) + 1
    {
      lines := lines + [line];
      globalCounter := globalCounter + 1;
    }

    /** Exactly `added` was written since the stream held `lines0` with counter `counter0`. */
    ghost predicate Appended(lines0: seq<string>, counter0: int, added: seq<string>)
      reads this
    {
      lines == lines0 + added && globalCounter == counter0 + |added|
    }

    /**
     * How far the counter is ahead of the ROM address of the last instruction
     * written; the counted jump targets are right exactly when this is 0.
     */
    ghost function Drift(): int
      reads this
    {
      globalCounter - (|Rom(lines)| - 1)
    }
  }

  /** `CodeWriter`. */
  class CodeWriter {
    const fs: Filestream
    /** Unset until `setFileName` is called. */
    var filename: Option<string>

    /** `CodeWriter.__init__` with an empty output in place of the opened file. */
    constructor ()
      ensures fresh(fs) && fs.lines == [] && fs.globalCounter == -1 && fs.Drift() == 0
      ensures filename == None
    {
      fs := new Filestream();
      filename := None;
    }

    /** `setFileName`: only records the name; the output is not touched. */
    method SetFileName(name: string)
      modifies this
      ensures filename == Some(name) && fs.lines == old(fs.lines) && fs.globalCounter == old(fs.globalCounter)
    {
      filename := Some(name);
    }

    // ---- private helpers ----
    // Each appends the lines of the function of the same role. The ghost
    // `acc` records, piece by piece, what has been appended since `l0`.

    method SetDToIndex(index: int)
      modifies fs
      ensures fs.Appended(old(fs.lines), old(fs.globalCounter), SetDLines(index))
    {
      fs.Write(At(index));
      fs.Write("D=A");
    }

    method IncrementSP()
      modifies fs
      ensures fs.Appended(old(fs.lines), old(fs.globalCounter), IncrementSPLines())
    {
      fs.Write("@SP");
      fs.Write("M=M+1");
    }

    method DecreaseSP()
      modifies fs
      ensures fs.Appended(old(fs.lines), old(fs.globalCounter), DecreaseSPLines())
    {
      fs.Write("@SP");
      fs.Write("M=M-1");
    }

    method SetAToTopOfStack()
      modifies fs
      ensures fs.Appended(old(fs.lines), old(fs.globalCounter), TopOfStackLines())
    {
      fs.Write("@SP");
      fs.Write("A=M");
    }

    method PushDToStack()
      modifies fs
      ensures fs.Appended(old(fs.lines), old(fs.globalCounter), PushDLines())
    {
      ghost var l0 := fs.lines;
      fs.Write("@SP");
      fs.Write("A=M");
      fs.Write("M=D");
      ghost var acc := ["@SP", "A=M", "M=D"];
      assert fs.lines == l0 + acc;
      IncrementSP();
      acc := Extend(l0, acc, IncrementSPLines(), fs.lines);
    }

    method PopToD()
      modifies fs
      ensures fs.Appended(old(fs.lines), old(fs.globalCounter), PopToDLines())
    {
      ghost var l0 := fs.lines;
      DecreaseSP();
      ghost var mark := fs.lines;
      fs.Write("@SP");
      fs.Write("A=M");
      fs.Write("D=M");
      ghost var acc := Extend(l0, DecreaseSPLines(), ["@SP", "A=M", "D=M"], fs.lines);
    }

    /** `_add`, `_sub`, `_and`, `_or` differ only in the computing line. */
    method Binary(op: string)
      requires IsBinaryOp(op)
      modifies fs
      ensures fs.Appended(old(fs.lines), old(fs.globalCounter), BinaryLines(op))
    {
      ghost var l0 := fs.lines;
      PopToD();
      DecreaseSP();
      ghost var acc := Extend(l0, PopToDLines(), DecreaseSPLines(), fs.lines);
      SetAToTopOfStack();
      acc := Extend(l0, acc, TopOfStackLines(), fs.lines);
      fs.Write(op);
      acc := Extend(l0, acc, [op], fs.lines);
      IncrementSP();
      acc := Extend(l0, acc, IncrementSPLines(), fs.lines);
    }

    /** `_neg` and `_not`. */
    method Unary(op: string)
      requires op in {"M=-M", "M=!M"}
      modifies fs
      ensures fs.Appended(old(fs.lines), old(fs.globalCounter), UnaryLines(op))
    {
      ghost var l0 := fs.lines;
      DecreaseSP();
      SetAToTopOfStack();
      ghost var acc := Extend(l0, DecreaseSPLines(), TopOfStackLines(), fs.lines);
      fs.Write(op);
      acc := Extend(l0, acc, [op], fs.lines);
      IncrementSP();
      acc := Extend(l0, acc, IncrementSPLines(), fs.lines);
    }

    method PushFalse()
      modifies fs
      ensures fs.Appended(old(fs.lines), old(fs.globalCounter), PushFalseLines(old(fs.globalCounter)))
    {
      ghost var l0 := fs.lines;
      fs.Write("@SP");
      fs.Write("A=M");
      fs.Write("M=0");
      ghost var acc := ["@SP", "A=M", "M=0"];
      assert fs.lines == l0 + acc;
      IncrementSP();
      acc := Extend(l0, acc, IncrementSPLines(), fs.lines);
      var count := fs.globalCounter + 8;
      ghost var mark := fs.lines;
      fs.Write(At(count));
      fs.Write("0;JMP");
      acc := Extend(l0, acc, [At(count), "0;JMP"], fs.lines);
    }

    method PushTrue()
      modifies fs
      ensures fs.Appended(old(fs.lines), old(fs.globalCounter), PushTrueLines())
    {
      ghost var l0 := fs.lines;
      fs.Write("@SP");
      fs.Write("A=M");
      fs.Write("M=-1");
      ghost var acc := ["@SP", "A=M", "M=-1"];
      assert fs.lines == l0 + acc;
      IncrementSP();
      acc := Extend(l0, acc, IncrementSPLines(), fs.lines);
    }

    method Jump(jumpType: string)
      modifies fs
      ensures fs.Appended(old(fs.lines), old(fs.globalCounter), JumpLines(old(fs.globalCounter), jumpType))
    {
      ghost var l0 := fs.lines;
      var count := fs.globalCounter + 10;
      fs.Write(At(count));
      fs.Write("D;" + jumpType);
      ghost var acc := [At(count), "D;" + jumpType];
      assert fs.lines == l0 + acc;
      PushFalse();
      acc := Extend(l0, acc, PushFalseLines(old(fs.globalCounter) + 2), fs.lines);
      PushTrue();
      acc := Extend(l0, acc, PushTrueLines(), fs.lines);
    }

    /** `_eq`, `_gt`, `_lt` differ only in the jump condition. */
    method Compare(jumpType: string)
      modifies fs
      ensures fs.Appended(old(fs.lines), old(fs.globalCounter), CompareLines(old(fs.globalCounter), jumpType))
    {
      ghost var l0 := fs.lines;
      PopToD();
      DecreaseSP();
      ghost var acc := Extend(l0, PopToDLines(), DecreaseSPLines(), fs.lines);
      SetAToTopOfStack();
      acc := Extend(l0, acc, TopOfStackLines(), fs.lines);
      fs.Write("D=M-D");
      acc := Extend(l0, acc, ["D=M-D"], fs.lines);
      Jump(jumpType);
      acc := Extend(l0, acc, JumpLines(old(fs.globalCounter) + 10, jumpType), fs.lines);
    }

    method PushConstant(index: int)
      modifies fs
      ensures fs.Appended(old(fs.lines), old(fs.globalCounter), PushConstantLines(index))
    {
      ghost var l0 := fs.lines;
      SetDToIndex(index);
      PushDToStack();
      ghost var acc := Extend(l0, SetDLines(index), PushDLines(), fs.lines);
    }

    method PushSegmentIndex(segment: string, index: int, am: string)
      modifies fs
      ensures fs.Appended(old(fs.lines), old(fs.globalCounter), PushSegmentLines(segment, index, am))
    {
      ghost var l0 := fs.lines;
      SetDToIndex(index);
      ghost var mark := fs.lines;
      fs.Write("@" + segment);
      fs.Write("A=" + am + "+D");
      fs.Write("D=M");
      ghost var acc := Extend(l0, SetDLines(index), ["@" + segment, "A=" + am + "+D", "D=M"], fs.lines);
      PushDToStack();
      acc := Extend(l0, acc, PushDLines(), fs.lines);
    }

    method PopSegmentIndex(segment: string, index: int, am: string)
      modifies fs
      ensures fs.Appended(old(fs.lines), old(fs.globalCounter), PopSegmentLines(segment, index, am))
    {
      ghost var l0 := fs.lines;
      SaveTargetAddress(segment, index, am);
      StoreThroughR13();
      ghost var saved := SetDLines(index) + ["@" + segment, "D=" + am + "+D", "@R13", "M=D"];
      ghost var stored := PopToDLines() + ["@R13", "A=M", "M=D"];
      ghost var acc := Extend(l0, saved, stored, fs.lines);
      assert PopSegmentLines(segment, index, am) == saved + stored;
    }

    /** The first half of `_pop_segment_index`: R13 := segment + index. */
    method SaveTargetAddress(segment: string, index: int, am: string)
      modifies fs
      ensures fs.Appended(old(fs.lines), old(fs.globalCounter),
                          SetDLines(index) + ["@" + segment, "D=" + am + "+D", "@R13", "M=D"])
    {
      ghost var l0 := fs.lines;
      SetDToIndex(index);
      fs.Write("@" + segment);
      fs.Write("D=" + am + "+D");
      fs.Write("@R13");
      fs.Write("M=D");
      ghost var acc := Extend(l0, SetDLines(index), ["@" + segment, "D=" + am + "+D", "@R13", "M=D"], fs.lines);
    }

    /** The second half of `_pop_segment_index`: RAM[RAM[13]] := the popped value. */
    method StoreThroughR13()
      modifies fs
      ensures fs.Appended(old(fs.lines), old(fs.globalCounter), PopToDLines() + ["@R13", "A=M", "M=D"])
    {
      ghost var l0 := fs.lines;
      PopToD();
      fs.Write("@R13");
      fs.Write("A=M");
      fs.Write("M=D");
      ghost var acc := Extend(l0, PopToDLines(), ["@R13", "A=M", "M=D"], fs.lines);
    }

    method SaveSegmentAddress(segment: string, am: string)
      modifies fs
      ensures fs.Appended(old(fs.lines), old(fs.globalCounter), SaveSegmentLines(segment, am))
    {
      ghost var l0 := fs.lines;
      fs.Write("@" + segment);
      fs.Write("D=" + am);
      ghost var acc := ["@" + segment, "D=" + am];
      assert fs.lines == l0 + acc;
      PushDToStack();
      acc := Extend(l0, acc, PushDLines(), fs.lines);
    }

    method RepositionSegments(segment: string)
      requires segment in FrameOffsets
      modifies fs
      ensures fs.Appended(old(fs.lines), old(fs.globalCounter), RepositionLines(segment))
    {
      ghost var l0 := fs.lines;
      var position := FrameOffsets[segment];
      SetDToIndex(position);
      ghost var mark := fs.lines;
      fs.Write("@FRAME");
      fs.Write("D=M-D");
      fs.Write("A=D");
      fs.Write("D=M");
      ghost var acc := Extend(l0, SetDLines(position), ["@FRAME", "D=M-D", "A=D", "D=M"], fs.lines);
      mark := fs.lines;
      fs.Write("@" + segment);
      fs.Write("M=D");
      acc := Extend(l0, acc, ["@" + segment, "M=D"], fs.lines);
    }

    method SaveFrame(functionName: string)
      modifies fs
      ensures fs.Appended(old(fs.lines), old(fs.globalCounter), SaveFrameLines(functionName))
    {
      ghost var l0 := fs.lines;
      SaveSegmentAddress(ReturnLabel(functionName), "A");
      ghost var acc := SaveSegmentLines(ReturnLabel(functionName), "A");
      SaveSegmentAddress("LCL", "M");
      acc := Extend(l0, acc, SaveSegmentLines("LCL", "M"), fs.lines);
      SaveSegmentAddress("ARG", "M");
      acc := Extend(l0, acc, SaveSegmentLines("ARG", "M"), fs.lines);
      SaveSegmentAddress("THIS", "M");
      acc := Extend(l0, acc, SaveSegmentLines("THIS", "M"), fs.lines);
      SaveSegmentAddress("THAT", "M");
      acc := Extend(l0, acc, SaveSegmentLines("THAT", "M"), fs.lines);
    }

    method SetArg(numberOfArgs: int)
      modifies fs
      ensures fs.Appended(old(fs.lines), old(fs.globalCounter), SetArgLines(numberOfArgs))
    {
      ghost var l0 := fs.lines;
      fs.Write("@SP");
      fs.Write("D=M");
      fs.Write("@ARG");
      fs.Write("M=D");
      ghost var acc := ["@SP", "D=M", "@ARG", "M=D"];
      assert fs.lines == l0 + acc;
      SetDToIndex(numberOfArgs);
      acc := Extend(l0, acc, SetDLines(numberOfArgs), fs.lines);
      ghost var mark := fs.lines;
      fs.Write("@ARG");
      fs.Write("M=M-D");
      acc := Extend(l0, acc, ["@ARG", "M=M-D"], fs.lines);
      SetDToIndex(5);
      acc := Extend(l0, acc, SetDLines(5), fs.lines);
      mark := fs.lines;
      fs.Write("@ARG");
      fs.Write("M=M-D");
      acc := Extend(l0, acc, ["@ARG", "M=M-D"], fs.lines);
    }

    /** `writeCall` up to its return label. */
    method CallCode(functionName: string, numberOfArgs: int)
      modifies fs
      ensures fs.Appended(old(fs.lines), old(fs.globalCounter), CallCodeLines(functionName, numberOfArgs))
    {
      ghost var l0 := fs.lines;
      SaveFrame(functionName);
      SetArg(numberOfArgs);
      ghost var acc := Extend(l0, SaveFrameLines(functionName), SetArgLines(numberOfArgs), fs.lines);
      ghost var mark := fs.lines;
      fs.Write("@SP");
      fs.Write("D=M");
      fs.Write("@LCL");
      fs.Write("M=D");
      acc := Extend(l0, acc, ["@SP", "D=M", "@LCL", "M=D"], fs.lines);
      mark := fs.lines;
      fs.Write("@" + functionName);
      fs.Write("0;JMP");
      acc := Extend(l0, acc, ["@" + functionName, "0;JMP"], fs.lines);
    }

    method ZeroLocal(index: int)
      modifies fs
      ensures fs.Appended(old(fs.lines), old(fs.globalCounter), ZeroLocalLines(index))
    {
      ghost var l0 := fs.lines;
      SetDToIndex(index);
      ghost var mark := fs.lines;
      fs.Write("@LCL");
      fs.Write("D=M+D");
      fs.Write("A=D");
      fs.Write("M=0");
      ghost var acc := Extend(l0, SetDLines(index), ["@LCL", "D=M+D", "A=D", "M=0"], fs.lines);
    }

    method RestoreSegments()
      modifies fs
      ensures fs.Appended(old(fs.lines), old(fs.globalCounter), RestoreSegmentsLines())
    {
      ghost var l0 := fs.lines;
      RepositionSegments("THAT");
      RepositionSegments("THIS");
      ghost var acc := Extend(l0, RepositionLines("THAT"), RepositionLines("THIS"), fs.lines);
      RepositionSegments("ARG");
      acc := Extend(l0, acc, RepositionLines("ARG"), fs.lines);
      RepositionSegments("LCL");
      acc := Extend(l0, acc, RepositionLines("LCL"), fs.lines);
    }

    method ReturnValue()
      modifies fs
      ensures fs.Appended(old(fs.lines), old(fs.globalCounter), ReturnValueLines())
    {
      ghost var l0 := fs.lines;
      fs.Write("@LCL");
      fs.Write("D=M");
      fs.Write("@FRAME");
      fs.Write("M=D");
      ghost var acc := ["@LCL", "D=M", "@FRAME", "M=D"];
      assert fs.lines == l0 + acc;
      PopToD();
      acc := Extend(l0, acc, PopToDLines(), fs.lines);
      ghost var mark := fs.lines;
      fs.Write("@ARG");
      fs.Write("A=M");
      fs.Write("M=D");
      acc := Extend(l0, acc, ["@ARG", "A=M", "M=D"], fs.lines);
      mark := fs.lines;
      fs.Write("@ARG");
      fs.Write("D=M+1");
      fs.Write("@SP");
      fs.Write("M=D");
      acc := Extend(l0, acc, ["@ARG", "D=M+1", "@SP", "M=D"], fs.lines);
    }

    // ---- the commands ----

    /** `writeArithmetic`. */
    method WriteArithmetic(command: string)
      modifies fs
      ensures fs.Appended(old(fs.lines), old(fs.globalCounter), ArithmeticLines(command, old(fs.globalCounter)))
      ensures fs.Drift() == old(fs.Drift())
    {
      ghost var l0 := fs.lines;
      if command == "add" {
        Binary("M=M+D");
      } else if command == "sub" {
        Binary("M=M-D");
      } else if command == "eq" {
        Compare("JEQ");
      } else if command == "gt" {
        Compare("JGT");
      } else if command == "lt" {
        Compare("JLT");
      } else if command == "and" {
        Binary("M=M&D");
      } else if command == "or" {
        Binary("M=M|D");
      } else if command == "neg" {
        Unary("M=-M");
      } else if command == "not" {
        Unary("M=!M");
      } else {
        assert fs.lines == l0 + [];
      }
      RomAppendCode(l0, ArithmeticLines(command, old(fs.globalCounter)));
    }

    /** The push branch of `writePushPop`. */
    method Push(segment: string, index: int)
      modifies fs
      ensures fs.Appended(old(fs.lines), old(fs.globalCounter), PushLines(segment, index))
    {
      if segment == "constant" {
        PushConstant(index);
      } else if segment == "local" {
        PushSegmentIndex("LCL", index, "M");
      } else if segment == "argument" {
        PushSegmentIndex("ARG", index, "M");
      } else if segment == "this" {
        PushSegmentIndex("THIS", index, "M");
      } else if segment == "that" {
        PushSegmentIndex("THAT", index, "M");
      } else if segment == "pointer" {
        PushSegmentIndex("R3", index, "A");
      } else if segment == "temp" {
        PushSegmentIndex("R5", index, "A");
      } else if segment == "static" {
        PushSegmentIndex("16", index, "A");
      } else {
        assert fs.lines == old(fs.lines) + [];
      }
    }

    /** The pop branch of `writePushPop`. */
    method Pop(segment: string, index: int)
      modifies fs
      ensures fs.Appended(old(fs.lines), old(fs.globalCounter), PopLines(segment, index))
    {
      if segment == "local" {
        PopSegmentIndex("LCL", index, "M");
      } else if segment == "argument" {
        PopSegmentIndex("ARG", index, "M");
      } else if segment == "this" {
        PopSegmentIndex("THIS", index, "M");
      } else if segment == "that" {
        PopSegmentIndex("THAT", index, "M");
      } else if segment == "pointer" {
        PopSegmentIndex("R3", index, "A");
      } else if segment == "temp" {
        PopSegmentIndex("R5", index, "A");
      } else if segment == "static" {
        PopSegmentIndex("16", index, "A");
      } else {
        assert fs.lines == old(fs.lines) + [];
      }
    }

    /** `writePushPop`: every kind other than push takes the pop branch. */
    method WritePushPop(kind: VmParser.CommandType, segment: string, index: int)
      modifies fs
      ensures fs.Appended(old(fs.lines), old(fs.globalCounter), PushPopLines(kind, segment, index))
      ensures fs.Drift() == old(fs.Drift())
    {
      ghost var l0 := fs.lines;
      if kind == VmParser.C_Push {
        Push(segment, index);
      } else {
        Pop(segment, index);
      }
      RomAppendCode(l0, PushPopLines(kind, segment, index));
    }

    /** `writeLabel`: the label line is written and then taken back off the counter. */
    method WriteLabel(labelName: string)
      modifies fs
      ensures fs.lines == old(fs.lines) + LabelLines(labelName)
      ensures fs.globalCounter == old(fs.globalCounter)
      ensures fs.Drift() == old(fs.Drift())
    {
      ghost var l0 := fs.lines;
      fs.Write("(" + labelName + ")");
      fs.globalCounter := fs.globalCounter - 1;
      RomAppendLabel(l0, labelName);
    }

    /** `writeGoto`. */
    method WriteGoto(labelName: string)
      modifies fs
      ensures fs.Appended(old(fs.lines), old(fs.globalCounter), GotoLines(labelName))
      ensures fs.Drift() == old(fs.Drift())
    {
      ghost var l0 := fs.lines;
      fs.Write("@" + labelName);
      fs.Write("0;JMP");
      assert fs.lines == l0 + GotoLines(labelName);
      RomAppendCode(l0, GotoLines(labelName));
    }

    /** `writeIf`. */
    method WriteIf(labelName: string)
      modifies fs
      ensures fs.Appended(old(fs.lines), old(fs.globalCounter), IfLines(labelName))
      ensures fs.Drift() == old(fs.Drift())
    {
      ghost var l0 := fs.lines;
      PopToD();
      ghost var mark := fs.lines;
      fs.Write("@" + labelName);
      fs.Write("D;JNE");
      ghost var acc := Extend(l0, PopToDLines(), ["@" + labelName, "D;JNE"], fs.lines);
      RomAppendCode(l0, IfLines(labelName));
    }

    /**
     * `writeCall` as written: its closing return label goes through `write`
     * like an instruction, so the counter ends one ahead of the ROM address.
     */
    method WriteCall(functionName: string, numberOfArgs: int)
      modifies fs
      ensures fs.Appended(old(fs.lines), old(fs.globalCounter), CallLines(functionName, numberOfArgs))
      ensures fs.Drift() == old(fs.Drift()) + 1
    {
      ghost var l0 := fs.lines;
      CallCode(functionName, numberOfArgs);
      fs.Write("(" + ReturnLabel(functionName) + ")");
      ghost var acc := Extend(l0, CallCodeLines(functionName, numberOfArgs), LabelLines(ReturnLabel(functionName)), fs.lines);
      CallRom(l0, functionName, numberOfArgs);
    }

    /**
     * `writeCall` with the return label taken back off the counter, as
     * `writeLabel` and `writeFunction` do: the counter stays in step.
     */
    method WriteCallSynced(functionName: string, numberOfArgs: int)
      modifies fs
      ensures fs.lines == old(fs.lines) + CallLines(functionName, numberOfArgs)
      ensures fs.globalCounter == old(fs.globalCounter) + 53
      ensures fs.Drift() == old(fs.Drift())
    {
      ghost var l0 := fs.lines;
      CallCode(functionName, numberOfArgs);
      fs.Write("(" + ReturnLabel(functionName) + ")");
      fs.globalCounter := fs.globalCounter - 1;
      ghost var acc := Extend(l0, CallCodeLines(functionName, numberOfArgs), LabelLines(ReturnLabel(functionName)), fs.lines);
      CallRom(l0, functionName, numberOfArgs);
    }

    /** The loop of `writeFunction`: one zeroing run per local. */
    method ZeroLocals(numberOfLocals: int)
      modifies fs
      ensures fs.Appended(old(fs.lines), old(fs.globalCounter), ZeroLocalsLines(numberOfLocals))
    {
      ghost var l0 := fs.lines;
      var index := 0;
      while index < numberOfLocals
        invariant 0 <= index <= (if numberOfLocals < 0 then 0 else numberOfLocals)
        invariant fs.Appended(l0, old(fs.globalCounter), ZeroLocalsLines(index))
      {
        ZeroLocal(index);
        ghost var done := Extend(l0, ZeroLocalsLines(index), ZeroLocalLines(index), fs.lines);
        index := index + 1;
      }
      ZeroLocalsSame(index, numberOfLocals);
    }

    /** `writeFunction`: the label, then one zeroing run per local; SP is left alone. */
    method WriteFunction(labelName: string, numberOfLocals: int)
      modifies fs
      ensures fs.lines == old(fs.lines) + FunctionLines(labelName, numberOfLocals)
      ensures fs.globalCounter == old(fs.globalCounter) + |FunctionLines(labelName, numberOfLocals)| - 1
      ensures fs.Drift() == old(fs.Drift())
    {
      ghost var l0 := fs.lines;
      fs.Write("(" + labelName + ")");
      fs.globalCounter := fs.globalCounter - 1;
      ZeroLocals(numberOfLocals);
      ghost var all := Extend(l0, LabelLines(labelName), ZeroLocalsLines(numberOfLocals), fs.lines);
      FunctionRom(l0, labelName, numberOfLocals);
    }

    /** `writeReturn`. */
    method WriteReturn()
      modifies fs
      ensures fs.Appended(old(fs.lines), old(fs.globalCounter), ReturnLines())
      ensures fs.Drift() == old(fs.Drift())
    {
      ghost var l0 := fs.lines;
      ReturnValue();
      RestoreSegments();
      ghost var acc := Extend(l0, ReturnValueLines(), RestoreSegmentsLines(), fs.lines);
      SetDToIndex(5);
      acc := Extend(l0, acc, SetDLines(5), fs.lines);
      ghost var mark := fs.lines;
      fs.Write("@FRAME");
      fs.Write("D=M-D");
      fs.Write("A=D");
      fs.Write("0;JMP");
      acc := Extend(l0, acc, ["@FRAME", "D=M-D", "A=D", "0;JMP"], fs.lines);
      RomAppendCode(l0, ReturnLines());
    }

    /** `writeInit`: SP := 256, then the call to Sys.init through `writeCall` as written. */
    method WriteInit()
      modifies fs
      ensures fs.Appended(old(fs.lines), old(fs.globalCounter), InitLines())
      ensures fs.Drift() == old(fs.Drift()) + 1
    {
      ghost var l0 := fs.lines;
      fs.Write("@256");
      fs.Write("D=A");
      fs.Write("@SP");
      fs.Write("M=D");
      ghost var acc := ["@256", "D=A", "@SP", "M=D"];
      assert fs.lines == l0 + acc;
      RomAppendCode(l0, acc);
      WriteCall("Sys.init", 0);
      acc := Extend(l0, acc, CallLines("Sys.init", 0), fs.lines);
    }

    /** `close`, without closing the file: a jump to its own address. */
    method Close()
      modifies fs
      ensures fs.Appended(old(fs.lines), old(fs.globalCounter), CloseLines(old(fs.globalCounter)))
      ensures fs.Drift() == old(fs.Drift())
    {
      ghost var l0 := fs.lines;
      var counter := fs.globalCounter + 2;
      fs.Write(At(counter));
      fs.Write("0;JMP");
      assert fs.lines == l0 + CloseLines(old(fs.globalCounter));
      RomAppendCode(l0, CloseLines(old(fs.globalCounter)));
    }
  }

  // ---------------------------------------------------------------------------
  // ROM addresses of appended lines
  // ---------------------------------------------------------------------------

  /** Bookkeeping for the writer methods: `piece` was just appended after `acc`. */
  ghost function Extend(l0: seq<string>, acc: seq<string>, piece: seq<string>, lines: seq<string>): (r: seq<string>)
    requires lines == (l0 + acc) + piece
    ensures r == acc + piece && lines == l0 + r
  {
    assert (l0 + acc) + piece == l0 + (acc + piece);
    acc + piece
  }

  lemma {:induction false} RomAppend(a: seq<string>, b: seq<string>)
    ensures Rom(a + b) == Rom(a) + Rom(b)
  {
    if a == [] {
      assert a + b == b;
    } else {
      assert (a + b)[1..] == a[1..] + b;
      RomAppend(a[1..], b);
    }
  }

  lemma {:induction false} RomOfCode(code: seq<string>)
    requires NoLabelLines(code)
    ensures Rom(code) == code
  {
    if code != [] {
      RomOfCode(code[1..]);
    }
  }

  /** Appending instructions appends them to the ROM image. */
  lemma {:induction false} RomAppendCode(before: seq<string>, code: seq<string>)
    requires NoLabelLines(code)
    ensures Rom(before + code) == Rom(before) + code
  {
    RomAppend(before, code);
    RomOfCode(code);
  }

  /** Appending a label line leaves the ROM image as it was. */
  lemma {:induction false} RomAppendLabel(before: seq<string>, labelName: string)
    ensures Rom(before + LabelLines(labelName)) == Rom(before)
  {
    RomAppend(before, LabelLines(labelName));
    assert Rom(LabelLines(labelName)) == [];
  }

  /** A label followed by plain code adds only that code to the ROM image. */
  lemma {:induction false} RomLabelThenCode(whole: seq<string>, before: seq<string>, labelName: string, code: seq<string>)
    requires whole == before + (LabelLines(labelName) + code) && NoLabelLines(code)
    ensures Rom(whole) == Rom(before) + code
  {
    var declared := before + LabelLines(labelName);
    assert whole == declared + code;
    RomAppendLabel(before, labelName);
    RomAppendCode(declared, code);
  }

  /** A function declaration adds only its zeroing code to the ROM image. */
  lemma {:induction false} FunctionRom(before: seq<string>, labelName: string, numberOfLocals: int)
    ensures Rom(before + FunctionLines(labelName, numberOfLocals))
         == Rom(before) + ZeroLocalsLines(numberOfLocals)
  {
    RomLabelThenCode(before + FunctionLines(labelName, numberOfLocals), before, labelName, ZeroLocalsLines(numberOfLocals));
  }

  /** A call adds its 53 instructions to the ROM image; its label adds none. */
  lemma {:induction false} CallRom(before: seq<string>, functionName: string, numberOfArgs: int)
    ensures Rom(before + CallLines(functionName, numberOfArgs))
         == Rom(before) + CallCodeLines(functionName, numberOfArgs)
  {
    var code := CallCodeLines(functionName, numberOfArgs);
    assert before + CallLines(functionName, numberOfArgs) == (before + code) + LabelLines(ReturnLabel(functionName));
    RomAppendLabel(before + code, ReturnLabel(functionName));
    RomAppendCode(before, code);
  }
}
