/**
 * The mnemonic-to-bits tables of the Hack assembler (06/Assembler/code.py):
 * `dest`, `comp` and `jump` of a C-instruction. A mnemonic outside its
 * table is a KeyError.
 *
 * The partners of the tables are the meanings the Hack machine gives the
 * bits: the dest bits name the registers written, the jump bits the signs of
 * the ALU output that cause a jump, and the six comp bits drive the ALU
 * (zx, nx, zy, ny, f, no), which `Alu` below computes on 16-bit words.
 */
module HackCode {
  import opened Results
  import opened PyStrings

  const DestTable: map<string, string> := map[
    "null" := "000", "M" := "001", "D" := "010", "MD" := "011",
    "A" := "100", "AM" := "101", "AD" := "110", "AMD" := "111"]

  const JumpTable: map<string, string> := map[
    "null" := "000", "JGT" := "001", "JEQ" := "010", "JGE" := "011",
    "JLT" := "100", "JNE" := "101", "JLE" := "110", "JMP" := "111"]

  const CompTable: map<string, string> := map[
    "0" := "101010", "1" := "111111", "-1" := "111010",
    "D" := "001100", "A" := "110000", "!D" := "001101", "!A" := "110001",
    "-D" := "001111", "-A" := "110011", "D+1" := "011111", "A+1" := "110111",
    "D-1" := "001110", "A-1" := "110010", "D+A" := "000010", "D-A" := "010011",
    "A-D" := "000111", "D&A" := "000000", "D|A" := "010101"]

  /** `Code.dest`. */
  function Dest(mnemonic: string): (r: Result<string>)
    ensures r.Err? <==> mnemonic !in DestTable
    ensures r.Err? ==> r.error == KeyError
    ensures r.Ok? ==> |r.value| == 3 && AllBits(r.value)
  {
    if mnemonic in DestTable then Ok(DestTable[mnemonic]) else Err(KeyError)
  }

  /** `Code.jump`. */
  function Jump(mnemonic: string): (r: Result<string>)
    ensures r.Err? <==> mnemonic !in JumpTable
    ensures r.Err? ==> r.error == KeyError
    ensures r.Ok? ==> |r.value| == 3 && AllBits(r.value)
  {
    if mnemonic in JumpTable then Ok(JumpTable[mnemonic]) else Err(KeyError)
  }

  /** `Code.comp`: `M` and `A` are interchangeable, so every `M` is read as `A`. */
  function Comp(mnemonic: string): (r: Result<string>)
    ensures r.Err? <==> ReplaceChar(mnemonic, 'M', 'A') !in CompTable
    ensures r.Err? ==> r.error == KeyError
    ensures r.Ok? ==> |r.value| == 6 && AllBits(r.value)
  {
    var replaced := ReplaceChar(mnemonic, 'M', 'A');
    if replaced in CompTable then Ok(CompTable[replaced]) else Err(KeyError)
  }

  // ---------------------------------------------------------------------------
  // dest
  // ---------------------------------------------------------------------------

  /** Each dest bit, left to right, is set exactly when A, D, M is a destination. */
  lemma {:induction false} DestBitsNameRegisters(mnemonic: string)
    requires mnemonic in DestTable
    ensures var bits := DestTable[mnemonic];
      (bits[0] == '1' <==> 'A' in mnemonic)
      && (bits[1] == '1' <==> 'D' in mnemonic)
      && (bits[2] == '1' <==> 'M' in mnemonic)
  {
  }

  /** The dest table has the eight mnemonics, and no two share a code. */
  lemma {:induction false} DestTableShape()
    ensures DestTable.Keys == {"null", "M", "D", "MD", "A", "AM", "AD", "AMD"}
    ensures forall a, b :: a in DestTable && b in DestTable && DestTable[a] == DestTable[b] ==> a == b
  {
    forall a, b | a in DestTable && b in DestTable && DestTable[a] == DestTable[b]
      ensures a == b
    {
      DestBitsNameRegisters(a);
      DestBitsNameRegisters(b);
    }
  }

  // ---------------------------------------------------------------------------
  // jump
  // ---------------------------------------------------------------------------

  /** Whether a jump mnemonic jumps for an ALU output of the given sign (-1, 0 or 1). */
  predicate JumpsOn(mnemonic: string, sign: int)
    requires mnemonic in JumpTable
  {
    match mnemonic
    case "JGT" => sign > 0
    case "JEQ" => sign == 0
    case "JGE" => sign >= 0
    case "JLT" => sign < 0
    case "JNE" => sign != 0
    case "JLE" => sign <= 0
    case "JMP" => true
    case _ => false
  }

  /** The jump bits, left to right, are set exactly when it jumps on a negative, zero, positive output. */
  lemma {:induction false} JumpBitsNameSigns(mnemonic: string)
    requires mnemonic in JumpTable
    ensures var bits := JumpTable[mnemonic];
      (bits[0] == '1' <==> JumpsOn(mnemonic, -1))
      && (bits[1] == '1' <==> JumpsOn(mnemonic, 0))
      && (bits[2] == '1' <==> JumpsOn(mnemonic, 1))
  {
  }

  /** The jump table has the eight mnemonics, and no two share a code. */
  lemma {:induction false} JumpTableShape()
    ensures JumpTable.Keys == {"null", "JGT", "JEQ", "JGE", "JLT", "JNE", "JLE", "JMP"}
    ensures forall a, b :: a in JumpTable && b in JumpTable && JumpTable[a] == JumpTable[b] ==> a == b
  {
    forall a, b | a in JumpTable && b in JumpTable && JumpTable[a] == JumpTable[b]
      ensures a == b
    {
      JumpBitsNameSigns(a);
      JumpBitsNameSigns(b);
      assert forall s :: -1 <= s <= 1 ==> (JumpsOn(a, s) <==> JumpsOn(b, s));
    }
  }

  // ---------------------------------------------------------------------------
  // comp
  // ---------------------------------------------------------------------------

  /** A 16-bit word of the Hack machine, as its unsigned value. */
  type Word = x: int | 0 <= x < 0x1_0000

  /** `x` reduced to a word: two's-complement wrap-around. */
  function Wrap(x: int): Word {
    x % 0x1_0000
  }

  /** Bitwise negation of a word. */
  function Not(x: Word): Word {
    0xFFFF - x
  }

  /** The `k` low bits of `x` and `y` combined bit by bit with `and` (or `or`). */
  function BitsAnd(x: nat, y: nat, k: nat): (r: nat)
    ensures r < Pow2(k)
  {
    if k == 0 then 0 else (if x % 2 == 1 && y % 2 == 1 then 1 else 0) + 2 * BitsAnd(x / 2, y / 2, k - 1)
  }

  function BitsOr(x: nat, y: nat, k: nat): (r: nat)
    ensures r < Pow2(k)
  {
    if k == 0 then 0 else (if x % 2 == 1 || y % 2 == 1 then 1 else 0) + 2 * BitsOr(x / 2, y / 2, k - 1)
  }

  /** De Morgan on `k`-bit numbers: `or` is the negation of the `and` of the negations. */
  lemma {:induction false} BitsDeMorgan(x: nat, y: nat, k: nat)
    requires x < Pow2(k) && y < Pow2(k)
    ensures Pow2(k) - 1 - BitsAnd(Pow2(k) - 1 - x, Pow2(k) - 1 - y, k) == BitsOr(x, y, k)
  {
    if k > 0 {
      var m := Pow2(k - 1);
      assert Pow2(k) - 1 - x == 2 * (m - 1 - x / 2) + (1 - x % 2);
      assert Pow2(k) - 1 - y == 2 * (m - 1 - y / 2) + (1 - y % 2);
      BitsDeMorgan(x / 2, y / 2, k - 1);
    }
  }

  lemma {:induction false} Pow2Of16()
    ensures Pow2(16) == 0x1_0000
  {
    assert Pow2(8) == 256;
  }

  function And(x: Word, y: Word): Word {
    Pow2Of16();
    BitsAnd(x, y, 16)
  }

  function Or(x: Word, y: Word): Word {
    Pow2Of16();
    BitsOr(x, y, 16)
  }

  /** All ones is the identity of `and` on `k` bits. */
  lemma {:induction false} BitsAndOnes(x: nat, k: nat)
    requires x < Pow2(k)
    ensures BitsAnd(x, Pow2(k) - 1, k) == x && BitsAnd(Pow2(k) - 1, x, k) == x
  {
    if k > 0 {
      var m := Pow2(k - 1);
      assert Pow2(k) - 1 == 2 * (m - 1) + 1;
      BitsAndOnes(x / 2, k - 1);
    }
  }

  lemma {:induction false} AndOnes(x: Word)
    ensures And(x, 0xFFFF) == x && And(0xFFFF, x) == x
  {
    Pow2Of16();
    BitsAndOnes(x, 16);
  }

  lemma {:induction false} OrByDeMorgan(x: Word, y: Word)
    ensures Not(And(Not(x), Not(y))) == Or(x, y)
  {
    Pow2Of16();
    BitsDeMorgan(x, y, 16);
  }

  /** The Hack ALU on x (D) and y (A or M) under the flags zx, nx, zy, ny, f, no. */
  function AluFlags(x: Word, y: Word, zx: bool, nx: bool, zy: bool, ny: bool, f: bool, no: bool): Word {
    var x1 := if zx then 0 else x;
    var x2 := if nx then Not(x1) else x1;
    var y1 := if zy then 0 else y;
    var y2 := if ny then Not(y1) else y1;
    var out := if f then Wrap(x2 + y2) else And(x2, y2);
    if no then Not(out) else out
  }

  /** The ALU driven by the six comp bits of a C-instruction, left to right. */
  function Alu(x: Word, y: Word, bits: string): Word
    requires |bits| == 6
  {
    AluFlags(x, y, bits[0] == '1', bits[1] == '1', bits[2] == '1', bits[3] == '1', bits[4] == '1', bits[5] == '1')
  }

  /** What a comp mnemonic computes from D and A (A standing for M as well). */
  function CompMeaning(mnemonic: string, d: Word, a: Word): Word
    requires mnemonic in CompTable
  {
    match mnemonic
    case "0" => 0
    case "1" => 1
    case "-1" => Wrap(-1)
    case "D" => d
    case "A" => a
    case "!D" => Not(d)
    case "!A" => Not(a)
    case "-D" => Wrap(0 - d)
    case "-A" => Wrap(0 - a)
    case "D+1" => Wrap(d + 1)
    case "A+1" => Wrap(a + 1)
    case "D-1" => Wrap(d - 1)
    case "A-1" => Wrap(a - 1)
    case "D+A" => Wrap(d + a)
    case "D-A" => Wrap(d - a)
    case "A-D" => Wrap(a - d)
    case "D&A" => And(d, a)
    case _ => Or(d, a)
  }

  /** Every comp code makes the ALU compute what its mnemonic says, for all D and A. */
  lemma {:induction false} CompCodesCompute(mnemonic: string, d: Word, a: Word)
    requires mnemonic in CompTable
    ensures |CompTable[mnemonic]| == 6
    ensures Alu(d, a, CompTable[mnemonic]) == CompMeaning(mnemonic, d, a)
  {
    if mnemonic == "0" || mnemonic == "1" || mnemonic == "-1" {
      CompCodesConstants(mnemonic, d, a);
    } else if mnemonic == "D" || mnemonic == "A" || mnemonic == "!D" || mnemonic == "!A" {
      CompCodesRegisters(mnemonic, d, a);
    } else if mnemonic == "D&A" || mnemonic == "D|A" {
      CompCodesAndOr(mnemonic, d, a);
    } else if mnemonic == "-D" || mnemonic == "-A" {
      CompCodesNegate(mnemonic, d, a);
    } else if mnemonic == "D+1" || mnemonic == "A+1" {
      CompCodesIncrement(mnemonic, d, a);
    } else if mnemonic == "D-1" || mnemonic == "A-1" {
      CompCodesDecrement(mnemonic, d, a);
    } else if mnemonic == "D+A" {
      CompCodesSum(mnemonic, d, a);
    } else {
      assert mnemonic == "D-A" || mnemonic == "A-D";
      CompCodesDifferences(mnemonic, d, a);
    }
  }

  /** The codes of the constants. */
  lemma {:induction false} CompCodesConstants(mnemonic: string, d: Word, a: Word)
    requires mnemonic == "0" || mnemonic == "1" || mnemonic == "-1"
    ensures mnemonic in CompTable && |CompTable[mnemonic]| == 6
    ensures Alu(d, a, CompTable[mnemonic]) == CompMeaning(mnemonic, d, a)
  {
  }

  /** The codes that pass a register through, negated or not. */
  lemma {:induction false} CompCodesRegisters(mnemonic: string, d: Word, a: Word)
    requires mnemonic == "D" || mnemonic == "A" || mnemonic == "!D" || mnemonic == "!A"
    ensures mnemonic in CompTable && |CompTable[mnemonic]| == 6
    ensures Alu(d, a, CompTable[mnemonic]) == CompMeaning(mnemonic, d, a)
  {
    AndOnes(d);
    AndOnes(a);
  }

  /** The codes of `D&A` and of `D|A`, which the ALU computes as the negated `and` of the negations. */
  lemma {:induction false} CompCodesAndOr(mnemonic: string, d: Word, a: Word)
    requires mnemonic == "D&A" || mnemonic == "D|A"
    ensures mnemonic in CompTable && |CompTable[mnemonic]| == 6
    ensures Alu(d, a, CompTable[mnemonic]) == CompMeaning(mnemonic, d, a)
  {
    if mnemonic == "D|A" {
      OrByDeMorgan(d, a);
    }
  }

  /** The codes of the arithmetic negations. */
  lemma {:induction false} CompCodesNegate(mnemonic: string, d: Word, a: Word)
    requires mnemonic == "-D" || mnemonic == "-A"
    ensures mnemonic in CompTable && |CompTable[mnemonic]| == 6
    ensures Alu(d, a, CompTable[mnemonic]) == CompMeaning(mnemonic, d, a)
  {
  }

  /** The codes of the increments. */
  lemma {:induction false} CompCodesIncrement(mnemonic: string, d: Word, a: Word)
    requires mnemonic == "D+1" || mnemonic == "A+1"
    ensures mnemonic in CompTable && |CompTable[mnemonic]| == 6
    ensures Alu(d, a, CompTable[mnemonic]) == CompMeaning(mnemonic, d, a)
  {
  }

  /** The codes of the decrements. */
  lemma {:induction false} CompCodesDecrement(mnemonic: string, d: Word, a: Word)
    requires mnemonic == "D-1" || mnemonic == "A-1"
    ensures mnemonic in CompTable && |CompTable[mnemonic]| == 6
    ensures Alu(d, a, CompTable[mnemonic]) == CompMeaning(mnemonic, d, a)
  {
  }

  /** The code of the sum. */
  lemma {:induction false} CompCodesSum(mnemonic: string, d: Word, a: Word)
    requires mnemonic == "D+A"
    ensures mnemonic in CompTable && |CompTable[mnemonic]| == 6
    ensures Alu(d, a, CompTable[mnemonic]) == CompMeaning(mnemonic, d, a)
  {
  }

  /** The codes of the differences. */
  lemma {:induction false} CompCodesDifferences(mnemonic: string, d: Word, a: Word)
    requires mnemonic == "D-A" || mnemonic == "A-D"
    ensures mnemonic in CompTable && |CompTable[mnemonic]| == 6
    ensures Alu(d, a, CompTable[mnemonic]) == CompMeaning(mnemonic, d, a)
  {
  }

  /** No two comp mnemonics share a code: distinct codes compute distinct functions. */
  lemma {:induction false} CompTableInjective(a: string, b: string)
    requires a in CompTable && b in CompTable && CompTable[a] == CompTable[b]
    ensures a == b
  {
  }

  /** The M-form of a mnemonic has the code of its A-form, e.g. D+M and D+A. */
  lemma {:induction false} CompMemoryForm(mnemonic: string)
    requires mnemonic in CompTable
    ensures Comp(ReplaceChar(mnemonic, 'A', 'M')) == Ok(CompTable[mnemonic])
    ensures Comp(mnemonic) == Ok(CompTable[mnemonic])
  {
    var memory := ReplaceChar(mnemonic, 'A', 'M');
    assert ReplaceChar(memory, 'M', 'A') == mnemonic;
    assert ReplaceChar(mnemonic, 'M', 'A') == mnemonic;
  }

  lemma {:induction false} CompOfDPlusM()
    ensures Comp("D+M") == Comp("D+A") == Ok("000010")
  {
    CompMemoryForm("D+A");
    assert ReplaceChar("D+A", 'A', 'M') == "D+M";
  }
}
