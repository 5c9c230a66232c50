/**
 * The Hack assembler's driver (06/Assembler/assembler.py).
 *
 * The first pass walks the commands and binds every new label `(L)` to the
 * ROM address of the instruction after it; the second pass walks them again
 * and translates each A- and C-instruction into a 16-character word,
 * allocating RAM addresses from 16 upward to symbols that are neither numbers
 * nor already in the table.
 *
 * `FirstPassUpTo` and `SecondPassUpTo` state the passes over the first `n`
 * commands; `Assemble` runs them with the parser and symbol-table objects
 * and is proved to compute `AssembledLines` and to write `HackFile`, which
 * on a KeyError is the words of the commands before the failing one.
 */
module Assembler {
  import opened Results
  import opened PyStrings
  import opened AsmParser
  import opened AsmSymbols
  import HackCode

  // ---------------------------------------------------------------------------
  // Words
  // ---------------------------------------------------------------------------

  /**
   * `convertDecimalToBinary`: `bin(decimal)[2:]` zero-filled to 16
   * characters. For a negative number `bin` gives `-0b…`, so the `b` stays.
   */
  function ConvertDecimalToBinary(decimal: int): (r: string)
    ensures |r| >= 16
  {
    var binary := if decimal >= 0 then Bin(decimal) else "b" + Bin(-decimal);
    ZFill(binary, 16)
  }

  /** An address below 2^16 becomes the sixteen bits of its value. */
  lemma {:induction false} ConvertDecimalToBinaryValue(decimal: int)
    requires 0 <= decimal < 0x1_0000
    ensures var r := ConvertDecimalToBinary(decimal);
      |r| == 16 && AllBits(r) && BitsValue(r) == decimal
  {
    HackCode.Pow2Of16();
    BinLength(decimal, 16);
    BinValue(decimal);
    var binary := Bin(decimal);
    ZFillUnsigned(binary, 16);
    LeadingZerosValue(16 - |binary|, binary);
  }

  lemma {:induction false} ZFillUnsigned(s: string, width: nat)
    requires AllBits(s) && s != [] && |s| <= width
    ensures ZFill(s, width) == Zeros(width - |s|) + s
  {
    assert s[0] == '0' || s[0] == '1';
  }

  /** A negative address is not turned into bits: the word keeps a `b`. */
  lemma {:induction false} NegativeAddressKeepsB(decimal: int)
    requires decimal < 0
    ensures 'b' in ConvertDecimalToBinary(decimal) && !AllBits(ConvertDecimalToBinary(decimal))
  {
    var binary := "b" + Bin(-decimal);
    var r := ConvertDecimalToBinary(decimal);
    if |binary| >= 16 {
      assert r[0] == 'b';
    } else {
      assert r == Zeros(16 - |binary|) + binary;
      assert r[16 - |binary|] == 'b';
    }
  }

  /**
   * A C-instruction: `111`, the a-bit (whether the comp reads M), then the
   * comp, dest and jump codes; an unknown mnemonic is a KeyError.
   */
  function EncodeC(command: string): (r: Result<string>)
    ensures r.Ok? <==>
      HackCode.Comp(CompOf(command)).Ok? && HackCode.Dest(DestOf(command)).Ok? && HackCode.Jump(JumpOf(command)).Ok?
    ensures r.Err? ==> r.error == KeyError
    ensures r.Ok? ==> |r.value| == 16
  {
    var comp := CompOf(command);
    var a := if 'M' in comp then "1" else "0";
    match HackCode.Comp(comp)
    case Err(e) => Err(e)
    case Ok(c) =>
      match HackCode.Dest(DestOf(command))
      case Err(e) => Err(e)
      case Ok(d) =>
        match HackCode.Jump(JumpOf(command))
        case Err(e) => Err(e)
        case Ok(j) => Ok("111" + a + c + d + j)
  }

  /** The fields of a C-instruction word, by position. */
  lemma {:induction false} WordFields(a: string, c: string, d: string, j: string)
    requires |a| == 1 && |c| == 6 && |d| == 3 && |j| == 3
    ensures var w := "111" + a + c + d + j;
      |w| == 16 && w[..3] == "111" && w[3] == a[0] && w[4..10] == c && w[10..13] == d && w[13..] == j
  {
  }

  /** A C-instruction word is made of bits only. */
  lemma {:induction false} EncodeCBits(command: string)
    requires EncodeC(command).Ok?
    ensures AllBits(EncodeC(command).value) && EncodeC(command).value[..3] == "111"
  {
    var comp := CompOf(command);
    var a := if 'M' in comp then "1" else "0";
    var c := HackCode.Comp(comp).value;
    var d := HackCode.Dest(DestOf(command)).value;
    var j := HackCode.Jump(JumpOf(command)).value;
    assert EncodeC(command).value == "111" + a + c + d + j;
    assert AllBits(a);
    WordBits(a, c, d, j);
  }

  lemma {:induction false} WordBits(a: string, c: string, d: string, j: string)
    requires AllBits(a) && AllBits(c) && AllBits(d) && AllBits(j)
    ensures AllBits("111" + a + c + d + j) && ("111" + a + c + d + j)[..3] == "111"
  {
    BitsAppend("111", a);
    BitsAppend("111" + a, c);
    BitsAppend("111" + a + c, d);
    BitsAppend("111" + a + c + d, j);
  }

  lemma {:induction false} BitsAppend(x: string, y: string)
    requires AllBits(x) && AllBits(y)
    ensures AllBits(x + y)
  {
  }

  /**
   * A command whose dest, comp and jump fields are known mnemonics is the
   * word whose fields are the a-bit and the table codes of the three
   * mnemonics.
   */
  lemma {:induction false} EncodeCFields(command: string, dest: string, comp: string, jump: string)
    requires DestOf(command) == dest && CompOf(command) == comp && JumpOf(command) == jump
    requires dest in HackCode.DestTable && jump in HackCode.JumpTable
    requires ReplaceChar(comp, 'M', 'A') in HackCode.CompTable
    ensures var r := EncodeC(command);
      && r.Ok?
      && (r.value[3] == '1' <==> 'M' in comp)
      && r.value[4..10] == HackCode.CompTable[ReplaceChar(comp, 'M', 'A')]
      && r.value[10..13] == HackCode.DestTable[dest]
      && r.value[13..] == HackCode.JumpTable[jump]
  {
    var a := if 'M' in comp then "1" else "0";
    WordFields(a, HackCode.Comp(comp).value, HackCode.Dest(dest).value, HackCode.Jump(jump).value);
  }

  /** `dest=comp;jump` with known mnemonics is encoded field by field. */
  lemma {:induction false} EncodeDestCompJump(dest: string, comp: string, jump: string)
    requires dest in HackCode.DestTable && jump in HackCode.JumpTable
    requires ReplaceChar(comp, 'M', 'A') in HackCode.CompTable
    requires '=' !in dest && ';' !in dest && '=' !in comp && ';' !in comp && '=' !in jump && ';' !in jump
    ensures var r := EncodeC(dest + "=" + comp + ";" + jump);
      && r.Ok?
      && (r.value[3] == '1' <==> 'M' in comp)
      && r.value[4..10] == HackCode.CompTable[ReplaceChar(comp, 'M', 'A')]
      && r.value[10..13] == HackCode.DestTable[dest]
      && r.value[13..] == HackCode.JumpTable[jump]
  {
    var command := dest + "=" + comp + ";" + jump;
    SplitDestCompJump(dest, comp, jump);
    EncodeCFields(command, dest, comp, jump);
  }

  /** `comp;jump` stores nowhere: its dest field is `000`. */
  lemma {:induction false} EncodeCompJump(comp: string, jump: string)
    requires jump in HackCode.JumpTable
    requires ReplaceChar(comp, 'M', 'A') in HackCode.CompTable
    requires '=' !in comp && ';' !in comp && '=' !in jump && ';' !in jump
    ensures var r := EncodeC(comp + ";" + jump);
      && r.Ok?
      && r.value[4..10] == HackCode.CompTable[ReplaceChar(comp, 'M', 'A')]
      && r.value[10..13] == "000"
      && r.value[13..] == HackCode.JumpTable[jump]
  {
    var command := comp + ";" + jump;
    SplitCompJump(comp, jump);
    EncodeCFields(command, "null", comp, jump);
  }

  /** `dest=comp` never jumps: its jump field is `000`. */
  lemma {:induction false} EncodeDestComp(dest: string, comp: string)
    requires dest in HackCode.DestTable
    requires ReplaceChar(comp, 'M', 'A') in HackCode.CompTable
    requires '=' !in dest && ';' !in dest && '=' !in comp && ';' !in comp
    ensures var r := EncodeC(dest + "=" + comp);
      && r.Ok?
      && r.value[4..10] == HackCode.CompTable[ReplaceChar(comp, 'M', 'A')]
      && r.value[10..13] == HackCode.DestTable[dest]
      && r.value[13..] == "000"
  {
    var command := dest + "=" + comp;
    SplitDestComp(dest, comp);
    EncodeCFields(command, dest, comp, "null");
  }

  // ---------------------------------------------------------------------------
  // The first pass: labels
  // ---------------------------------------------------------------------------

  /** The symbol table and `ROM_ADDRESS`, the address of the last instruction seen. */
  datatype FirstPass = FirstPass(table: map<string, int>, romAddress: int)

  /**
   * One command of the first pass: a label not yet in the table is bound to
   * the address of the next instruction; any other command is an instruction.
   */
  function FirstPassStep(st: FirstPass, command: string): FirstPass {
    if TypeOf(command) == L_Command then
      var symbol := SymbolOf(command);
      if symbol in st.table then st else st.(table := st.table[symbol := st.romAddress + 1])
    else
      st.(romAddress := st.romAddress + 1)
  }

  /**
   * The first pass over the first `n` commands, each seen as `advance`
   * leaves it, from the table of predefined symbols.
   */
  function FirstPassUpTo(predefined: map<string, int>, commands: seq<string>, n: nat): FirstPass
    requires n <= |commands|
  {
    if n == 0 then FirstPass(predefined, -1)
    else FirstPassStep(FirstPassUpTo(predefined, commands, n - 1), commands[n - 1])
  }

  /** Whether command `k` declares the label `symbol`. */
  predicate Declares(commands: seq<string>, k: nat, symbol: string)
    requires k < |commands|
  {
    TypeOf(commands[k]) == L_Command && SymbolOf(commands[k]) == symbol
  }

  /** The number of instructions (A- and C-commands) among the first `n` commands. */
  function Instructions(commands: seq<string>, n: nat): (r: nat)
    requires n <= |commands|
    ensures r <= n
  {
    if n == 0 then 0
    else Instructions(commands, n - 1) + (if TypeOf(commands[n - 1]) == L_Command then 0 else 1)
  }

  /** The labels declared among the first `n` commands. */
  function Labels(commands: seq<string>, n: nat): set<string>
    requires n <= |commands|
  {
    if n == 0 then {}
    else
      var declared := if TypeOf(commands[n - 1]) == L_Command then {SymbolOf(commands[n - 1])} else {};
      Labels(commands, n - 1) + declared
  }

  lemma {:induction false} LabelsDeclared(commands: seq<string>, n: nat, symbol: string)
    requires n <= |commands|
    ensures symbol in Labels(commands, n) <==> exists k: nat :: k < n && Declares(commands, k, symbol)
  {
    if n > 0 {
      LabelsDeclared(commands, n - 1, symbol);
      if Declares(commands, n - 1, symbol) {
        assert symbol in Labels(commands, n);
      } else if symbol in Labels(commands, n) {
        assert symbol in Labels(commands, n - 1);
      } else {
        forall k: nat | k < n
          ensures !Declares(commands, k, symbol)
        {
          if k < n - 1 {
            assert symbol !in Labels(commands, n - 1);
          }
        }
      }
    }
  }

  /**
   * After the first pass over `n` commands, `ROM_ADDRESS` is one less than
   * the number of instructions, the predefined symbols keep their addresses,
   * and the table holds exactly the predefined symbols and the labels.
   */
  lemma {:induction false} FirstPassInvariant(predefined: map<string, int>, commands: seq<string>, n: nat)
    requires n <= |commands|
    ensures var st := FirstPassUpTo(predefined, commands, n);
      && st.romAddress == Instructions(commands, n) - 1
      && (forall s :: s in predefined ==> s in st.table && st.table[s] == predefined[s])
      && (forall s :: s in st.table <==> s in predefined || s in Labels(commands, n))
  {
    if n > 0 {
      FirstPassInvariant(predefined, commands, n - 1);
    }
  }

  /**
   * The first declaration of a label that is not predefined binds it to the
   * number of instructions before it: the ROM address of the instruction
   * that follows it. Later declarations of the same label are ignored.
   */
  lemma {:induction false} LabelAddress(predefined: map<string, int>, commands: seq<string>, j: nat, n: nat, symbol: string)
    requires j < n <= |commands|
    requires Declares(commands, j, symbol) && symbol !in predefined
    requires forall k: nat :: k < j ==> !Declares(commands, k, symbol)
    ensures symbol in FirstPassUpTo(predefined, commands, n).table
    ensures FirstPassUpTo(predefined, commands, n).table[symbol] == Instructions(commands, j)
  {
    if n == j + 1 {
      FirstPassInvariant(predefined, commands, j);
      LabelsDeclared(commands, j, symbol);
    } else {
      LabelAddress(predefined, commands, j, n - 1, symbol);
    }
  }

  // ---------------------------------------------------------------------------
  // The second pass: translation
  // ---------------------------------------------------------------------------

  /** The symbol table, the next variable address and the words written so far. */
  datatype SecondPass = SecondPass(table: map<string, int>, nextVariable: int, output: seq<string>)

  /** The table and next variable address after one command, and its `machine_code`. */
  datatype Translation = Translation(table: map<string, int>, nextVariable: int, machineCode: string)

  /**
   * An A-instruction: a symbol `int` accepts is its own address; any other
   * symbol not yet in the table is first bound to the next variable address.
   */
  function TranslateA(table: map<string, int>, nextVariable: int, symbol: string): (t: Translation)
    ensures |t.machineCode| >= 16
  {
    match ParseInt(symbol)
    case Some(decimal) => Translation(table, nextVariable, ConvertDecimalToBinary(decimal))
    case None =>
      var table' := if symbol in table then table else table[symbol := nextVariable];
      var next' := if symbol in table then nextVariable else nextVariable + 1;
      Translation(table', next', ConvertDecimalToBinary(table'[symbol]))
  }

  /** One command of the second pass; a label yields no machine code. */
  function TranslateCommand(st: SecondPass, command: string): (r: Result<Translation>)
    ensures r.Err? ==> r.error == KeyError
    ensures r.Ok? ==> (r.value.machineCode == "" <==> TypeOf(command) == L_Command)
  {
    match TypeOf(command)
    case A_Command => Ok(TranslateA(st.table, st.nextVariable, SymbolOf(command)))
    case C_Command =>
      (match EncodeC(command)
       case Err(e) => Err(e)
       case Ok(word) => Ok(Translation(st.table, st.nextVariable, word)))
    case L_Command => Ok(Translation(st.table, st.nextVariable, ""))
  }

  /** Translate one command and write its machine code when there is any. */
  function SecondPassStep(st: SecondPass, command: string): (r: Result<SecondPass>)
    ensures r.Err? ==> r.error == KeyError
  {
    match TranslateCommand(st, command)
    case Err(e) => Err(e)
    case Ok(t) =>
      Ok(SecondPass(t.table, t.nextVariable, if t.machineCode != "" then st.output + [t.machineCode] else st.output))
  }

  /** The second pass over the first `n` commands, starting from the first pass's table. */
  function SecondPassUpTo(commands: seq<string>, symbols: map<string, int>, n: nat): (r: Result<SecondPass>)
    requires n <= |commands|
    ensures r.Err? ==> r.error == KeyError
  {
    if n == 0 then Ok(SecondPass(symbols, FirstVariableAddress, []))
    else
      match SecondPassUpTo(commands, symbols, n - 1)
      case Err(e) => Err(e)
      case Ok(st) => SecondPassStep(st, commands[n - 1])
  }

  /** Whether the second pass has stopped with an error within the first `n` commands. */
  ghost predicate SecondPassFailed(commands: seq<string>, symbols: map<string, int>, n: nat) {
    n <= |commands| && SecondPassUpTo(commands, symbols, n).Err?
  }

  /** The state of the second pass once the first `n` commands are translated. */
  ghost function SecondPassAfter(commands: seq<string>, symbols: map<string, int>, n: nat): Result<SecondPass>
    requires n <= |commands|
  {
    SecondPassUpTo(commands, symbols, n)
  }

  /** After a prefix that translates, the next command is one step of the pass. */
  lemma {:induction false} SecondPassAfterNext(commands: seq<string>, symbols: map<string, int>, n: nat, st: SecondPass, command: string)
    requires n < |commands| && commands[n] == command && SecondPassAfter(commands, symbols, n) == Ok(st)
    ensures SecondPassAfter(commands, symbols, n + 1) == SecondPassStep(st, command)
  {
  }

  /** An error ends the second pass: every longer prefix fails as well. */
  lemma {:induction false} SecondPassErrorSticks(commands: seq<string>, symbols: map<string, int>, n: nat, m: nat)
    requires n <= m <= |commands|
    requires SecondPassFailed(commands, symbols, n)
    ensures SecondPassFailed(commands, symbols, m)
    decreases m - n
  {
    if m > n {
      SecondPassErrorStep(commands, symbols, n);
      SecondPassErrorSticks(commands, symbols, n + 1, m);
    }
  }

  /**
   * The words in the `.hack` file once the pass has gone through the first
   * `n` commands: `main` writes each word as its command is translated, so
   * when a command raises the KeyError the words written before it stay.
   */
  ghost function SecondPassWritten(commands: seq<string>, symbols: map<string, int>, n: nat): seq<string>
    requires n <= |commands|
  {
    match SecondPassUpTo(commands, symbols, n)
    case Ok(st) => st.output
    case Err(_) => if n == 0 then [] else SecondPassWritten(commands, symbols, n - 1)
  }

  /**
   * When command `k` raises the KeyError, the file keeps exactly the words
   * of the commands before it, however many commands follow.
   */
  lemma {:induction false} SecondPassWrittenAfterError(commands: seq<string>, symbols: map<string, int>, k: nat, m: nat)
    requires k < m <= |commands|
    requires SecondPassUpTo(commands, symbols, k).Ok? && SecondPassUpTo(commands, symbols, k + 1).Err?
    ensures SecondPassWritten(commands, symbols, m) == SecondPassUpTo(commands, symbols, k).value.output
  {
    SecondPassWrittenFrozen(commands, symbols, k, m);
  }

  /** Once command `n` has failed, nothing more is written. */
  lemma {:induction false} SecondPassWrittenFrozen(commands: seq<string>, symbols: map<string, int>, n: nat, m: nat)
    requires n < m <= |commands| && SecondPassFailed(commands, symbols, n + 1)
    ensures SecondPassWritten(commands, symbols, m) == SecondPassWritten(commands, symbols, n)
    decreases m - n
  {
    SecondPassWrittenStays(commands, symbols, n + 1);
    if n + 1 < m {
      SecondPassErrorStep(commands, symbols, n + 1);
      SecondPassWrittenFrozen(commands, symbols, n + 1, m);
    }
  }

  /** A command that fails, or comes after one that failed, writes nothing. */
  lemma {:induction false} SecondPassWrittenStays(commands: seq<string>, symbols: map<string, int>, n: nat)
    requires 0 < n <= |commands| && SecondPassFailed(commands, symbols, n)
    ensures SecondPassWritten(commands, symbols, n) == SecondPassWritten(commands, symbols, n - 1)
  {
  }

  lemma {:induction false} SecondPassErrorStep(commands: seq<string>, symbols: map<string, int>, n: nat)
    requires n < |commands|
    requires SecondPassFailed(commands, symbols, n)
    ensures SecondPassFailed(commands, symbols, n + 1)
  {
  }

  /**
   * The variables of the second pass: the first pass's bindings are kept,
   * and every symbol added since has an address of its own in
   * [16, next variable address).
   */
  ghost predicate VariablesAllocated(symbols: map<string, int>, table: map<string, int>, nextVariable: int) {
    && FirstVariableAddress <= nextVariable
    && (forall s :: s in symbols ==> s in table && table[s] == symbols[s])
    && (forall s :: s in table && s !in symbols ==> FirstVariableAddress <= table[s] < nextVariable)
    && (forall s, t :: s in table && t in table && s !in symbols && t !in symbols && s != t ==> table[s] != table[t])
  }

  /** An A-instruction keeps the variables allocated. */
  lemma {:induction false} TranslateAKeeps(symbols: map<string, int>, table: map<string, int>, nextVariable: int, symbol: string)
    requires VariablesAllocated(symbols, table, nextVariable)
    ensures var t := TranslateA(table, nextVariable, symbol);
      VariablesAllocated(symbols, t.table, t.nextVariable)
  {
    if ParseInt(symbol).None? && symbol !in table {
      var table' := table[symbol := nextVariable];
      forall s, t | s in table' && t in table' && s !in symbols && t !in symbols && s != t
        ensures table'[s] != table'[t]
      {
        if s != symbol && t != symbol {
          assert table'[s] == table[s] && table'[t] == table[t];
        }
      }
    }
  }

  /** One command keeps the variables allocated and writes one word exactly when it is an instruction. */
  lemma {:induction false} SecondPassStepKeeps(symbols: map<string, int>, st: SecondPass, command: string)
    requires VariablesAllocated(symbols, st.table, st.nextVariable)
    ensures SecondPassStep(st, command).Ok? ==>
      var st' := SecondPassStep(st, command).value;
      && VariablesAllocated(symbols, st'.table, st'.nextVariable)
      && |st'.output| == |st.output| + (if TypeOf(command) == L_Command then 0 else 1)
  {
    if TypeOf(command) == A_Command {
      TranslateAKeeps(symbols, st.table, st.nextVariable, SymbolOf(command));
    }
  }

  /**
   * What the second pass keeps: the first pass's bindings never change,
   * every variable it adds has an address of its own in
   * [16, next variable address), and one word is written per instruction.
   */
  lemma {:induction false} SecondPassInvariant(commands: seq<string>, symbols: map<string, int>, n: nat)
    requires n <= |commands|
    ensures SecondPassUpTo(commands, symbols, n).Ok? ==>
      var st := SecondPassUpTo(commands, symbols, n).value;
      && VariablesAllocated(symbols, st.table, st.nextVariable)
      && |st.output| == Instructions(commands, n)
  {
    if n > 0 {
      SecondPassInvariant(commands, symbols, n - 1);
      var previous := SecondPassUpTo(commands, symbols, n - 1);
      if previous.Ok? {
        SecondPassStepKeeps(symbols, previous.value, commands[n - 1]);
      }
    }
  }

  /** A number `int` accepts, below 2^16, is written as its own sixteen bits and touches no table. */
  lemma {:induction false} NumericAddress(table: map<string, int>, nextVariable: int, value: nat)
    requires value < 0x1_0000
    ensures var t := TranslateA(table, nextVariable, NatToString(value));
      && t.table == table && t.nextVariable == nextVariable
      && |t.machineCode| == 16 && AllBits(t.machineCode) && BitsValue(t.machineCode) == value
  {
    ParseIntOfNat(value);
    ConvertDecimalToBinaryValue(value);
  }

  /** A symbol already bound is written as its address; a new one takes the next variable address. */
  lemma {:induction false} SymbolicAddress(table: map<string, int>, nextVariable: int, symbol: string)
    requires ParseInt(symbol).None?
    ensures var t := TranslateA(table, nextVariable, symbol);
      && symbol in t.table
      && t.machineCode == ConvertDecimalToBinary(t.table[symbol])
      && (symbol in table ==> t.table == table && t.nextVariable == nextVariable)
      && (symbol !in table ==>
            t.table[symbol] == nextVariable && t.nextVariable == nextVariable + 1
            && forall s :: s in table ==> s in t.table && t.table[s] == table[s])
  {
  }

  // ---------------------------------------------------------------------------
  // The whole program
  // ---------------------------------------------------------------------------

  /**
   * The words of the `.hack` file for the commands as `advance` makes them
   * current, or the error that stops `main`.
   */
  function AssembleCommands(commands: seq<string>): Result<seq<string>> {
    var symbols := FirstPassUpTo(InitialTable(), commands, |commands|).table;
    match SecondPassUpTo(commands, symbols, |commands|)
    case Err(e) => Err(e)
    case Ok(st) => Ok(st.output)
  }

  /** `main` on the lines of a `.asm` file. */
  function AssembledLines(raw: seq<string>): Result<seq<string>> {
    AssembleCommands(CurrentCommands(CleanAsmLines(raw)))
  }

  /** The contents of the `.hack` file `main` writes for the lines of a `.asm` file, whether or not it raises. */
  ghost function HackFile(raw: seq<string>): seq<string> {
    var commands := CurrentCommands(CleanAsmLines(raw));
    SecondPassWritten(commands, FirstPassUpTo(InitialTable(), commands, |commands|).table, |commands|)
  }

  /** When `main` finishes, its `.hack` file holds exactly the words it assembled. */
  lemma {:induction false} HackFileOfSuccess(raw: seq<string>)
    requires AssembledLines(raw).Ok?
    ensures HackFile(raw) == AssembledLines(raw).value
  {
    var commands := CurrentCommands(CleanAsmLines(raw));
    var symbols := FirstPassUpTo(InitialTable(), commands, |commands|).table;
    assert SecondPassUpTo(commands, symbols, |commands|).Ok?;
  }

  /**
   * When command `k` is the one that raises the KeyError, the `.hack` file
   * `main` leaves behind holds the words of the commands before `k`.
   */
  lemma {:induction false} HackFileOnError(raw: seq<string>, k: nat)
    requires k < |CurrentCommands(CleanAsmLines(raw))|
    requires var commands := CurrentCommands(CleanAsmLines(raw));
      var symbols := FirstPassUpTo(InitialTable(), commands, |commands|).table;
      SecondPassUpTo(commands, symbols, k).Ok? && SecondPassUpTo(commands, symbols, k + 1).Err?
    ensures var commands := CurrentCommands(CleanAsmLines(raw));
      HackFile(raw) == SecondPassUpTo(commands, FirstPassUpTo(InitialTable(), commands, |commands|).table, k).value.output
  {
    var commands := CurrentCommands(CleanAsmLines(raw));
    var symbols := FirstPassUpTo(InitialTable(), commands, |commands|).table;
    SecondPassWrittenAfterError(commands, symbols, k, |commands|);
  }

  /** A program that assembles has one word per instruction. */
  lemma {:induction false} OneWordPerInstruction(commands: seq<string>)
    requires AssembleCommands(commands).Ok?
    ensures |AssembleCommands(commands).value| == Instructions(commands, |commands|)
  {
    SecondPassInvariant(commands, FirstPassUpTo(InitialTable(), commands, |commands|).table, |commands|);
  }

  /**
   * One round of the first pass: a label is bound to the address of the next
   * instruction unless it is already bound; any other command takes a ROM address.
   */
  method RecordCommand(p: Parser, symbolTable: SymbolTable, romAddress: int) returns (romAddress': int)
    requires p.currentCommand.Some?
    modifies symbolTable`table
    ensures FirstPass(symbolTable.table, romAddress')
      == FirstPassStep(FirstPass(old(symbolTable.table), romAddress), p.currentCommand.value)
  {
    romAddress' := romAddress;
    if p.CommandType() == L_Command {
      var symbol := p.Symbol();
      if !symbolTable.Contains(symbol) {
        var address := romAddress + 1;
        symbolTable.AddEntry(symbol, address);
      }
    } else {
      romAddress' := romAddress + 1;
    }
  }

  /**
   * The A-instruction branch of the second pass: a number is its own address;
   * a symbol not yet in the table is bound to the next variable address, which
   * then moves on.
   */
  method TranslateSymbol(symbolTable: SymbolTable, symbol: string) returns (machineCode: string)
    modifies symbolTable
    ensures var t := TranslateA(old(symbolTable.table), old(symbolTable.nextVariableAddress), symbol);
      && machineCode == t.machineCode
      && symbolTable.table == t.table
      && symbolTable.nextVariableAddress == t.nextVariable
  {
    var decimal;
    match ParseInt(symbol) {
      case Some(value) =>
        decimal := value;
      case None =>
        if !symbolTable.Contains(symbol) {
          var address := symbolTable.GetNextVariableAddress();
          symbolTable.AddEntry(symbol, address);
          symbolTable.IncrementNextVariableAddress();
        }
        decimal := symbolTable.GetAddress(symbol).value;
    }
    machineCode := ConvertDecimalToBinary(decimal);
  }

  /**
   * The C-instruction branch of the second pass: `111`, the a-bit, then the
   * comp, dest and jump fields; a missing table key stops the assembler.
   */
  method EncodeCurrent(p: Parser) returns (r: Result<string>)
    requires p.currentCommand.Some?
    ensures r == EncodeC(p.currentCommand.value)
  {
    var machineCode := "111";
    var command := p.Comp();
    if 'M' in command {
      machineCode := machineCode + "1";
    } else {
      machineCode := machineCode + "0";
    }
    var comp := HackCode.Comp(command);
    var dest := HackCode.Dest(p.Dest());
    var jump := HackCode.Jump(p.Jump());
    if comp.Err? || dest.Err? || jump.Err? {
      return Err(KeyError);
    }
    r := Ok(machineCode + comp.value + dest.value + jump.value);
  }

  /**
   * One round of the second pass: the word of the current command (`""` for
   * a label), with the symbol table updated as `TranslateCommand` says.
   */
  method TranslateCurrent(p: Parser, symbolTable: SymbolTable, ghost output: seq<string>) returns (r: Result<string>)
    requires p.currentCommand.Some?
    modifies symbolTable
    ensures match TranslateCommand(SecondPass(old(symbolTable.table), old(symbolTable.nextVariableAddress), output), p.currentCommand.value)
      case Err(e) => r == Err(e)
      case Ok(t) =>
        && r == Ok(t.machineCode)
        && symbolTable.table == t.table
        && symbolTable.nextVariableAddress == t.nextVariable
  {
    var commandType := p.CommandType();
    if commandType == A_Command {
      var machineCode := TranslateSymbol(symbolTable, p.Symbol());
      r := Ok(machineCode);
    } else if commandType == C_Command {
      r := EncodeCurrent(p);
    } else {
      r := Ok("");
    }
  }

  /**
   * `main`: both passes over one parser and one symbol table. `r` says
   * whether it finishes or raises; `hack` is what it has written to the
   * `.hack` file either way.
   */
  method Assemble(raw: seq<string>) returns (r: Result<seq<string>>, hack: seq<string>)
    ensures r == AssembledLines(raw)
    ensures hack == HackFile(raw)
  {
    var p := new Parser(raw);
    ghost var commands := CurrentCommands(p.commands);
    var symbolTable := new SymbolTable();
    FirstPassOver(p, symbolTable, commands);
    p.Reset();
    r, hack := SecondPassOver(p, symbolTable, commands);
  }

  /** The first pass of `main`: every label bound to the ROM address of the instruction after it. */
  method FirstPassOver(p: Parser, symbolTable: SymbolTable, ghost commands: seq<string>)
    requires p.Valid() && p.currentIndex == -1 && CurrentCommands(p.commands) == commands
    modifies p, symbolTable`table
    ensures p.Valid() && p.commands == old(p.commands)
    ensures symbolTable.table == FirstPassUpTo(old(symbolTable.table), commands, |commands|).table
  {
    ghost var predefined := symbolTable.table;
    var romAddress := -1;
    while p.HasMoreCommands()
      invariant p.Valid() && p.commands == old(p.commands)
      invariant FirstPassUpTo(predefined, commands, p.currentIndex + 1) == FirstPass(symbolTable.table, romAddress)
      decreases |commands| - p.currentIndex
    {
      p.Advance();
      assert p.currentCommand.value == commands[p.currentIndex] by {
        CurrentCommandsAt(p.commands, p.currentIndex);
      }
      romAddress := RecordCommand(p, symbolTable, romAddress);
    }
  }

  /**
   * The second pass of `main`: the words of the instructions in order, or
   * the KeyError of the first instruction whose fields are not in the tables;
   * `written` is what has gone into the file by then.
   */
  method SecondPassOver(p: Parser, symbolTable: SymbolTable, ghost commands: seq<string>)
    returns (r: Result<seq<string>>, written: seq<string>)
    requires p.Valid() && p.currentIndex == -1 && CurrentCommands(p.commands) == commands
    requires symbolTable.nextVariableAddress == FirstVariableAddress
    modifies p, symbolTable
    ensures r == match SecondPassUpTo(commands, old(symbolTable.table), |commands|)
      case Err(e) => Err(e)
      case Ok(st) => Ok(st.output)
    ensures written == SecondPassWritten(commands, old(symbolTable.table), |commands|)
  {
    ghost var symbols := symbolTable.table;
    var output: seq<string> := [];
    while p.HasMoreCommands()
      invariant p.Valid() && p.commands == old(p.commands)
      invariant SecondPassAfter(commands, symbols, p.currentIndex + 1)
        == Ok(SecondPass(symbolTable.table, symbolTable.nextVariableAddress, output))
      decreases |commands| - p.currentIndex
    {
      var step := SecondPassNext(p, symbolTable, commands, symbols, output);
      if step.Err? {
        SecondPassErrorSticks(commands, symbols, p.currentIndex + 1, |commands|);
        SecondPassWrittenAfterError(commands, symbols, p.currentIndex, |commands|);
        return Err(KeyError), output;
      }
      output := step.value;
    }
    return Ok(output), output;
  }

  /** One iteration of the second pass: advance, translate, and write the machine code if any. */
  method SecondPassNext(p: Parser, symbolTable: SymbolTable, ghost commands: seq<string>, ghost symbols: map<string, int>,
                        output: seq<string>) returns (r: Result<seq<string>>)
    requires p.Valid() && p.HasMoreCommands() && CurrentCommands(p.commands) == commands
    requires SecondPassAfter(commands, symbols, p.currentIndex + 1)
      == Ok(SecondPass(symbolTable.table, symbolTable.nextVariableAddress, output))
    modifies p, symbolTable
    ensures p.Valid() && p.commands == old(p.commands) && p.currentIndex == old(p.currentIndex) + 1
    ensures match SecondPassAfter(commands, symbols, p.currentIndex + 1)
      case Err(_) => r.Err?
      case Ok(st) =>
        && r == Ok(st.output)
        && symbolTable.table == st.table
        && symbolTable.nextVariableAddress == st.nextVariable
  {
    ghost var st := SecondPass(symbolTable.table, symbolTable.nextVariableAddress, output);
    p.Advance();
    assert p.currentCommand.value == commands[p.currentIndex] by {
      CurrentCommandsAt(p.commands, p.currentIndex);
    }
    SecondPassAfterNext(commands, symbols, p.currentIndex, st, p.currentCommand.value);
    r := StepCurrent(p, symbolTable, st, output);
  }

  /** Translate the current command and write its machine code, if any, after `output`. */
  method StepCurrent(p: Parser, symbolTable: SymbolTable, ghost st: SecondPass, output: seq<string>) returns (r: Result<seq<string>>)
    requires p.currentCommand.Some?
    requires st == SecondPass(symbolTable.table, symbolTable.nextVariableAddress, output)
    modifies symbolTable
    ensures match SecondPassStep(st, p.currentCommand.value)
      case Err(_) => r.Err?
      case Ok(st) =>
        && r == Ok(st.output)
        && symbolTable.table == st.table
        && symbolTable.nextVariableAddress == st.nextVariable
  {
    var translated := TranslateCurrent(p, symbolTable, output);
    if translated.Err? {
      return Err(KeyError);
    }
    var machineCode := translated.value;
    if machineCode != "" {
      r := Ok(output + [machineCode]);
    } else {
      r := Ok(output);
    }
  }


  // ---------------------------------------------------------------------------
  // Comment lines after whitespace
  // ---------------------------------------------------------------------------

  /**
   * A command left empty once its comment is cut is taken for a
   * C-instruction with the comp `""`, which is not in the comp table: any
   * program that has one is rejected with a KeyError.
   */
  lemma {:induction false} BlankCommandRejected(commands: seq<string>, j: nat)
    requires j < |commands| && commands[j] == ""
    ensures AssembleCommands(commands) == Err(KeyError)
  {
    BlankCommandStops(commands, FirstPassUpTo(InitialTable(), commands, |commands|).table, j);
  }

  lemma {:induction false} BlankCommandStops(commands: seq<string>, symbols: map<string, int>, j: nat)
    requires j < |commands| && commands[j] == ""
    ensures SecondPassUpTo(commands, symbols, |commands|) == Err(KeyError)
  {
    BlankCommandFails(commands, symbols, j);
    SecondPassErrorSticks(commands, symbols, j + 1, |commands|);
  }

  lemma {:induction false} BlankCommandFails(commands: seq<string>, symbols: map<string, int>, j: nat)
    requires j < |commands| && commands[j] == ""
    ensures SecondPassUpTo(commands, symbols, j + 1).Err?
  {
    var previous := SecondPassUpTo(commands, symbols, j);
    if previous.Ok? {
      EmptyCommandFails(previous.value);
    }
  }

  /** The empty command is a C-instruction whose comp `""` is not in the comp table. */
  lemma {:induction false} EmptyCommandFails(st: SecondPass)
    ensures SecondPassStep(st, "").Err?
  {
    assert TypeOf("") == C_Command;
    assert CompOf("") == "";
    assert ReplaceChar("", 'M', 'A') == "";
    assert "" !in HackCode.CompTable;
    assert EncodeC("").Err?;
  }

  /**
   * A comment line indented by whitespace is not dropped with the other
   * comment lines, so the file it is in does not assemble.
   */
  lemma {:induction false} IndentedCommentRejected(before: seq<string>, indent: string, text: string, after: seq<string>)
    requires indent != [] && forall i :: 0 <= i < |indent| ==> IsSpace(indent[i])
    requires text == [] || !IsSpace(text[|text| - 1])
    ensures AssembledLines(before + [indent + "//" + text] + after) == Err(KeyError)
  {
    IndentedCommentKept(indent, text);
    BlankLineRejected(before, indent + "//" + text, after);
  }

  /** A line kept as one command that is blank before its `//` stops the assembler. */
  lemma {:induction false} BlankLineRejected(before: seq<string>, line: string, after: seq<string>)
    requires |CleanAsmLines([line])| == 1 && Current(CleanAsmLines([line])[0]) == ""
    ensures AssembledLines(before + [line] + after) == Err(KeyError)
  {
    var a, kept, b := CleanAsmLines(before), CleanAsmLines([line]), CleanAsmLines(after);
    assert CleanAsmLines(before + [line] + after) == a + kept + b by {
      CleanAsmLinesAppend(before + [line], after);
      CleanAsmLinesAppend(before, [line]);
    }
    var commands := CurrentCommands(a + kept + b);
    assert commands[|a|] == "" by {
      assert (a + kept + b)[|a|] == kept[0];
      CurrentCommandsAt(a + kept + b, |a|);
    }
    BlankCommandRejected(commands, |a|);
  }

  /** `main` with the commands left empty by the comment cut dropped before the passes. */
  function AssembledLinesCorrected(raw: seq<string>): Result<seq<string>> {
    AssembleCommands(DropEmpty(CurrentCommands(CleanAsmLines(raw))))
  }

  /** With the correction, an indented comment line is ignored like any other comment line. */
  lemma {:induction false} IndentedCommentIgnored(before: seq<string>, indent: string, text: string, after: seq<string>)
    requires indent != [] && forall i :: 0 <= i < |indent| ==> IsSpace(indent[i])
    requires text == [] || !IsSpace(text[|text| - 1])
    ensures AssembledLinesCorrected(before + [indent + "//" + text] + after)
      == AssembledLinesCorrected(before + after)
  {
    IndentedCommentKept(indent, text);
    BlankLineIgnored(before, indent + "//" + text, after);
  }

  /** With the correction, a line that is blank before its `//` contributes nothing. */
  lemma {:induction false} BlankLineIgnored(before: seq<string>, line: string, after: seq<string>)
    requires |CleanAsmLines([line])| == 1 && Current(CleanAsmLines([line])[0]) == ""
    ensures AssembledLinesCorrected(before + [line] + after) == AssembledLinesCorrected(before + after)
  {
    var x, y := before + [line] + after, before + after;
    var a, kept, b := CleanAsmLines(before), CleanAsmLines([line]), CleanAsmLines(after);
    var cx, cy := CurrentCommands(CleanAsmLines(x)), CurrentCommands(CleanAsmLines(y));
    var ca, ck, cb := CurrentCommands(a), CurrentCommands(kept), CurrentCommands(b);
    assert cx == ca + ck + cb by {
      CleanAsmLinesAppend(before + [line], after);
      CleanAsmLinesAppend(before, [line]);
      CurrentCommandsAppend(a + kept, b);
      CurrentCommandsAppend(a, kept);
    }
    assert cy == ca + cb by {
      CleanAsmLinesAppend(before, after);
      CurrentCommandsAppend(a, b);
    }
    assert DropEmpty(ck) == [] by {
      assert |ck| == 1 && ck[0] == "";
      assert ck[1..] == [];
    }
    assert DropEmpty(ca + ck) == DropEmpty(ca) by {
      DropEmptyAppend(ca, ck);
    }
    assert DropEmpty(cx) == DropEmpty(cy) by {
      DropEmptyAppend(ca + ck, cb);
      DropEmptyAppend(ca, cb);
    }
    SameCommandsSameWords(x, y);
  }

  lemma {:induction false} SameCommandsSameWords(x: seq<string>, y: seq<string>)
    requires DropEmpty(CurrentCommands(CleanAsmLines(x))) == DropEmpty(CurrentCommands(CleanAsmLines(y)))
    ensures AssembledLinesCorrected(x) == AssembledLinesCorrected(y)
  {
  }
}
