# Hack assembler and VM translator, modelled in Dafny

This project models two programs from a Python solution to the nand2tetris
course and proves properties about them:

- **The Hack assembler** (`06/Assembler`). It turns a `.asm` file into
  16-character machine words.
  - `parser.py` cleans the lines and splits each instruction into type,
    symbol, `dest`, `comp` and `jump`.
  - `code.py` holds the three mnemonic tables.
  - `symbol_table.py` holds the predefined symbols and the variable
    allocator.
  - `assembler.py` runs the two passes over the commands.
- **The VM translator** (`07/translator`). It lowers stack-machine VM
  commands to Hack assembly lines.
  - `parser.py` cleans and classifies the commands.
  - `code_writer.py` appends a fixed run of lines for each command. It
    writes through a `Filestream` that counts the lines in `global_counter`.
    The counted jump targets of comparisons and of `close` are computed from
    that counter.

## Modules

- `results.dfy`, module `Results`: `Option`, `Result` and the Python exceptions the code can raise (`KeyError`, `ValueError`, `IndexError`, `UnboundLocalError`).
- `py_strings.dfy`, module `PyStrings`: the `str`/`int` built-ins the code relies on: `strip`, `split()`, `split(sep)`, `startswith`, `replace`, `str`, `int`, `bin`, `zfill`, and the `filter`/`map` steps of the line cleaning.
- `asm_parser.dfy`, module `AsmParser`: `06/Assembler/parser.py`.
- `hack_code.dfy`, module `HackCode`: `06/Assembler/code.py`, with the Hack ALU as the meaning of the comp bits.
- `symbol_table.dfy`, module `AsmSymbols`: `06/Assembler/symbol_table.py`.
- `assembler.dfy`, module `Assembler`: `06/Assembler/assembler.py`.
- `vm_parser.dfy`, module `VmParser`: `07/translator/parser.py`.
- `vm_code_writer.dfy`, module `VmCodeWriter`: `07/translator/code_writer.py`: `Filestream` and `CodeWriter` as classes.
- `vm_code_facts.dfy`, module `VmCodeFacts`: what the emitted lines mean: stack-pointer movement, jump targets, call/return frame layout.

How the source's objects are modelled:

- The objects that the source updates in place are Dafny classes:
  - both `Parser`s;
  - `SymbolTable`;
  - `Filestream`, with the file replaced by the sequence of lines written so
    far;
  - `CodeWriter`.
- Each emitting helper of `CodeWriter` is a method. It is proved to append
  exactly the lines of a pure function of the same role (`PopSegmentLines`
  for `_pop_segment_index`, and so on) and to add their number to the
  counter.
- The meaning of the emitted lines is stated about those functions.
  - `Rom` is the view the Hack assembler takes of the output: the label
    lines `(name)` dropped, so that instruction `i` has ROM address `i`.
  - `Filestream.Drift` is how far the counter runs ahead of the ROM address
    of the last instruction. Every writer method states how it changes
    `Drift`.
- The assembler's `main` has two `while` loops over one parser and one
  symbol table. They are the methods `FirstPassOver` and `SecondPassOver`.
  - They are proved equal to the functions `FirstPassUpTo` and
    `SecondPassUpTo`, which state each pass over a prefix of the commands.
  - `Assemble` is proved to compute `AssembledLines` and to leave
    `HackFile` in the `.hack` file. `main` writes each word as soon as it
    is made, so when a command raises the KeyError the words before it
    stay in the file (`HackFileOnError`).

The model follows the code where the code differs from what a VM
translator is usually described as doing:

- User labels are not qualified by their function.
- Every call of one function declares the same return label `f.return`.
- `static` uses the fixed base 16.
- An unknown segment, or a `pop constant`, emits nothing instead of failing.
- `commandType` knows only push, pop and the nine arithmetic commands.
- The VM parser cuts an inline comment without stripping again, so
  `add // x` becomes the command `add `, which is not recognised.
- `return` jumps to the address FRAME - 5 itself. It does not load the
  return address saved in that slot, so the saved address is never used
  (`VmCodeFacts.ReturnAt`).

## Model

| member | source | states |
|---|---|---|
| `PyStrings.Strip` | 06/Assembler/parser.py:18 | `strip()` leaves no whitespace at either end and never lengthens the string |
| `PyStrings.TrimLeftSuffix` | 06/Assembler/parser.py:18 | the left half of `strip()` keeps a suffix and drops only whitespace |
| `PyStrings.StripSlice` | 06/Assembler/parser.py:18 | `strip()` returns a slice of the string, and everything before and after that slice is whitespace |
| `PyStrings.SplitWs` | 07/translator/parser.py:74 | every token of `split()` is non-empty and free of whitespace |
| `PyStrings.SplitWsSkip` | 07/translator/parser.py:74 | any whitespace character in front, a tab as much as a space, adds no token to `split()` |
| `PyStrings.SplitWsCons` | 07/translator/parser.py:74 | a word followed by whitespace or the end is the first token of `split()`, and the rest is split the same way |
| `PyStrings.SplitThreeWords` | 07/translator/parser.py:85 | `"a b c".split()` is `[a, b, c]` for three words |
| `PyStrings.Before` | 06/Assembler/parser.py:67 | `s.split(c)[0]` is the longest prefix without `c`, followed by `c` or the end of `s` |
| `PyStrings.After` | 06/Assembler/parser.py:84 | the text after the first `c` is a suffix, and `s` is the text before it, then `c`, then it |
| `PyStrings.BeforeOfJoin` | 06/Assembler/parser.py:63-86 | splitting `a + c + rest` at `c` gives back `a` and `rest` when `c` is not in `a` |
| `PyStrings.CutComment` | 07/translator/parser.py:33-35 | `split("//")[0]` is a prefix with no `//` in it, ending where the first `//` starts |
| `PyStrings.CutCommentAt` | 06/Assembler/parser.py:45 | the cut returns exactly the text before `//` when that text holds no `/` |
| `PyStrings.DropCommentLines` | 06/Assembler/parser.py:12-14 | no line left starts with `//` |
| `PyStrings.DropEmpty` | 06/Assembler/parser.py:17-19 | `filter(None, …)` leaves no empty string |
| `PyStrings.StripAllAt` | 06/Assembler/parser.py:18 | line `k` of the stripped list is line `k` of the input, stripped |
| `PyStrings.CutCommentAllAt` | 07/translator/parser.py:33-35 | command `k` is line `k` cut at its first `//` |
| `PyStrings.ReplaceChar` | 06/Assembler/code.py:59 | `replace` keeps the length and changes exactly the occurrences of the replaced character |
| `PyStrings.ParseInt` | 06/Assembler/assembler.py:47 | `int()` accepts nothing that is blank after stripping |
| `PyStrings.ParseIntToString` | 06/Assembler/assembler.py:47 | `int(str(i)) == i` for every integer |
| `PyStrings.IntToStringInjective` | 07/translator/code_writer.py:250 | distinct integers are written as distinct `@n` operands |
| `PyStrings.NatToStringValue` | 07/translator/code_writer.py:250 | the decimal digits of `str(n)` read back as `n` |
| `PyStrings.BinValue` | 06/Assembler/assembler.py:79 | `bin(n)[2:]` is a bit string whose value is `n` |
| `PyStrings.BinLength` | 06/Assembler/assembler.py:79-80 | `bin(n)` has at most `k` digits when `n < 2^k` |
| `PyStrings.LeadingZerosValue` | 06/Assembler/assembler.py:80 | zero-filling keeps the value of a bit string |
| `AsmParser.CleanAsmLinesIsPerLine` | 06/Assembler/parser.py:9-19 | `commands` is the stripped, non-empty, non-comment lines, one per input line, in input order |
| `AsmParser.CleanAsmLinesAppend` | 06/Assembler/parser.py:12-19 | cleaning distributes over concatenation of the input |
| `AsmParser.AsmCommandOf` | 06/Assembler/parser.py:12-19 | each raw line contributes at most one command |
| `AsmParser.IndentedCommentKept` | 06/Assembler/parser.py:12-19 | an indented comment line escapes the `//` filter and, once current, is the empty command |
| `AsmParser.CommentOnlyCut` | 06/Assembler/parser.py:45 | a command that is only a comment becomes `""` in `advance` |
| `AsmParser.CurrentCommands` | 06/Assembler/parser.py:39-45 | `advance` yields one current command per stored command |
| `AsmParser.CurrentCommandsAt` | 06/Assembler/parser.py:42-45 | the `k`-th current command is `commands[k]` cut at `//` and stripped |
| `AsmParser.CurrentCommandsAppend` | 06/Assembler/parser.py:39-45 | the current-command view distributes over concatenation |
| `AsmParser.TypeOf` | 06/Assembler/parser.py:47-54 | A-command iff the command starts with `@`; L-command iff it starts with `(`; C-command otherwise |
| `AsmParser.SymbolOf` | 06/Assembler/parser.py:56-61 | an A-command is `@` + symbol; otherwise the symbol is the command without its first and last characters |
| `AsmParser.DestOf` | 06/Assembler/parser.py:63-69 | with `=`, dest is the text before the first `=`; without it, `null` |
| `AsmParser.CompOf` | 06/Assembler/parser.py:71-78 | comp holds no `;`, and no `=` when the command has one |
| `AsmParser.JumpOf` | 06/Assembler/parser.py:80-86 | jump holds no `;`; without `;` it is `null` |
| `AsmParser.SplitDestCompJump` | 06/Assembler/parser.py:63-86 | parsing `d=c;j` gives back `d`, `c` and `j` |
| `AsmParser.SplitCompJump` | 06/Assembler/parser.py:63-86 | parsing `c;j` gives dest `null`, comp `c` and jump `j` |
| `AsmParser.SplitDestComp` | 06/Assembler/parser.py:63-86 | parsing `d=c` gives dest `d`, comp `c` and jump `null` |
| `AsmParser.LabelSymbol` | 06/Assembler/parser.py:47-61 | `(name)` is an L-command with symbol `name` |
| `AsmParser.AddressSymbol` | 06/Assembler/parser.py:47-61 | `@value` is an A-command with symbol `value` |
| `AsmParser.Parser.constructor` | 06/Assembler/parser.py:9-22 | the parser holds the cleaned commands and no current command, before the first |
| `AsmParser.Parser.Reset` | 06/Assembler/parser.py:24-26 | the index goes back to -1, so `hasMoreCommands` holds again for a non-empty list |
| `AsmParser.Parser.HasMoreCommands` | 06/Assembler/parser.py:32-37 | true iff a command follows the current index |
| `AsmParser.Parser.Advance` | 06/Assembler/parser.py:39-45 | the index moves on by one, and the current command is that command, cut and stripped |
| `AsmParser.Parser.CommandType` | 06/Assembler/parser.py:47-54 | the type of the current command, as `TypeOf` states |
| `AsmParser.Parser.Symbol` | 06/Assembler/parser.py:56-61 | the symbol of the current command, as `SymbolOf` states |
| `AsmParser.Parser.Dest` | 06/Assembler/parser.py:63-69 | the dest of the current command, as `DestOf` states |
| `AsmParser.Parser.Comp` | 06/Assembler/parser.py:71-78 | the comp of the current command, as `CompOf` states |
| `AsmParser.Parser.Jump` | 06/Assembler/parser.py:80-86 | the jump of the current command, as `JumpOf` states |
| `HackCode.Dest` | 06/Assembler/code.py:52-54 | a KeyError iff the mnemonic is not in the table; otherwise three bits |
| `HackCode.Jump` | 06/Assembler/code.py:62-64 | a KeyError iff the mnemonic is not in the table; otherwise three bits |
| `HackCode.Comp` | 06/Assembler/code.py:56-60 | looks up the mnemonic with every `M` read as `A`; a KeyError iff that is not in the table; otherwise six bits |
| `HackCode.DestBitsNameRegisters` | 06/Assembler/code.py:9-18 | the dest bits, left to right, are 1 exactly when A, D, M occur in the mnemonic |
| `HackCode.DestTableShape` | 06/Assembler/code.py:9-18 | the dest table has exactly the eight mnemonics, and no two share a code |
| `HackCode.JumpBitsNameSigns` | 06/Assembler/code.py:20-29 | the jump bits, left to right, are 1 exactly when the jump is taken on a negative, zero, positive ALU output |
| `HackCode.JumpTableShape` | 06/Assembler/code.py:20-29 | the jump table has exactly the eight mnemonics, and no two share a code |
| `HackCode.CompCodesCompute` | 06/Assembler/code.py:31-50 | every comp code is six bits, and the Hack ALU driven by it computes what its mnemonic says, for all D and A |
| `HackCode.CompCodesConstants` | 06/Assembler/code.py:32-34 | the codes of `0`, `1`, `-1` compute those constants |
| `HackCode.CompCodesRegisters` | 06/Assembler/code.py:35-38 | the codes of `D`, `A`, `!D`, `!A` compute them |
| `HackCode.CompCodesNegate` | 06/Assembler/code.py:39-40 | the codes of `-D`, `-A` compute the 16-bit negations |
| `HackCode.CompCodesIncrement` | 06/Assembler/code.py:41-42 | the codes of `D+1`, `A+1` compute the 16-bit increments |
| `HackCode.CompCodesDecrement` | 06/Assembler/code.py:43-44 | the codes of `D-1`, `A-1` compute the 16-bit decrements |
| `HackCode.CompCodesSum` | 06/Assembler/code.py:45 | the code of `D+A` computes the 16-bit sum |
| `HackCode.CompCodesDifferences` | 06/Assembler/code.py:46-47 | the codes of `D-A`, `A-D` compute the 16-bit differences |
| `HackCode.CompCodesAndOr` | 06/Assembler/code.py:48-49 | the codes of `D&A`, `D|A` compute bitwise and/or |
| `HackCode.OrByDeMorgan` | 06/Assembler/code.py:49 | on 16-bit words, or is the negated and of the negations |
| `HackCode.BitsDeMorgan` | 06/Assembler/code.py:49 | De Morgan on `k`-bit numbers |
| `HackCode.AndOnes` | 06/Assembler/code.py:35-36 | all ones is the identity of and on 16-bit words |
| `HackCode.CompTableInjective` | 06/Assembler/code.py:31-50 | no two comp mnemonics share a code |
| `HackCode.CompMemoryForm` | 06/Assembler/code.py:56-60 | the M-form of a mnemonic has the code of its A-form |
| `HackCode.CompOfDPlusM` | 06/Assembler/code.py:56-60 | `comp("D+M") == comp("D+A") == 000010` |
| `AsmSymbols.RegisterNamesDiffer` | 06/Assembler/symbol_table.py:19-20 | `R<i>` and `R<j>` are different keys for `i != j` |
| `AsmSymbols.RegisterNotPredefined` | 06/Assembler/symbol_table.py:9-20 | no `R<i>` clashes with a named predefined symbol |
| `AsmSymbols.TableWithRegistersContents` | 06/Assembler/symbol_table.py:9-20 | after `n` rounds of the loop the table holds the named symbols, `R0`..`R<n-1>` with their addresses, and nothing else |
| `AsmSymbols.PredefinedKept` | 06/Assembler/symbol_table.py:9-20 | the loop never overwrites a named predefined symbol |
| `AsmSymbols.RegisterBound` | 06/Assembler/symbol_table.py:19-20 | `R<i>` is bound to `i` |
| `AsmSymbols.OnlyPredefinedOrRegister` | 06/Assembler/symbol_table.py:9-20 | every key is a named predefined symbol or a register added by the loop |
| `AsmSymbols.InitialTableContents` | 06/Assembler/symbol_table.py:7-22 | the initial table is SP..THAT at 0..4, SCREEN 16384, KBD 24576, R0..R15 at 0..15, and nothing else |
| `AsmSymbols.InitialAddressesReserved` | 06/Assembler/symbol_table.py:9-22 | every initial address is below 16 (the first variable address) or a device map |
| `AsmSymbols.PredefinedAddresses` | 06/Assembler/symbol_table.py:9-17 | every named predefined address is below 16 or a device map |
| `AsmSymbols.SymbolTable.constructor` | 06/Assembler/symbol_table.py:7-22 | the loop builds the initial table; the next variable address is 16 |
| `AsmSymbols.SymbolTable.AddEntry` | 06/Assembler/symbol_table.py:24-26 | the symbol is bound to the address, replacing any earlier binding; all other entries stay |
| `AsmSymbols.SymbolTable.Contains` | 06/Assembler/symbol_table.py:28-33 | true iff the symbol is a key |
| `AsmSymbols.SymbolTable.GetAddress` | 06/Assembler/symbol_table.py:35-37 | the bound address, or a KeyError iff the symbol is not a key |
| `AsmSymbols.SymbolTable.GetNextVariableAddress` | 06/Assembler/symbol_table.py:39-41 | the next variable address |
| `AsmSymbols.SymbolTable.IncrementNextVariableAddress` | 06/Assembler/symbol_table.py:43-45 | the next variable address goes up by exactly one |
| `Assembler.ConvertDecimalToBinary` | 06/Assembler/assembler.py:77-80 | the word has at least 16 characters |
| `Assembler.ConvertDecimalToBinaryValue` | 06/Assembler/assembler.py:77-80 | for `0 <= d < 2^16` the word is 16 bits whose value is `d` |
| `Assembler.ZFillUnsigned` | 06/Assembler/assembler.py:80 | `zfill` left-pads a bit string with zeros |
| `Assembler.NegativeAddressKeepsB` | 06/Assembler/assembler.py:79-80 | a negative number is not turned into bits: the word keeps the `b` of `-0b…` |
| `Assembler.EncodeC` | 06/Assembler/assembler.py:57-69 | 16 characters iff the comp, dest and jump mnemonics are all in their tables; otherwise a KeyError |
| `Assembler.EncodeCBits` | 06/Assembler/assembler.py:57-69 | a C-instruction word is all bits and starts with `111` |
| `Assembler.EncodeCFields` | 06/Assembler/assembler.py:57-69 | the word is `111`, the a-bit (1 iff `M` is in comp), then the comp, dest and jump codes |
| `Assembler.EncodeDestCompJump` | 06/Assembler/assembler.py:57-69 | `d=c;j` with known mnemonics encodes field by field |
| `Assembler.EncodeCompJump` | 06/Assembler/assembler.py:57-69 | `c;j` has dest bits `000` |
| `Assembler.EncodeDestComp` | 06/Assembler/assembler.py:57-69 | `d=c` has jump bits `000` |
| `Assembler.Instructions` | 06/Assembler/assembler.py:23-29 | at most one instruction per command |
| `Assembler.LabelsDeclared` | 06/Assembler/assembler.py:23-27 | a symbol is among the labels iff some command before `n` declares it |
| `Assembler.FirstPassInvariant` | 06/Assembler/assembler.py:19-29 | after `n` commands, `ROM_ADDRESS` is the instruction count minus one, the predefined symbols keep their addresses, and the table holds exactly the predefined symbols and the labels |
| `Assembler.LabelAddress` | 06/Assembler/assembler.py:23-27 | the first declaration of a new label binds it to the number of instructions before it; later ones are ignored |
| `Assembler.RecordCommand` | 06/Assembler/assembler.py:22-29 | one round of the first loop is one step of `FirstPassUpTo` |
| `Assembler.FirstPassOver` | 06/Assembler/assembler.py:19-29 | the first loop leaves the table of `FirstPassUpTo` over all commands |
| `Assembler.TranslateA` | 06/Assembler/assembler.py:43-55 | an A-instruction word has at least 16 characters |
| `Assembler.NumericAddress` | 06/Assembler/assembler.py:46-47 | a number below 2^16 is written as its own 16 bits and touches no table |
| `Assembler.SymbolicAddress` | 06/Assembler/assembler.py:48-55 | a bound symbol is written as its address; a new one takes the next variable address, which then moves on by one |
| `Assembler.TranslateAKeeps` | 06/Assembler/assembler.py:48-54 | an A-instruction keeps the first pass's bindings and gives each new variable its own address in [16, next) |
| `Assembler.TranslateCommand` | 06/Assembler/assembler.py:40-69 | a label yields no machine code, an instruction yields some; the only error is a KeyError |
| `Assembler.SecondPassStep` | 06/Assembler/assembler.py:40-72 | the only error of one step is a KeyError |
| `Assembler.SecondPassUpTo` | 06/Assembler/assembler.py:39-72 | the only error of the pass is a KeyError |
| `Assembler.SecondPassStepKeeps` | 06/Assembler/assembler.py:40-72 | one command keeps the variables allocated, and writes one word exactly when it is an instruction |
| `Assembler.SecondPassInvariant` | 06/Assembler/assembler.py:39-72 | the first pass's bindings never change, variables get distinct addresses from 16 up, and one word is written per instruction |
| `Assembler.SecondPassAfterNext` | 06/Assembler/assembler.py:39-72 | after a prefix that translates, the next command is one step of the pass |
| `Assembler.SecondPassErrorSticks` | 06/Assembler/assembler.py:39-72 | once a command fails, the whole pass fails |
| `Assembler.SecondPassErrorStep` | 06/Assembler/assembler.py:39-72 | a failure survives one more command |
| `Assembler.SecondPassWrittenStays` | 06/Assembler/assembler.py:39-72 | a command that fails, or comes after a failure, writes nothing to the file |
| `Assembler.SecondPassWrittenFrozen` | 06/Assembler/assembler.py:39-72 | once a command has failed, the file does not change whatever commands follow |
| `Assembler.SecondPassWrittenAfterError` | 06/Assembler/assembler.py:39-72 | when command `k` raises the KeyError, the file holds exactly the words of the commands before `k` |
| `Assembler.TranslateSymbol` | 06/Assembler/assembler.py:44-55 | the A-branch writes the word and updates the table and next address as `TranslateA` states |
| `Assembler.EncodeCurrent` | 06/Assembler/assembler.py:57-69 | the C-branch returns the word or KeyError of `EncodeC` |
| `Assembler.TranslateCurrent` | 06/Assembler/assembler.py:40-69 | one round of the second loop translates as `TranslateCommand` states |
| `Assembler.StepCurrent` | 06/Assembler/assembler.py:40-72 | one round appends the machine code, if any, as `SecondPassStep` states |
| `Assembler.SecondPassNext` | 06/Assembler/assembler.py:39-72 | advance and translate: the state after one more command of `SecondPassUpTo` |
| `Assembler.SecondPassOver` | 06/Assembler/assembler.py:31-72 | the second loop returns the words of `SecondPassUpTo`, or the KeyError of the first failing command, together with the words it has written to the file by then |
| `Assembler.Assemble` | 06/Assembler/assembler.py:11-74 | `main` on the lines of a file finishes with `AssembledLines` or raises its KeyError, and leaves `HackFile` in the `.hack` file either way |
| `Assembler.HackFileOfSuccess` | 06/Assembler/assembler.py:31-74 | when `main` finishes, the `.hack` file holds exactly the assembled words |
| `Assembler.HackFileOnError` | 06/Assembler/assembler.py:31-74 | when command `k` raises the KeyError, the `.hack` file `main` leaves holds the words of the commands before `k` |
| `Assembler.OneWordPerInstruction` | 06/Assembler/assembler.py:71-72 | a program that assembles has one word per A- or C-command; labels write nothing |
| `Assembler.EmptyCommandFails` | 06/Assembler/assembler.py:57-67 | the empty command is a C-instruction with comp `""`, which is a KeyError |
| `Assembler.BlankCommandFails` | 06/Assembler/assembler.py:39-67 | the second pass fails by the time it has passed an empty command |
| `Assembler.BlankCommandStops` | 06/Assembler/assembler.py:39-72 | a program with an empty command fails in the second pass |
| `Assembler.BlankCommandRejected` | 06/Assembler/assembler.py:11-74 | `main` rejects any program with an empty command |
| `Assembler.BlankLineRejected` | 06/Assembler/assembler.py:11-74 | a kept line that is blank before its `//` makes the whole file fail with a KeyError |
| `Assembler.IndentedCommentRejected` | 06/Assembler/parser.py:12-14 | a file with a comment line indented by whitespace fails with a KeyError |
| `Assembler.BlankLineIgnored` | 06/Assembler/parser.py:17-19 | with empty commands dropped, a line that is blank before its `//` changes nothing |
| `Assembler.IndentedCommentIgnored` | 06/Assembler/parser.py:12-19 | with empty commands dropped, an indented comment line changes nothing |
| `Assembler.SameCommandsSameWords` | 06/Assembler/assembler.py:11-74 | files with the same non-empty commands assemble to the same words |
| `VmParser.VmCommandOf` | 07/translator/parser.py:23-35 | each raw line contributes at most one command |
| `VmParser.CleanVmLinesIsPerLine` | 07/translator/parser.py:20-35 | `commands` is the non-comment, non-blank lines, stripped and cut at `//`, one per input line, in input order |
| `VmParser.IndentedCommentKept` | 07/translator/parser.py:23-35 | an indented comment line escapes the filter and becomes the empty command |
| `VmParser.InlineCommentKeepsSpace` | 07/translator/parser.py:33-35 | cutting an inline comment keeps the space before it |
| `VmParser.CommentedArithmeticRejected` | 07/translator/parser.py:52-62 | an arithmetic command followed by an inline comment is not classified |
| `VmParser.Classify` | 07/translator/parser.py:52-62 | only push, pop and arithmetic are classified; anything else is an UnboundLocalError |
| `VmParser.ClassifyKnownCommands` | 07/translator/parser.py:52-59 | the nine mnemonics are arithmetic; `push s i` is push and `pop s i` is pop |
| `VmParser.ClassifyRejects` | 07/translator/parser.py:52-61 | a command that is not `p…` and not a mnemonic is an error |
| `VmParser.ClassifyRejectsOtherKinds` | 07/translator/parser.py:52-61 | label, goto, if-goto, function, call and return are all errors |
| `VmParser.MnemonicShape` | 07/translator/parser.py:8-18 | the mnemonics are 2 or 3 letters and none starts with `p` |
| `VmParser.Arg1Of` | 07/translator/parser.py:64-74 | a ValueError iff the kind is return; for arithmetic, the stripped command; for any other kind, the second word of `split()`, or an IndexError iff there is none |
| `VmParser.Arg2Of` | 07/translator/parser.py:76-90 | a ValueError iff the kind is not push, pop, function or call; for those four, the third word of `split()`, or an IndexError iff there is none |
| `VmParser.ArgsOfThreeWords` | 07/translator/parser.py:64-90 | for `keyword first second`, `arg1` is `first` and `arg2` is `second` |
| `VmParser.Parser.constructor` | 07/translator/parser.py:20-38 | the parser holds the cleaned commands and no current command |
| `VmParser.Parser.HasMoreCommands` | 07/translator/parser.py:40-45 | true iff `current_index < len(commands) - 1` |
| `VmParser.Parser.Advance` | 07/translator/parser.py:47-50 | the index moves on by one, and that command becomes current |
| `VmParser.Parser.CommandType` | 07/translator/parser.py:52-62 | classifies the current command and records its kind |
| `VmParser.Parser.Arg1` | 07/translator/parser.py:64-74 | a ValueError on a return command; for every recorded kind, the result `Arg1Of` states |
| `VmParser.Parser.Arg2` | 07/translator/parser.py:76-90 | a ValueError on every kind but push, pop, function and call; for every recorded kind, the result `Arg2Of` states |
| `VmCodeWriter.Rom` | 07/translator/code_writer.py:84-87 | the ROM image keeps no label line and is never longer than the text |
| `VmCodeWriter.At` | 07/translator/code_writer.py:250 | `@n` is `@` followed by `str(n)` |
| `VmCodeWriter.SetDLines` | 07/translator/code_writer.py:248-251 | two instructions |
| `VmCodeWriter.IncrementSPLines` | 07/translator/code_writer.py:350-353 | two instructions |
| `VmCodeWriter.DecreaseSPLines` | 07/translator/code_writer.py:355-358 | two instructions |
| `VmCodeWriter.TopOfStackLines` | 07/translator/code_writer.py:345-348 | two instructions |
| `VmCodeWriter.PushDLines` | 07/translator/code_writer.py:330-335 | five instructions |
| `VmCodeWriter.PopToDLines` | 07/translator/code_writer.py:337-343 | five instructions |
| `VmCodeWriter.BinaryLines` | 07/translator/code_writer.py:253-320 | twelve instructions |
| `VmCodeWriter.UnaryLines` | 07/translator/code_writer.py:297-328 | seven instructions |
| `VmCodeWriter.PushFalseLines` | 07/translator/code_writer.py:372-385 | seven instructions |
| `VmCodeWriter.PushTrueLines` | 07/translator/code_writer.py:387-393 | five instructions |
| `VmCodeWriter.JumpLines` | 07/translator/code_writer.py:360-370 | fourteen instructions |
| `VmCodeWriter.CompareLines` | 07/translator/code_writer.py:272-295 | 24 instructions |
| `VmCodeWriter.ArithmeticLines` | 07/translator/code_writer.py:25-44 | 12 instructions for add/sub/and/or, 7 for neg/not, 24 for eq/gt/lt, none for anything else |
| `VmCodeWriter.PushConstantLines` | 07/translator/code_writer.py:212-215 | seven instructions |
| `VmCodeWriter.PushSegmentLines` | 07/translator/code_writer.py:217-226 | ten instructions |
| `VmCodeWriter.PopSegmentLines` | 07/translator/code_writer.py:228-246 | fourteen instructions |
| `VmCodeWriter.PushLines` | 07/translator/code_writer.py:48-66 | no label lines |
| `VmCodeWriter.PopLines` | 07/translator/code_writer.py:68-82 | no label lines |
| `VmCodeWriter.PushPopLines` | 07/translator/code_writer.py:46-82 | no label lines |
| `VmCodeWriter.LabelLines` | 07/translator/code_writer.py:84-87 | one line, a label |
| `VmCodeWriter.GotoLines` | 07/translator/code_writer.py:89-92 | two instructions |
| `VmCodeWriter.IfLines` | 07/translator/code_writer.py:94-98 | seven instructions |
| `VmCodeWriter.SaveSegmentLines` | 07/translator/code_writer.py:185-189 | seven instructions |
| `VmCodeWriter.CallCodeLines` | 07/translator/code_writer.py:100-132 | 53 instructions |
| `VmCodeWriter.SaveFrameLines` | 07/translator/code_writer.py:102-107 | 35 instructions |
| `VmCodeWriter.SetArgLines` | 07/translator/code_writer.py:109-122 | twelve instructions |
| `VmCodeWriter.CallLines` | 07/translator/code_writer.py:100-135 | 54 lines: 53 instructions, then the return label |
| `VmCodeWriter.ZeroLocalLines` | 07/translator/code_writer.py:146-150 | six instructions |
| `VmCodeWriter.ZeroLocalsLines` | 07/translator/code_writer.py:145-150 | six instructions per local, none for a count below one |
| `VmCodeWriter.FunctionLines` | 07/translator/code_writer.py:137-150 | one line for the label and six per local, none for a count below one |
| `VmCodeWriter.RepositionLines` | 07/translator/code_writer.py:191-210 | eight instructions |
| `VmCodeWriter.ReturnLines` | 07/translator/code_writer.py:152-183 | 54 instructions |
| `VmCodeWriter.ReturnValueLines` | 07/translator/code_writer.py:155-170 | sixteen instructions |
| `VmCodeWriter.RestoreSegmentsLines` | 07/translator/code_writer.py:173-176 | 32 instructions |
| `VmCodeWriter.CloseLines` | 07/translator/code_writer.py:395-400 | two instructions |
| `VmCodeWriter.InitLines` | 07/translator/code_writer.py:13-19 | 58 lines |
| `VmCodeWriter.Filestream.constructor` | 07/translator/code_writer.py:407-410 | no lines yet, and the counter is -1 |
| `VmCodeWriter.Filestream.Write` | 07/translator/code_writer.py:420-423 | one line appended, and the counter up by exactly one |
| `VmCodeWriter.CodeWriter.constructor` | 07/translator/code_writer.py:9-11 | an empty output with counter -1, in step with the ROM image |
| `VmCodeWriter.CodeWriter.SetFileName` | 07/translator/code_writer.py:21-23 | records the name and leaves the output alone |
| `VmCodeWriter.CodeWriter.SetDToIndex` | 07/translator/code_writer.py:248-251 | appends `SetDLines` and counts them |
| `VmCodeWriter.CodeWriter.IncrementSP` | 07/translator/code_writer.py:350-353 | appends `IncrementSPLines` and counts them |
| `VmCodeWriter.CodeWriter.DecreaseSP` | 07/translator/code_writer.py:355-358 | appends `DecreaseSPLines` and counts them |
| `VmCodeWriter.CodeWriter.SetAToTopOfStack` | 07/translator/code_writer.py:345-348 | appends `TopOfStackLines` and counts them |
| `VmCodeWriter.CodeWriter.PushDToStack` | 07/translator/code_writer.py:330-335 | appends `PushDLines` and counts them |
| `VmCodeWriter.CodeWriter.PopToD` | 07/translator/code_writer.py:337-343 | appends `PopToDLines` and counts them |
| `VmCodeWriter.CodeWriter.Binary` | 07/translator/code_writer.py:253-320 | appends `BinaryLines` and counts them |
| `VmCodeWriter.CodeWriter.Unary` | 07/translator/code_writer.py:297-328 | appends `UnaryLines` and counts them |
| `VmCodeWriter.CodeWriter.PushFalse` | 07/translator/code_writer.py:372-385 | appends `PushFalseLines` for the counter on entry |
| `VmCodeWriter.CodeWriter.PushTrue` | 07/translator/code_writer.py:387-393 | appends `PushTrueLines` and counts them |
| `VmCodeWriter.CodeWriter.Jump` | 07/translator/code_writer.py:360-370 | appends `JumpLines` for the counter on entry |
| `VmCodeWriter.CodeWriter.Compare` | 07/translator/code_writer.py:272-295 | appends `CompareLines` for the counter on entry |
| `VmCodeWriter.CodeWriter.PushConstant` | 07/translator/code_writer.py:212-215 | appends `PushConstantLines` and counts them |
| `VmCodeWriter.CodeWriter.PushSegmentIndex` | 07/translator/code_writer.py:217-226 | appends `PushSegmentLines` and counts them |
| `VmCodeWriter.CodeWriter.PopSegmentIndex` | 07/translator/code_writer.py:228-246 | appends `PopSegmentLines` and counts them |
| `VmCodeWriter.CodeWriter.SaveTargetAddress` | 07/translator/code_writer.py:233-240 | appends the address computation and its store to R13 |
| `VmCodeWriter.CodeWriter.StoreThroughR13` | 07/translator/code_writer.py:242-246 | appends the pop and the store through R13 |
| `VmCodeWriter.CodeWriter.SaveSegmentAddress` | 07/translator/code_writer.py:185-189 | appends `SaveSegmentLines` and counts them |
| `VmCodeWriter.CodeWriter.RepositionSegments` | 07/translator/code_writer.py:191-210 | appends `RepositionLines` and counts them |
| `VmCodeWriter.CodeWriter.SaveFrame` | 07/translator/code_writer.py:102-107 | appends `SaveFrameLines` and counts them |
| `VmCodeWriter.CodeWriter.SetArg` | 07/translator/code_writer.py:109-122 | appends `SetArgLines` and counts them |
| `VmCodeWriter.CodeWriter.CallCode` | 07/translator/code_writer.py:100-132 | appends `CallCodeLines` and counts them |
| `VmCodeWriter.CodeWriter.ZeroLocal` | 07/translator/code_writer.py:146-150 | appends `ZeroLocalLines` and counts them |
| `VmCodeWriter.CodeWriter.ZeroLocals` | 07/translator/code_writer.py:145-150 | the loop appends `ZeroLocalsLines` and counts them |
| `VmCodeWriter.CodeWriter.RestoreSegments` | 07/translator/code_writer.py:173-176 | appends `RestoreSegmentsLines` and counts them |
| `VmCodeWriter.CodeWriter.ReturnValue` | 07/translator/code_writer.py:155-170 | appends `ReturnValueLines` and counts them |
| `VmCodeWriter.CodeWriter.WriteArithmetic` | 07/translator/code_writer.py:25-44 | appends `ArithmeticLines` for the counter on entry; the drift is unchanged |
| `VmCodeWriter.CodeWriter.Push` | 07/translator/code_writer.py:48-66 | appends `PushLines` and counts them |
| `VmCodeWriter.CodeWriter.Pop` | 07/translator/code_writer.py:68-82 | appends `PopLines` and counts them |
| `VmCodeWriter.CodeWriter.WritePushPop` | 07/translator/code_writer.py:46-82 | appends `PushPopLines`; the drift is unchanged |
| `VmCodeWriter.CodeWriter.WriteLabel` | 07/translator/code_writer.py:84-87 | appends `(label)`; the counter and the drift are unchanged |
| `VmCodeWriter.CodeWriter.WriteGoto` | 07/translator/code_writer.py:89-92 | appends `GotoLines`; the drift is unchanged |
| `VmCodeWriter.CodeWriter.WriteIf` | 07/translator/code_writer.py:94-98 | appends `IfLines`; the drift is unchanged |
| `VmCodeWriter.CodeWriter.WriteCall` | 07/translator/code_writer.py:100-135 | appends `CallLines` and counts all 54 lines, so the drift grows by one |
| `VmCodeWriter.CodeWriter.WriteCallSynced` | 07/translator/code_writer.py:100-135 | appends `CallLines` and counts only the 53 instructions, so the drift is unchanged |
| `VmCodeWriter.CodeWriter.WriteFunction` | 07/translator/code_writer.py:137-150 | appends `FunctionLines` and counts all but the label; the drift is unchanged |
| `VmCodeWriter.CodeWriter.WriteReturn` | 07/translator/code_writer.py:152-183 | appends `ReturnLines`; the drift is unchanged |
| `VmCodeWriter.CodeWriter.WriteInit` | 07/translator/code_writer.py:13-19 | appends `InitLines`; the drift grows by one, through `writeCall` |
| `VmCodeWriter.CodeWriter.Close` | 07/translator/code_writer.py:395-400 | appends `CloseLines` for the counter on entry; the drift is unchanged |
| `VmCodeWriter.RomAppend` | 07/translator/code_writer.py:420-423 | the ROM image of appended text is the ROM images appended |
| `VmCodeWriter.RomAppendCode` | 07/translator/code_writer.py:420-423 | appending instructions appends them to the ROM image |
| `VmCodeWriter.RomAppendLabel` | 07/translator/code_writer.py:84-87 | a label line adds nothing to the ROM image |
| `VmCodeWriter.FunctionRom` | 07/translator/code_writer.py:137-150 | a function declaration adds only its zeroing code to the ROM image |
| `VmCodeWriter.CallRom` | 07/translator/code_writer.py:100-135 | a call adds its 53 instructions to the ROM image; its label adds none |
| `VmCodeFacts.BlockBumps` | 07/translator/code_writer.py:330-358 | each stack helper moves SP up or down the stated number of times |
| `VmCodeFacts.BinaryBumps` | 07/translator/code_writer.py:253-320 | add, sub, and, or decrement SP twice and increment it once |
| `VmCodeFacts.UnaryBumps` | 07/translator/code_writer.py:297-328 | neg and not decrement SP once and increment it once |
| `VmCodeFacts.CompareParts` | 07/translator/code_writer.py:272-295 | a comparison is the operand pops and test, then the false block, then the true block |
| `VmCodeFacts.CompareLinesAt` | 07/translator/code_writer.py:360-393 | the comparison's jump operands are `c + 20` and `c + 25`, and the true block starts with `@SP` |
| `VmCodeFacts.CompareBumps` | 07/translator/code_writer.py:272-295 | a comparison decrements SP twice before its jump, and each branch increments it once |
| `VmCodeFacts.ArithmeticStackEffect` | 07/translator/code_writer.py:25-44 | the SP movements of every arithmetic command; an unknown one emits nothing |
| `VmCodeFacts.PushMapping` | 07/translator/code_writer.py:48-66 | push constant loads the index; the other segments read base + index with their base and addressing; an unknown segment emits nothing |
| `VmCodeFacts.PopMapping` | 07/translator/code_writer.py:68-82 | pop writes base + index for the same table; constant and unknown segments emit nothing |
| `VmCodeFacts.PushStackEffect` | 07/translator/code_writer.py:46-66 | a push increments SP once and never decrements it |
| `VmCodeFacts.PopStackEffect` | 07/translator/code_writer.py:68-82 | a pop decrements SP once and never increments it |
| `VmCodeFacts.PushSegmentBumps` | 07/translator/code_writer.py:217-226 | a segment push increments SP once |
| `VmCodeFacts.PopSegmentBumps` | 07/translator/code_writer.py:228-246 | a segment pop decrements SP once |
| `VmCodeFacts.PopThroughR13` | 07/translator/code_writer.py:228-246 | the 14 lines: the address into R13, the pop, the store through R13; R13 is not touched in between |
| `VmCodeFacts.RomLength` | 07/translator/code_writer.py:84-87 | every line is an instruction or a label |
| `VmCodeFacts.CounterInStep` | 07/translator/code_writer.py:410-423 | with no drift, the counter is lines written minus labels minus one |
| `VmCodeFacts.CompareTargets` | 07/translator/code_writer.py:360-393 | both comparison jumps land `drift` instructions past the true block's `@SP` and past the comparison |
| `VmCodeFacts.CompareJumpsLand` | 07/translator/code_writer.py:360-393 | in step, the conditional jump lands on the true block's `@SP` and the false block jumps to the first instruction after the comparison |
| `VmCodeFacts.CloseTargets` | 07/translator/code_writer.py:395-400 | `close` jumps to its own `0;JMP`, shifted by the drift |
| `VmCodeFacts.CloseSelfLoop` | 07/translator/code_writer.py:395-400 | in step, `close` is a one-instruction loop |
| `VmCodeFacts.CallThenCompareMisses` | 07/translator/code_writer.py:135 | after a call, a comparison jumps one instruction past both of its targets |
| `VmCodeFacts.CallThenCompare` | 07/translator/code_writer.py:100-135 | the same, through the writer methods as written |
| `VmCodeFacts.CallThenCompareSynced` | 07/translator/code_writer.py:100-135 | with the synced call, both jumps land on their targets |
| `VmCodeFacts.CallLayout` | 07/translator/code_writer.py:100-135 | a call pushes the return address, LCL, ARG, THIS, THAT; sets ARG := SP - n - 5 and LCL := SP; jumps; declares the return label; 53 ROM words |
| `VmCodeFacts.CallFrameLayout` | 07/translator/code_writer.py:102-107 | the five pushes, in order |
| `VmCodeFacts.CallArgLayout` | 07/translator/code_writer.py:109-122 | ARG := SP, then minus n, then minus 5 |
| `VmCodeFacts.CallJumpLayout` | 07/translator/code_writer.py:124-135 | LCL := SP, the jump, then the return label |
| `VmCodeFacts.CallParts` | 07/translator/code_writer.py:100-135 | a call is the saved frame, the new ARG, then the jump part |
| `VmCodeFacts.CallBumps` | 07/translator/code_writer.py:100-135 | a call increments SP five times and never decrements it |
| `VmCodeFacts.SaveSegmentBumps` | 07/translator/code_writer.py:185-189 | saving a segment increments SP once |
| `VmCodeFacts.SaveFrameBumps` | 07/translator/code_writer.py:102-107 | saving the frame increments SP five times |
| `VmCodeFacts.ReturnLabelShared` | 07/translator/code_writer.py:103-135 | every call of one function pushes the same return address and declares the same label |
| `VmCodeFacts.ZeroLocalsLayout` | 07/translator/code_writer.py:145-150 | block `i` of the loop zeroes local `i` |
| `VmCodeFacts.FunctionZeroesLocals` | 07/translator/code_writer.py:137-150 | the label, then for i = 0 .. k-1 in order, RAM[LCL + i] := 0 |
| `VmCodeFacts.FunctionLeavesSP` | 07/translator/code_writer.py:137-150 | `writeFunction` never addresses SP |
| `VmCodeFacts.RepositionQuiet` | 07/translator/code_writer.py:191-210 | restoring a segment never addresses SP |
| `VmCodeFacts.ReturnValueFrontBumps` | 07/translator/code_writer.py:155-164 | FRAME := LCL and the store of the return value decrement SP once |
| `VmCodeFacts.ReturnValueBumps` | 07/translator/code_writer.py:155-170 | the first part of a return decrements SP once |
| `VmCodeFacts.ReturnTailAvoidsSP` | 07/translator/code_writer.py:172-183 | after SP := ARG + 1, a return never addresses SP |
| `VmCodeFacts.ReturnBumps` | 07/translator/code_writer.py:152-183 | a return decrements SP once and never increments it |
| `VmCodeFacts.RestoreAt` | 07/translator/code_writer.py:172-176 | THAT, THIS, ARG, LCL are restored in that order, from FRAME - 1 .. FRAME - 4 |
| `VmCodeFacts.ReturnAt` | 07/translator/code_writer.py:152-183 | the same positions within the return; the return ends `@5, D=A, @FRAME, D=M-D, A=D, 0;JMP`, a jump to the address FRAME - 5 itself, with no read of that slot |
| `VmCodeFacts.CallSlot` | 07/translator/code_writer.py:102-107 | the call saves a segment with frame offset k as push number 5 - k |
| `VmCodeFacts.ReturnSlot` | 07/translator/code_writer.py:191-210 | the return restores that segment from FRAME - k |
| `VmCodeFacts.FrameLayoutAgrees` | 07/translator/code_writer.py:100-210 | call and return agree on the frame slot of each saved segment; the call's first push is the return label and the return's last block loads the offset 5 |

## Left out

- File I/O. `open`, `readlines`, `write` to a file, `close` of the file,
  `sys.argv` and `os.path.splitext` are not modelled. Input is a sequence of
  lines without their newline characters. Output is a sequence of lines.
- `07/translator/VMtranslator.py` is not part of this model. It finds the
  files and drives the parser and the writer, which are modelled directly.
- `Parser.getNextCommandAddress` (06/Assembler/parser.py:28-30) is not
  modelled. Its field is never updated, and nothing calls it.
- `Parser._contains` (06/Assembler/parser.py:88-93) is not modelled.
  Nothing calls it.
- `Filestream.getFileStream` and `Filestream.close` are not modelled; they
  only handle the file. `get_global_counter` is a read of the
  `globalCounter` field.
- The emitted Hack code is not executed. The properties are about the
  emitted text: line counts, order, stack-pointer movements and jump-target
  addresses.
- `PyStrings.ParseInt`: Python's `int()` also accepts underscores between
  digits and non-ASCII decimal digits. The model accepts only an optional
  sign and ASCII digits, around `strip()` whitespace.
- `PyStrings.IsSpace` follows `str.isspace()` on the Unicode whitespace
  characters. Other Unicode handling (case, normalisation) does not arise.
- `Assembler.ConvertDecimalToBinaryValue` is stated only for
  `0 <= d < 2^16`. For other numbers `bin` gives no 16-bit word;
  `Assembler.NegativeAddressKeepsB` states what it gives for negative ones.

## Findings

| source | as written | input that shows it | evidently intended | confidence | as-written member | corrected member |
|---|---|---|---|---|---|---|
| 07/translator/code_writer.py:135 | `writeCall` writes its return label through `write`, which counts it like an instruction. `writeLabel` and `writeFunction` take their label back off the counter; `writeCall` does not. After a call the counter is one ahead of the ROM addresses, and every later counted jump lands one instruction late. | `call f 0` then `eq` on a fresh writer: the comparison jumps to ROM 73 instead of 72, and its false block jumps to 78, past the 77 instructions | the counter stays in step, as after `writeLabel` | not executed | `VmCodeFacts.CallThenCompareMisses` | `VmCodeFacts.CallThenCompareSynced` |
| 06/Assembler/parser.py:12-19 | The `//` filter tests the raw line, before `strip`. An indented comment line therefore survives as a command. `advance` cuts it to `""`, which the second pass treats as a C-instruction with an unknown comp, so `main` stops with a KeyError. | a file containing the line `    // note` | an indented comment is ignored like any other comment line | not executed | `Assembler.IndentedCommentRejected` | `Assembler.IndentedCommentIgnored` |
