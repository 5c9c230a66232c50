/**
 * The Hack assembler's parser (06/Assembler/parser.py): the list of commands
 * built from the lines of a `.asm` file, a cursor over it, and the pure
 * splits of the current command into its type, symbol and `dest=comp;jump`
 * fields.
 */
module AsmParser {
  import opened Results
  import opened PyStrings

  datatype CommandType = A_Command | C_Command | L_Command

  // ---------------------------------------------------------------------------
  // The command list
  // ---------------------------------------------------------------------------

  /**
   * `commands` of `Parser.__init__`: drop the lines starting with `//`, strip
   * the others and drop those left empty. The `//` test is made on the raw,
   * unstripped line.
   */
  function CleanAsmLines(raw: seq<string>): seq<string> {
    DropEmpty(StripAll(DropCommentLines(raw)))
  }

  /** What one raw line contributes to `commands`: nothing or its stripped text. */
  function AsmCommandOf(line: string): (r: seq<string>)
    ensures |r| <= 1
  {
    if StartsWith(line, "//") || Strip(line) == [] then [] else [Strip(line)]
  }

  /** Reference definition: the per-line contributions, in input order. */
  function AsmCommandsOf(raw: seq<string>): seq<string> {
    if raw == [] then [] else AsmCommandOf(raw[0]) + AsmCommandsOf(raw[1..])
  }

  lemma {:induction false} CleanAsmLinesSingle(line: string)
    ensures CleanAsmLines([line]) == AsmCommandOf(line)
  {
  }

  /** The three filters treat every line on its own and keep the order of the lines. */
  lemma {:induction false} CleanAsmLinesIsPerLine(raw: seq<string>)
    ensures CleanAsmLines(raw) == AsmCommandsOf(raw)
  {
    if raw != [] {
      var rest := raw[1..];
      assert raw == [raw[0]] + rest;
      DropCommentLinesAppend([raw[0]], rest);
      var a := DropCommentLines([raw[0]]);
      var b := DropCommentLines(rest);
      StripAllAppend(a, b);
      DropEmptyAppend(StripAll(a), StripAll(b));
      CleanAsmLinesSingle(raw[0]);
      CleanAsmLinesIsPerLine(rest);
    }
  }

  lemma {:induction false} CleanAsmLinesAppend(a: seq<string>, b: seq<string>)
    ensures CleanAsmLines(a + b) == CleanAsmLines(a) + CleanAsmLines(b)
  {
    DropCommentLinesAppend(a, b);
    StripAllAppend(DropCommentLines(a), DropCommentLines(b));
    DropEmptyAppend(StripAll(DropCommentLines(a)), StripAll(DropCommentLines(b)));
  }

  /**
   * An indented comment line is not caught by the `//` filter: it becomes
   * the command `//…`, whose text before the first `//` is empty.
   */
  lemma {:induction false} IndentedCommentKept(indent: string, text: string)
    requires indent != [] && forall i :: 0 <= i < |indent| ==> IsSpace(indent[i])
    requires text == [] || !IsSpace(text[|text| - 1])
    ensures CleanAsmLines([indent + "//" + text]) == ["//" + text]
    ensures Current("//" + text) == ""
  {
    IndentedCommentLine(indent, text);
    CleanAsmLinesSingle(indent + "//" + text);
    CommentOnlyCut(text);
  }

  lemma {:induction false} IndentedCommentLine(indent: string, text: string)
    requires indent != [] && forall i :: 0 <= i < |indent| ==> IsSpace(indent[i])
    requires text == [] || !IsSpace(text[|text| - 1])
    ensures AsmCommandOf(indent + "//" + text) == ["//" + text]
  {
    DiffersAt(indent + "//" + text, "//", 0);
    StripIndented(indent, text);
  }

  lemma {:induction false} StripIndented(indent: string, text: string)
    requires forall i :: 0 <= i < |indent| ==> IsSpace(indent[i])
    requires text == [] || !IsSpace(text[|text| - 1])
    ensures Strip(indent + "//" + text) == "//" + text
  {
    assert indent + "//" + text == indent + ("//" + text);
    TrimLeftSpaces(indent, "//" + text);
    StripNoop("//" + text);
  }

  lemma {:induction false} CommentOnlyCut(text: string)
    ensures Current("//" + text) == ""
  {
    CutCommentAt([], text);
    assert [] + "//" + text == "//" + text;
  }

  // ---------------------------------------------------------------------------
  // The fields of one command
  // ---------------------------------------------------------------------------

  /** `advance`'s view of a command: the text before the first `//`, stripped. */
  function Current(command: string): string {
    Strip(CutComment(command))
  }

  /** The commands as `advance` makes each of them current, in order. */
  function CurrentCommands(commands: seq<string>): (r: seq<string>)
    ensures |r| == |commands|
  {
    if commands == [] then [] else [Current(commands[0])] + CurrentCommands(commands[1..])
  }

  /** The `k`-th command made current is `commands[k]` cut and stripped. */
  lemma {:induction false} CurrentCommandsAt(commands: seq<string>, k: nat)
    requires k < |commands|
    ensures CurrentCommands(commands)[k] == Current(commands[k])
  {
    if k > 0 {
      CurrentCommandsAt(commands[1..], k - 1);
    }
  }

  lemma {:induction false} CurrentCommandsAppend(a: seq<string>, b: seq<string>)
    ensures CurrentCommands(a + b) == CurrentCommands(a) + CurrentCommands(b)
  {
    if a != [] {
      assert (a + b)[1..] == a[1..] + b;
      CurrentCommandsAppend(a[1..], b);
    } else {
      assert a + b == b;
    }
  }

  /** `commandType`: by the first character, `@` before `(`; everything else is a C-command. */
  function TypeOf(command: string): (r: CommandType)
    ensures r == A_Command <==> |command| > 0 && command[0] == '@'
    ensures r == L_Command <==> |command| > 0 && command[0] == '('
  {
    if StartsWith(command, "@") then A_Command
    else if StartsWith(command, "(") then L_Command
    else C_Command
  }

  /** `symbol`: without the `@` of an A-command, else without the first and last characters. */
  function SymbolOf(command: string): (r: string)
    ensures |command| > 0 && command[0] == '@' ==> command == "@" + r
    ensures (|command| == 0 || command[0] != '@') && |command| >= 2 ==>
      command == [command[0]] + r + [command[|command| - 1]]
    ensures (|command| == 0 || command[0] != '@') && |command| < 2 ==> r == []
  {
    if StartsWith(command, "@") then command[1..]
    else if |command| < 2 then []
    else command[1..|command| - 1]
  }

  /** `dest`: the text before the first `=`, or `null`. */
  function DestOf(command: string): (r: string)
    ensures '=' in command ==> '=' !in r && |r| < |command| && command[..|r|] == r && command[|r|] == '='
    ensures '=' !in command ==> r == "null"
  {
    if '=' in command then Before(command, '=') else "null"
  }

  /**
   * `comp`: between the first `=` and the next `=` or `;` when there is an
   * `=`, else the text before the first `;`.
   */
  function CompOf(command: string): (r: string)
    ensures ';' !in r
    ensures '=' in command ==> '=' !in r
  {
    if '=' in command && ';' in command then Before(SecondField(command, '='), ';')
    else if '=' in command then SecondField(command, '=')
    else Before(command, ';')
  }

  /** `jump`: the text after the first `;` up to the next `;`, or `null`. */
  function JumpOf(command: string): (r: string)
    ensures ';' !in r
    ensures ';' !in command ==> r == "null"
  {
    if ';' in command then SecondField(command, ';') else "null"
  }

  /** The full instruction `d=c;j` splits back into its three fields. */
  lemma {:induction false} SplitDestCompJump(d: string, c: string, j: string)
    requires '=' !in d && ';' !in d && '=' !in c && ';' !in c && '=' !in j && ';' !in j
    ensures var command := d + "=" + c + ";" + j;
      DestOf(command) == d && CompOf(command) == c && JumpOf(command) == j
  {
    var rest := c + ";" + j;
    var command := d + "=" + c + ";" + j;
    assert command == d + ['='] + rest;
    assert DestOf(command) == d && SecondField(command, '=') == rest by {
      SplitAtEquals(d, rest);
    }
    assert ';' in command by {
      assert command[|d| + 1 + |c|] == ';';
    }
    assert Before(rest, ';') == c by {
      assert rest == c + [';'] + j;
      BeforeOfJoin(c, ';', j);
    }
    assert JumpOf(command) == j by {
      assert command == (d + "=" + c) + [';'] + j;
      SplitAtSemicolon(d + "=" + c, j);
    }
  }

  lemma {:induction false} SplitAtEquals(d: string, rest: string)
    requires '=' !in d && '=' !in rest
    ensures var command := d + ['='] + rest;
      '=' in command && DestOf(command) == d && SecondField(command, '=') == rest
  {
    var command := d + ['='] + rest;
    assert command[|d|] == '=';
    BeforeOfJoin(d, '=', rest);
    BeforeAbsent(rest, '=');
  }

  lemma {:induction false} SplitAtSemicolon(front: string, j: string)
    requires ';' !in front && ';' !in j
    ensures JumpOf(front + [';'] + j) == j
  {
    var command := front + [';'] + j;
    assert command[|front|] == ';';
    BeforeOfJoin(front, ';', j);
    BeforeAbsent(j, ';');
  }

  /** `c;j` has the dest `null`. */
  lemma {:induction false} SplitCompJump(c: string, j: string)
    requires '=' !in c && ';' !in c && '=' !in j && ';' !in j
    ensures var command := c + ";" + j;
      DestOf(command) == "null" && CompOf(command) == c && JumpOf(command) == j
  {
    var command := c + ";" + j;
    assert command == c + [';'] + j;
    BeforeOfJoin(c, ';', j);
    BeforeAbsent(j, ';');
  }

  /** `d=c` has the jump `null`. */
  lemma {:induction false} SplitDestComp(d: string, c: string)
    requires '=' !in d && ';' !in d && '=' !in c && ';' !in c
    ensures var command := d + "=" + c;
      DestOf(command) == d && CompOf(command) == c && JumpOf(command) == "null"
  {
    var command := d + "=" + c;
    assert command == d + ['='] + c;
    BeforeOfJoin(d, '=', c);
    BeforeAbsent(c, '=');
  }

  /** A label declaration `(name)` is an L-command whose symbol is `name`. */
  lemma {:induction false} LabelSymbol(name: string)
    ensures TypeOf("(" + name + ")") == L_Command
    ensures SymbolOf("(" + name + ")") == name
  {
    var command := "(" + name + ")";
    assert command[1..|command| - 1] == name;
  }

  /** `@value` is an A-command whose symbol is `value`. */
  lemma {:induction false} AddressSymbol(value: string)
    ensures TypeOf("@" + value) == A_Command
    ensures SymbolOf("@" + value) == value
  {
    assert ("@" + value)[1..] == value;
  }

  // ---------------------------------------------------------------------------
  // The cursor
  // ---------------------------------------------------------------------------

  /** `Parser`: the command list and the position of the current command. */
  class Parser {
    var commands: seq<string>
    var currentIndex: int
    var currentCommand: Option<string>

    ghost predicate Valid()
      reads this
    {
      && -1 <= currentIndex < |commands|
      && (currentIndex >= 0 ==> currentCommand == Some(Current(commands[currentIndex])))
    }

    /** `Parser.__init__` over the lines of the file. */
    constructor (raw: seq<string>)
      ensures Valid()
      ensures commands == CleanAsmLines(raw) && currentIndex == -1 && currentCommand == None
    {
      commands := CleanAsmLines(raw);
      currentIndex := -1;
      currentCommand := None;
    }

    /** `reset`: back before the first command; the current command is left as it is. */
    method Reset()
      requires Valid()
      modifies this`currentIndex
      ensures Valid() && currentIndex == -1
    {
      currentIndex := -1;
    }

    /** `hasMoreCommands`. */
    function HasMoreCommands(): (b: bool)
      reads this
      ensures b <==> currentIndex + 1 < |commands|
    {
      currentIndex < |commands| - 1
    }

    /** `advance`: the next command, cut at its first `//` and stripped. */
    method Advance()
      requires Valid() && HasMoreCommands()
      modifies this
      ensures Valid()
      ensures currentIndex == old(currentIndex) + 1 && commands == old(commands)
      ensures currentCommand == Some(Current(commands[currentIndex]))
    {
      currentIndex := currentIndex + 1;
      currentCommand := Some(Current(commands[currentIndex]));
    }

    /** `commandType` of the current command; the contract of `TypeOf` says what it is. */
    function CommandType(): (r: CommandType)
      reads this
      requires currentCommand.Some?
      ensures r == TypeOf(currentCommand.value)
    {
      TypeOf(currentCommand.value)
    }

    /** `symbol` of the current command; the contract of `SymbolOf` says what it is. */
    function Symbol(): (r: string)
      reads this
      requires currentCommand.Some?
      ensures r == SymbolOf(currentCommand.value)
    {
      SymbolOf(currentCommand.value)
    }

    /** `dest` of the current command; the contract of `DestOf` says what it is. */
    function Dest(): (r: string)
      reads this
      requires currentCommand.Some?
      ensures r == DestOf(currentCommand.value)
    {
      DestOf(currentCommand.value)
    }

    /** `comp` of the current command; the contract of `CompOf` says what it is. */
    function Comp(): (r: string)
      reads this
      requires currentCommand.Some?
      ensures r == CompOf(currentCommand.value)
    {
      CompOf(currentCommand.value)
    }

    /** `jump` of the current command; the contract of `JumpOf` says what it is. */
    function Jump(): (r: string)
      reads this
      requires currentCommand.Some?
      ensures r == JumpOf(currentCommand.value)
    {
      JumpOf(currentCommand.value)
    }
  }
}
