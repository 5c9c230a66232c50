/**
 * The VM-command parser of the translator (07/translator/parser.py): it turns
 * the lines of one `.vm` file into a list of commands and walks that list,
 * classifying the current command and extracting its arguments.
 */
module VmParser {
  import opened Results
  import opened PyStrings

  /** The nine kinds of VM command (`CommandType`). */
  datatype CommandType =
    | C_Arithmetic | C_Push | C_Pop | C_Label | C_Goto | C_If | C_Return | C_Function | C_Call

  /** `Parser.ARITHMETIC_COMMANDS`. */
  const ArithmeticCommands: seq<string> := ["add", "sub", "neg", "eq", "gt", "lt", "and", "or", "not"]

  /**
   * The `commands` list `Parser.__init__` builds from the raw lines: lines
   * beginning with `//` are dropped, the rest stripped, empty ones dropped,
   * and each is cut at its first `//` (without stripping again).
   */
  function CleanVmLines(raw: seq<string>): seq<string> {
    CutCommentAll(DropEmpty(StripAll(DropCommentLines(raw))))
  }

  /** What one raw line contributes to `commands`: nothing or one command. */
  function VmCommandOf(line: string): (r: seq<string>)
    ensures |r| <= 1
  {
    if StartsWith(line, "//") || Strip(line) == [] then [] else [CutComment(Strip(line))]
  }

  /** Reference definition: the per-line contributions, in input order. */
  function VmCommandsOf(raw: seq<string>): seq<string> {
    if raw == [] then [] else VmCommandOf(raw[0]) + VmCommandsOf(raw[1..])
  }

  lemma {:induction false} CleanVmLinesSingle(line: string)
    ensures CleanVmLines([line]) == VmCommandOf(line)
  {
  }

  /** The four-stage pipeline treats every line on its own and keeps the order of the lines. */
  lemma {:induction false} CleanVmLinesIsPerLine(raw: seq<string>)
    ensures CleanVmLines(raw) == VmCommandsOf(raw)
  {
    if raw != [] {
      var rest := raw[1..];
      assert raw == [raw[0]] + rest;
      DropCommentLinesAppend([raw[0]], rest);
      var a := DropCommentLines([raw[0]]);
      var b := DropCommentLines(rest);
      StripAllAppend(a, b);
      DropEmptyAppend(StripAll(a), StripAll(b));
      CutCommentAllAppend(DropEmpty(StripAll(a)), DropEmpty(StripAll(b)));
      CleanVmLinesSingle(raw[0]);
      CleanVmLinesIsPerLine(rest);
    }
  }

  lemma {:induction false} StripIndented(indent: string, text: string)
    requires forall i :: 0 <= i < |indent| ==> IsSpace(indent[i])
    requires text == [] || !IsSpace(text[|text| - 1])
    ensures Strip(indent + "//" + text) == "//" + text
  {
    assert indent + "//" + text == indent + ("//" + text);
    TrimLeftSpaces(indent, "//" + text);
    StripNoop("//" + text);
  }

  /** An indented comment survives the filter on raw lines and becomes an empty command. */
  lemma {:induction false} IndentedCommentKept(indent: string, text: string)
    requires indent != [] && forall i :: 0 <= i < |indent| ==> IsSpace(indent[i])
    requires text == [] || !IsSpace(text[|text| - 1])
    ensures CleanVmLines([indent + "//" + text]) == [""]
  {
    var line := indent + "//" + text;
    assert !StartsWith(line, "//") by {
      DiffersAt(line, "//", 0);
    }
    assert Strip(line) == "//" + text by {
      StripIndented(indent, text);
    }
    assert CutComment("//" + text) == "" by {
      assert [] + "//" + text == "//" + text;
      CutCommentAt([], text);
    }
    CleanVmLinesSingle(line);
  }

  /** An inline comment leaves the whitespace before it in the command. */
  lemma {:induction false} InlineCommentKeepsSpace(command: string, text: string)
    requires command != [] && !IsSpace(command[0]) && '/' !in command
    requires text == [] || !IsSpace(text[|text| - 1])
    ensures CleanVmLines([command + " //" + text]) == [command + " "]
  {
    var line := command + " //" + text;
    var kept := command + " ";
    assert line == kept + "//" + text;
    assert !StartsWith(line, "//") by {
      DiffersAt(line, "//", 0);
    }
    assert Strip(line) == line by {
      assert line[0] == command[0];
      assert line[|line| - 1] == if text == [] then '/' else text[|text| - 1];
      StripNoop(line);
    }
    assert CutComment(line) == kept by {
      assert '/' !in kept;
      CutCommentAt(kept, text);
    }
    CleanVmLinesSingle(line);
  }

  /**
   * `commandType`: `push…` and `pop…` by prefix, the arithmetic mnemonics by
   * exact match; anything else leaves `type` unbound (UnboundLocalError).
   */
  function Classify(command: string): (r: Result<CommandType>)
    ensures r.Ok? ==> r.value in {C_Push, C_Pop, C_Arithmetic}
    ensures r.Err? ==> r.error == UnboundLocalError
  {
    if StartsWith(command, "push") then Ok(C_Push)
    else if StartsWith(command, "pop") then Ok(C_Pop)
    else if command in ArithmeticCommands then Ok(C_Arithmetic)
    else Err(UnboundLocalError)
  }

  /** `arg1`: an error on `return`, the whole (stripped) command for arithmetic, else the second word. */
  function Arg1Of(kind: CommandType, command: string): (r: Result<string>)
    ensures r.Ok? ==> NoSpace(r.value) || kind == C_Arithmetic
    ensures kind == C_Return <==> r == Err(ValueError)
    ensures kind == C_Arithmetic ==> r == Ok(Strip(command))
    ensures r == Err(IndexError) <==> kind !in {C_Return, C_Arithmetic} && |SplitWs(command)| < 2
    ensures kind !in {C_Return, C_Arithmetic} && r.Ok? ==> r.value == SplitWs(command)[1]
  {
    if kind == C_Return then Err(ValueError)
    else if kind == C_Arithmetic then Ok(Strip(command))
    else
      var words := SplitWs(command);
      if |words| > 1 then assert words[1] in words; Ok(words[1]) else Err(IndexError)
  }

  /** `arg2`: the third word, only for push, pop, function and call. */
  function Arg2Of(kind: CommandType, command: string): (r: Result<string>)
    ensures r.Ok? ==> r.value != [] && NoSpace(r.value)
    ensures kind !in {C_Push, C_Pop, C_Function, C_Call} <==> r == Err(ValueError)
    ensures r == Err(IndexError) <==> kind in {C_Push, C_Pop, C_Function, C_Call} && |SplitWs(command)| < 3
    ensures r.Ok? ==> r.value == SplitWs(command)[2]
  {
    if kind in {C_Push, C_Pop, C_Function, C_Call} then
      var words := SplitWs(command);
      if |words| > 2 then assert words[2] in words; Ok(words[2]) else Err(IndexError)
    else Err(ValueError)
  }

  /** The mnemonics classify as arithmetic and a well-formed push or pop by its keyword. */
  lemma {:induction false} ClassifyKnownCommands(segment: string, index: string)
    ensures forall m :: m in ArithmeticCommands ==> Classify(m) == Ok(C_Arithmetic)
    ensures Classify("push " + segment + " " + index) == Ok(C_Push)
    ensures Classify("pop " + segment + " " + index) == Ok(C_Pop)
  {
    forall m | m in ArithmeticCommands
      ensures !StartsWith(m, "push") && !StartsWith(m, "pop")
    {
      DiffersAt(m, "push", 0);
      DiffersAt(m, "pop", 0);
    }
    var push, pop := "push " + segment + " " + index, "pop " + segment + " " + index;
    assert StartsWith(push, "push") by {
      assert "push" + (" " + segment + " " + index) == push;
      StartsWithAppend("push", " " + segment + " " + index);
    }
    assert !StartsWith(pop, "push") by {
      DiffersAt(pop, "push", 1);
    }
    assert StartsWith(pop, "pop") by {
      assert "pop" + (" " + segment + " " + index) == pop;
      StartsWithAppend("pop", " " + segment + " " + index);
    }
  }

  /** A command that is neither push nor pop and not a bare mnemonic is an error. */
  lemma {:induction false} ClassifyRejects(command: string)
    requires command != [] && command[0] != 'p' && command !in ArithmeticCommands
    ensures Classify(command) == Err(UnboundLocalError)
  {
    DiffersAt(command, "push", 0);
    DiffersAt(command, "pop", 0);
  }

  /** The classifier knows no branching or function command: each one is an error. */
  lemma {:induction false} ClassifyRejectsOtherKinds(name: string, count: string)
    ensures Classify("label " + name).Err?
    ensures Classify("goto " + name).Err?
    ensures Classify("if-goto " + name).Err?
    ensures Classify("function " + name + " " + count).Err?
    ensures Classify("call " + name + " " + count).Err?
    ensures Classify("return").Err?
  {
    forall c: string | |c| > 3
      ensures c !in ArithmeticCommands
    {
    }
    ClassifyRejects("label " + name);
    ClassifyRejects("goto " + name);
    ClassifyRejects("if-goto " + name);
    ClassifyRejects("function " + name + " " + count);
    ClassifyRejects("call " + name + " " + count);
    ClassifyRejects("return");
  }

  lemma {:induction false} MnemonicShape(m: string)
    requires m in ArithmeticCommands
    ensures 2 <= |m| <= 3 && m[0] != 'p' && !IsSpace(m[0]) && '/' !in m
    ensures forall c :: c in ArithmeticCommands ==> |c| != |m| + 1 || c[|m|] != ' '
  {
  }

  /** An arithmetic command followed by an inline comment is not recognised. */
  lemma {:induction false} CommentedArithmeticRejected(m: string, text: string)
    requires m in ArithmeticCommands
    requires text == [] || !IsSpace(text[|text| - 1])
    ensures CleanVmLines([m + " //" + text]) == [m + " "]
    ensures Classify(m + " ") == Err(UnboundLocalError)
  {
    MnemonicShape(m);
    InlineCommentKeepsSpace(m, text);
    assert |m + " "| == |m| + 1 && (m + " ")[0] == m[0];
    ClassifyRejects(m + " ");
  }

  /** For `keyword first second`, `arg1` is `first` and `arg2` is `second`. */
  lemma {:induction false} ArgsOfThreeWords(kind: CommandType, keyword: string, first: string, second: string)
    requires kind in {C_Push, C_Pop, C_Function, C_Call}
    requires keyword != [] && NoSpace(keyword) && first != [] && NoSpace(first) && second != [] && NoSpace(second)
    ensures Arg1Of(kind, keyword + " " + first + " " + second) == Ok(first)
    ensures Arg2Of(kind, keyword + " " + first + " " + second) == Ok(second)
  {
    var command := keyword + " " + first + " " + second;
    SplitThreeWords(keyword, first, second);
    ArgsOfWords(kind, command, [keyword, first, second]);
  }

  lemma {:induction false} ArgsOfWords(kind: CommandType, command: string, ws: seq<string>)
    requires kind in {C_Push, C_Pop, C_Function, C_Call}
    requires SplitWs(command) == ws && |ws| > 2
    ensures Arg1Of(kind, command) == Ok(ws[1]) && Arg2Of(kind, command) == Ok(ws[2])
  {
  }

  /** The parser's cursor over `commands` (`Parser`). */
  class Parser {
    var commands: seq<string>
    var currentIndex: int
    var command: Option<string>
    var commandType: Option<CommandType>

    ghost predicate Valid()
      reads this
    {
      && -1 <= currentIndex < |commands|
      && (currentIndex == -1 <==> command == None)
      && (currentIndex >= 0 ==> command == Some(commands[currentIndex]))
    }

    /** `Parser.__init__` over the lines of the file. */
    constructor (raw: seq<string>)
      ensures Valid()
      ensures commands == CleanVmLines(raw)
      ensures currentIndex == -1 && command == None && commandType == None
    {
      commands := CleanVmLines(raw);
      currentIndex := -1;
      command := None;
      commandType := None;
    }

    /** `hasMoreCommands`. */
    function HasMoreCommands(): (b: bool)
      reads this
      ensures b <==> currentIndex + 1 < |commands|
    {
      currentIndex < |commands| - 1
    }

    /** `advance`: moves to the next command. */
    method Advance()
      requires Valid() && HasMoreCommands()
      modifies this
      ensures Valid()
      ensures currentIndex == old(currentIndex) + 1
      ensures command == Some(commands[currentIndex])
      ensures commands == old(commands) && commandType == old(commandType)
    {
      currentIndex := currentIndex + 1;
      command := Some(commands[currentIndex]);
    }

    /** `commandType`: classifies the current command and remembers its kind. */
    method CommandType() returns (r: Result<CommandType>)
      requires Valid() && command.Some?
      modifies this`commandType
      ensures r == Classify(command.value)
      ensures commandType == if r.Ok? then Some(r.value) else old(commandType)
    {
      r := Classify(command.value);
      if r.Ok? {
        commandType := Some(r.value);
      }
    }

    /** `arg1` of the current command; what it returns for each kind is stated by `Arg1Of`. */
    function Arg1(): (r: Result<string>)
      reads this
      requires command.Some? && commandType.Some?
      ensures commandType == Some(C_Return) ==> r == Err(ValueError)
      ensures r == Arg1Of(commandType.value, command.value)
    {
      Arg1Of(commandType.value, command.value)
    }

    /** `arg2` of the current command; what it returns for each kind is stated by `Arg2Of`. */
    function Arg2(): (r: Result<string>)
      reads this
      requires command.Some? && commandType.Some?
      ensures commandType.value !in {C_Push, C_Pop, C_Function, C_Call} ==> r == Err(ValueError)
      ensures r == Arg2Of(commandType.value, command.value)
    {
      Arg2Of(commandType.value, command.value)
    }
  }
}
