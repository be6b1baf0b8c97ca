/** The VM parser of project 08: classifies the first token of each line and
    builds the command, consuming operand tokens from the tokenizer. */
module VmParser08 {
  import opened Outcomes
  import opened GoStrings
  import opened Commands
  import opened VmParsing
  import Tokenizer

  const Mnemonics: set<string> :=
    ArithmeticMnemonics + {"push", "pop", "label", "goto", "if-goto", "function", "call", "return"}

  /** `parseCommandType`: a case-sensitive switch over the mnemonics. */
  function ParseCommandType(command: string): (t: CommandType)
    ensures t != NoCommandType
  {
    match command
    case "add" => C_ARITHMETIC
    case "sub" => C_ARITHMETIC
    case "neg" => C_ARITHMETIC
    case "eq" => C_ARITHMETIC
    case "gt" => C_ARITHMETIC
    case "lt" => C_ARITHMETIC
    case "and" => C_ARITHMETIC
    case "or" => C_ARITHMETIC
    case "not" => C_ARITHMETIC
    case "push" => C_PUSH
    case "pop" => C_POP
    case "label" => C_LABEL
    case "goto" => C_GOTO
    case "if-goto" => C_IF
    case "function" => C_FUNCTION
    case "call" => C_CALL
    case "return" => C_RETURN
    case _ => UNKNOWN_COMMAND_TYPE
  }

  /** Every mnemonic has its own type except the nine arithmetic ones, which
      share C_ARITHMETIC; every other text is UNKNOWN_COMMAND_TYPE. */
  lemma ParseCommandTypeClassifies(s: string)
    ensures ParseCommandType(s) == C_ARITHMETIC <==> s in ArithmeticMnemonics
    ensures ParseCommandType(s) == C_PUSH <==> s == "push"
    ensures ParseCommandType(s) == C_POP <==> s == "pop"
    ensures ParseCommandType(s) == C_LABEL <==> s == "label"
    ensures ParseCommandType(s) == C_GOTO <==> s == "goto"
    ensures ParseCommandType(s) == C_IF <==> s == "if-goto"
    ensures ParseCommandType(s) == C_FUNCTION <==> s == "function"
    ensures ParseCommandType(s) == C_CALL <==> s == "call"
    ensures ParseCommandType(s) == C_RETURN <==> s == "return"
    ensures ParseCommandType(s) == UNKNOWN_COMMAND_TYPE <==> s !in Mnemonics
  {
  }

  /** The one direction of the classification the parser's proofs need: a
      command type other than C_ARITHMETIC names its mnemonic. */
  lemma MnemonicOfType(s: string)
    ensures ParseCommandType(s) == C_ARITHMETIC ==> s in ArithmeticMnemonics
    ensures ParseCommandType(s) == C_PUSH ==> s == "push"
    ensures ParseCommandType(s) == C_POP ==> s == "pop"
    ensures ParseCommandType(s) == C_LABEL ==> s == "label"
    ensures ParseCommandType(s) == C_GOTO ==> s == "goto"
    ensures ParseCommandType(s) == C_FUNCTION ==> s == "function"
    ensures ParseCommandType(s) == C_CALL ==> s == "call"
    ensures ParseCommandType(s) == C_RETURN ==> s == "return"
  {
  }

  /** Each mnemonic other than the arithmetic ones gets its own type. */
  lemma TypesOfMnemonics()
    ensures ParseCommandType("push") == C_PUSH && ParseCommandType("pop") == C_POP
    ensures ParseCommandType("label") == C_LABEL && ParseCommandType("goto") == C_GOTO
    ensures ParseCommandType("function") == C_FUNCTION && ParseCommandType("call") == C_CALL
    ensures ParseCommandType("return") == C_RETURN
  {
  }

  /** `parseFlowControlCommand`: one more token, carried verbatim as the
      label; arg2 is left as it was. */
  function ParseFlowControl(arg2: Int16, op: string, toks: seq<string>): (r: Result<Parsed, Fatal>)
  {
    if |toks| == 0 then Err(MissingArg1(op))
    else
      var c :=
        if op == "label" then Label(op, toks[0])
        else if op == "goto" then Goto(op, toks[0])
        else if op == "if-goto" then IfGoto(op, toks[0])
        else Invalid(op, toks[0], "");
      Ok(Parsed(toks[0], arg2, c, toks[1..]))
  }

  /** `parseFunctionCallCommand`: function and call take a name and a
      non-negative count (NumOfArgs keeps the full int, arg2 its int16
      conversion); return consumes nothing and leaves arg1 and arg2 alone. */
  function ParseFunctionCall(arg1: string, arg2: Int16, op: string, toks: seq<string>): (r: Result<Parsed, Fatal>)
  {
    if op == "function" || op == "call" then
      match ParseOperands(op, toks)
      case Err(e) => Err(e)
      case Ok(o) =>
        var c := if op == "function" then Function(op, o.name, o.count) else Call(op, o.name, o.count);
        Ok(Parsed(o.name, ToInt16(o.count), c, o.rest))
    else if op == "return" then Ok(Parsed(arg1, arg2, Return(op), toks))
    else Ok(Parsed(arg1, arg2, Invalid(op, "", ""), toks))
  }

  /** Stores what a helper returned: arg1, arg2 and the new current command. */
  function Store(f: Fields, r: Result<Parsed, Fatal>): Result<Next, Fatal>
  {
    match r
    case Err(e) => Err(e)
    case Ok(p) => Ok(Next(f.(arg1 := p.arg1, arg2 := p.arg2, currCmd := Some(p.cmd)), p.rest))
  }

  /** The dispatch switch of `parseNextCommand`: the helper a command type
      calls, on the operand tokens; None for C_IF and UNKNOWN_COMMAND_TYPE,
      which have no case. */
  function Dispatch(f: Fields, ct: CommandType, op: string, toks: seq<string>): Option<Result<Parsed, Fatal>>
  {
    match ct
    case C_ARITHMETIC => Some(Ok(ParseArithmetic(op, toks)))
    case C_PUSH => Some(ParseMemoryAccess(op, toks))
    case C_POP => Some(ParseMemoryAccess(op, toks))
    case C_LABEL => Some(ParseFlowControl(f.arg2, op, toks))
    case C_GOTO => Some(ParseFlowControl(f.arg2, op, toks))
    case C_FUNCTION => Some(ParseFunctionCall(f.arg1, f.arg2, op, toks))
    case C_CALL => Some(ParseFunctionCall(f.arg1, f.arg2, op, toks))
    case C_RETURN => Some(ParseFunctionCall(f.arg1, f.arg2, op, toks))
    case _ => None
  }

  /** The helpers read arg1 and arg2 but not the command type. */
  lemma DispatchIgnoresType(f: Fields, ct: CommandType, op: string, toks: seq<string>)
    ensures Dispatch(f.(commandType := ct), ct, op, toks) == Dispatch(f, ct, op, toks)
  {
  }

  /** `parseNextCommand` on the tokens of one line. A line without tokens
      resets arg1, arg2 and commandType and keeps currCmd; C_IF and
      UNKNOWN_COMMAND_TYPE have no case, so they only set commandType. */
  function Step(f: Fields, tokens: seq<string>): Result<Next, Fatal>
  {
    if tokens == [] then Ok(Next(Fields("", -1, NoCommandType, f.currCmd), []))
    else
      var op := tokens[0];
      var toks := tokens[1..];
      var ct := ParseCommandType(op);
      var f1 := f.(commandType := ct);
      match Dispatch(f, ct, op, toks)
      case None => Ok(Next(f1, toks))
      case Some(r) => Store(f1, r)
  }

  /** A blank or comment line sets arg1 = "", arg2 = -1, commandType = "" and
      leaves currCmd as it was. */
  lemma BlankLineKeepsCommand(f: Fields, line: string)
    requires Tokenizer.Tokenize(line) == []
    ensures Step(f, Tokenizer.Tokenize(line)) == Ok(Next(Fields("", -1, NoCommandType, f.currCmd), []))
  {
  }

  /** An if-goto line and a line with an unknown mnemonic only set
      commandType: currCmd, arg1 and arg2 keep their values and no operand is
      consumed. */
  lemma IfGotoAndUnknownKeepCommand(f: Fields, tokens: seq<string>)
    requires tokens != [] && (tokens[0] == "if-goto" || tokens[0] !in Mnemonics)
    ensures Step(f, tokens).Ok?
    ensures Step(f, tokens).value.fields == f.(commandType := ParseCommandType(tokens[0]))
    ensures Step(f, tokens).value.rest == tokens[1..]
    ensures ParseCommandType(tokens[0]) in {C_IF, UNKNOWN_COMMAND_TYPE}
  {
    ParseCommandTypeClassifies(tokens[0]);
  }

  /** Whenever a line sets a command type with a dispatch case, the command it
      stores is a real command (never an InvalidCommand) whose Type() is that
      command type. */
  lemma StoredCommandMatchesType(f: Fields, tokens: seq<string>)
    requires Step(f, tokens).Ok?
    requires Step(f, tokens).value.fields.commandType !in {NoCommandType, C_IF, UNKNOWN_COMMAND_TYPE}
    ensures var g := Step(f, tokens).value.fields;
      g.currCmd.Some? && !g.currCmd.value.Invalid? && Type(g.currCmd.value) == g.commandType
  {
    var op := tokens[0];
    DispatchedCommand(f, ParseCommandType(op), op, tokens[1..]);
  }

  lemma DispatchedCommand(f: Fields, ct: CommandType, op: string, toks: seq<string>)
    requires ct == ParseCommandType(op) && ct !in {NoCommandType, C_IF, UNKNOWN_COMMAND_TYPE}
    ensures Dispatch(f, ct, op, toks).Some?
    ensures var r := Dispatch(f, ct, op, toks).value;
      r.Ok? ==> !r.value.cmd.Invalid? && Type(r.value.cmd) == ct
  {
    MnemonicOfType(op);
    match ct
    case C_ARITHMETIC =>
      assert op in ArithmeticMnemonics;
    case C_PUSH =>
      assert op == "push";
    case C_POP =>
      assert op == "pop";
    case C_LABEL =>
      assert op == "label";
    case C_GOTO =>
      assert op == "goto";
    case C_FUNCTION =>
      assert op == "function";
    case C_CALL =>
      assert op == "call";
    case C_RETURN =>
      assert op == "return";
  }

  /** push and pop: the line fails exactly when the segment or index token is
      missing or the index is not a non-negative integer; otherwise arg1 is the
      segment text as written, arg2 the index converted with int16(). */
  lemma MemoryAccessOperands(f: Fields, tokens: seq<string>)
    requires |tokens| >= 1 && (tokens[0] == "push" || tokens[0] == "pop")
    ensures Step(f, tokens).Err? <==> |tokens| < 3 || Atoi(tokens[2]).None? || Atoi(tokens[2]).value < 0
    ensures Step(f, tokens).Ok? ==>
      var g := Step(f, tokens).value.fields;
      var index := ToInt16(Atoi(tokens[2]).value);
      g.arg1 == tokens[1] && g.arg2 == index &&
      g.currCmd == Some(if tokens[0] == "push" then Push("push", tokens[1], index) else Pop("pop", tokens[1], index))
  {
    ParseOperandsFails(tokens[0], tokens[1..]);
  }

  /** function and call: fatal unless a name and a non-negative integer
      follow; return consumes no operand. */
  lemma FunctionCallOperands(f: Fields, tokens: seq<string>)
    requires |tokens| >= 1 && (tokens[0] == "function" || tokens[0] == "call" || tokens[0] == "return")
    ensures tokens[0] == "return" ==>
      Step(f, tokens) == Ok(Next(f.(commandType := C_RETURN, currCmd := Some(Return("return"))), tokens[1..]))
    ensures tokens[0] != "return" ==>
      (Step(f, tokens).Err? <==> |tokens| < 3 || Atoi(tokens[2]).None? || Atoi(tokens[2]).value < 0)
  {
    ParseOperandsFails(tokens[0], tokens[1..]);
  }

  /** label and goto: fatal when the label token is missing, otherwise the
      token is the label, verbatim. */
  lemma FlowControlOperand(f: Fields, tokens: seq<string>)
    requires |tokens| >= 1 && (tokens[0] == "label" || tokens[0] == "goto")
    ensures Step(f, tokens).Err? <==> |tokens| < 2
    ensures |tokens| >= 2 ==>
      Step(f, tokens).value.fields.currCmd ==
        Some(if tokens[0] == "label" then Label("label", tokens[1]) else Goto("goto", tokens[1]))
  {
  }

  /** The commands a line of VM text can produce, each holding its own
      mnemonic as Op and operands that survive being written out. */
  predicate Parseable(c: Command) {
    match c
    case Add(op) => op == "add"
    case Sub(op) => op == "sub"
    case Neg(op) => op == "neg"
    case Eq(op) => op == "eq"
    case Gt(op) => op == "gt"
    case Lt(op) => op == "lt"
    case And(op) => op == "and"
    case Or(op) => op == "or"
    case Not(op) => op == "not"
    case Push(op, segment, index) => op == "push" && IsWord(segment) && index >= 0
    case Pop(op, segment, index) => op == "pop" && IsWord(segment) && index >= 0
    case Label(op, name) => op == "label" && IsWord(name)
    case Goto(op, name) => op == "goto" && IsWord(name)
    case IfGoto(_, _) => false
    case Function(op, name, n) => op == "function" && IsWord(name) && 0 <= n <= MaxInt64
    case Call(op, name, n) => op == "call" && IsWord(name) && 0 <= n <= MaxInt64
    case Return(op) => op == "return"
    case Invalid(_, _, _) => false
  }

  /** The words of the VM line that denotes a command. */
  function Words(c: Command): seq<string>
  {
    match c
    case Push(op, segment, index) => [op, segment, Itoa(index)]
    case Pop(op, segment, index) => [op, segment, Itoa(index)]
    case Label(op, name) => [op, name]
    case Goto(op, name) => [op, name]
    case IfGoto(op, name) => [op, name]
    case Function(op, name, n) => [op, name, Itoa(n)]
    case Call(op, name, n) => [op, name, Itoa(n)]
    case Invalid(op, a, b) => [op, a, b]
    case _ => [c.op]
  }

  /** The mnemonics are words: lower-case letters and '-'. */
  lemma MnemonicIsWord(op: string)
    requires op in Mnemonics
    ensures IsWord(op)
  {
    assert forall i :: 0 <= i < |op| ==> 'a' <= op[i] <= 'z' || op[i] == '-';
  }

  /** Every word of a parseable command is a word of VM text. */
  lemma WordsOfParseable(c: Command)
    requires Parseable(c)
    ensures forall i :: 0 <= i < |Words(c)| ==> IsWord(Words(c)[i])
  {
    assert Words(c)[0] == c.op && c.op in Mnemonics;
    MnemonicIsWord(c.op);
    if c.Push? || c.Pop? {
      NatTextIsWord(c.index);
    } else if c.Function? || c.Call? {
      NatTextIsWord(c.numOfArgs);
    }
  }

  /** The tokenizer splits the written line of a parseable command back into
      its words. */
  lemma {:induction false} TokenizeWords(c: Command)
    requires Parseable(c)
    ensures Tokenizer.Tokenize(Join(Words(c), " ")) == Words(c)
  {
    var ws := Words(c);
    WordsOfParseable(c);
    forall i | 0 <= i < |ws|
      ensures ' ' !in ws[i] && '/' !in ws[i]
    {
      WordAvoids(ws[i]);
    }
    Tokenizer.TokenizeJoined(ws);
  }

  /** Parsing the words of a parseable command gives the command back, with
      every token consumed. */
  lemma {:induction false} StepOnWords(f: Fields, c: Command)
    requires Parseable(c)
    ensures Step(f, Words(c)).Ok?
    ensures Step(f, Words(c)).value.fields.currCmd == Some(c)
    ensures Step(f, Words(c)).value.fields.commandType == Type(c)
    ensures Step(f, Words(c)).value.rest == []
  {
    if c.IsArithmetic() {
      StepOnArithmetic(f, c);
    } else if c.Push? || c.Pop? {
      StepOnMemoryAccess(f, c);
    } else if c.Label? || c.Goto? {
      StepOnFlowControl(f, c);
    } else {
      StepOnFunctionCall(f, c);
    }
  }

  lemma StepOnArithmetic(f: Fields, c: Command)
    requires Parseable(c) && c.IsArithmetic()
    ensures Step(f, Words(c)) == Ok(Next(Fields(c.op, -1, C_ARITHMETIC, Some(c)), []))
  {
    ArithmeticMnemonic(c);
    var ws := Words(c);
    assert ws == [c.op] && ws[1..] == [];
    assert Dispatch(f, C_ARITHMETIC, c.op, []) == Some(Ok(Parsed(c.op, -1, c, [])));
  }

  /** The mnemonic of a parseable arithmetic command reads back as that
      command. */
  lemma ArithmeticMnemonic(c: Command)
    requires Parseable(c) && c.IsArithmetic()
    ensures ParseCommandType(c.op) == C_ARITHMETIC && ArithmeticCommandOf(c.op) == c
  {
    match c
    case Add(_) =>
    case Sub(_) =>
    case Neg(_) =>
    case Eq(_) =>
    case Gt(_) =>
    case Lt(_) =>
    case And(_) =>
    case Or(_) =>
    case Not(_) =>
  }

  lemma StepOnMemoryAccess(f: Fields, c: Command)
    requires Parseable(c) && (c.Push? || c.Pop?)
    ensures Step(f, Words(c)) == Ok(Next(Fields(c.segment, c.index, Type(c), Some(c)), []))
  {
    var ws := Words(c);
    assert ws == [c.op, c.segment, Itoa(c.index)];
    assert ParseCommandType(c.op) == Type(c) by {
      TypesOfMnemonics();
    }
    AtoiItoa(c.index);
    var toks := ws[1..];
    assert toks == [c.segment, Itoa(c.index)] && toks[2..] == [];
    assert Atoi(toks[1]) == Some(c.index as int);
    assert ParseOperands(c.op, ws[1..]) == Ok(Operands(c.segment, Itoa(c.index), c.index, []));
    assert ParseMemoryAccess(c.op, ws[1..]) == Ok(Parsed(c.segment, c.index, c, []));
    assert Dispatch(f, Type(c), c.op, ws[1..]) == Some(Ok(Parsed(c.segment, c.index, c, [])));
  }

  lemma StepOnFlowControl(f: Fields, c: Command)
    requires Parseable(c) && (c.Label? || c.Goto?)
    ensures Step(f, Words(c)) == Ok(Next(Fields(c.labelName, f.arg2, Type(c), Some(c)), []))
  {
    var ws := Words(c);
    assert ws == [c.op, c.labelName] && ws[1..][1..] == [];
    assert ParseCommandType(c.op) == Type(c) by {
      TypesOfMnemonics();
    }
    assert Dispatch(f, Type(c), c.op, ws[1..]) == Some(Ok(Parsed(c.labelName, f.arg2, c, [])));
  }

  lemma StepOnFunctionCall(f: Fields, c: Command)
    requires Parseable(c) && (c.Function? || c.Call? || c.Return?)
    ensures c.Return? ==> Step(f, Words(c)) == Ok(Next(Fields(f.arg1, f.arg2, C_RETURN, Some(c)), []))
    ensures !c.Return? ==> Step(f, Words(c)) == Ok(Next(Fields(c.funcName, ToInt16(c.numOfArgs), Type(c), Some(c)), []))
  {
    var ws := Words(c);
    assert ParseCommandType(c.op) == Type(c) by {
      TypesOfMnemonics();
    }
    if c.Return? {
      assert ws == [c.op] && ws[1..] == [];
      assert Dispatch(f, C_RETURN, c.op, []) == Some(Ok(Parsed(f.arg1, f.arg2, c, [])));
    } else {
      AtoiItoa(c.numOfArgs);
      var toks := ws[1..];
      assert toks == [c.funcName, Itoa(c.numOfArgs)] && toks[2..] == [];
      assert Atoi(toks[1]) == Some(c.numOfArgs);
      assert ParseOperands(c.op, toks) == Ok(Operands(c.funcName, Itoa(c.numOfArgs), c.numOfArgs, []));
      assert Dispatch(f, Type(c), c.op, toks) == Some(Ok(Parsed(c.funcName, ToInt16(c.numOfArgs), c, [])));
    }
  }

  /** Writing a command out as a VM line and parsing that line gives the
      command back, with every token consumed. */
  lemma ParseWrittenCommand(f: Fields, c: Command)
    requires Parseable(c)
    ensures var s := Step(f, Tokenizer.Tokenize(Join(Words(c), " ")));
      s.Ok? && s.value.fields.currCmd == Some(c) && s.value.fields.commandType == Type(c) && s.value.rest == []
  {
    TokenizeWords(c);
    StepOnWords(f, c);
  }

  /** The parser of project 08. The tokenizer is its own object; the line the
      scanner would deliver is the argument of Advance. */
  class Parser {
    const tokenizer: Tokenizer.Tokenizer
    var arg1: string
    var arg2: Int16
    var commandType: Commands.CommandType
    var currCmd: Option<Command>

    function State(): Fields
      reads this
    {
      Fields(arg1, arg2, commandType, currCmd)
    }

    constructor ()
      ensures fresh(tokenizer) && tokenizer.tokens == []
      ensures State() == InitialFields
    {
      tokenizer := new Tokenizer.Tokenizer();
      arg1, arg2, commandType, currCmd := "", 0, NoCommandType, None;
    }

    method CommandType() returns (t: Commands.CommandType)
      ensures t == commandType
    {
      t := commandType;
    }

    method Command() returns (c: Option<Command>)
      ensures c == currCmd
    {
      c := currCmd;
    }

    method Arg1() returns (r: Result<string, Fatal>)
      ensures r == Arg1Of(State())
    {
      if commandType == C_RETURN {
        return Err(InvalidOperation(commandType));
      }
      r := Ok(arg1);
    }

    method Arg2() returns (r: Result<Int16, Fatal>)
      ensures r == Arg2Of(State())
    {
      if commandType != C_PUSH && commandType != C_POP && commandType != C_FUNCTION && commandType != C_CALL {
        return Err(InvalidOperation(commandType));
      }
      r := Ok(arg2);
    }

    /** `Advance`: parses the next line. On a fatal error the run ends, so the
        state after a failure is not described. */
    method Advance(line: string) returns (r: Outcome<Fatal>)
      modifies this, tokenizer
      ensures var s := Step(old(State()), Tokenizer.Tokenize(line));
        (r.Pass? <==> s.Ok?) && (s.Ok? ==> State() == s.value.fields && tokenizer.tokens == s.value.rest)
    {
      r := ParseNextCommand(line);
    }

    method ParseNextCommand(line: string) returns (r: Outcome<Fatal>)
      modifies this, tokenizer
      ensures var s := Step(old(State()), Tokenizer.Tokenize(line));
        (r.Pass? <==> s.Ok?) && (s.Ok? ==> State() == s.value.fields && tokenizer.tokens == s.value.rest)
    {
      ghost var f := State();
      tokenizer.ReadNextCommand(line);
      var op, isExist := tokenizer.NextToken();
      if !isExist {
        arg1 := "";
        arg2 := -1;
        commandType := NoCommandType;
        return Pass;
      }
      var cmdType := ParseCommandType(op);
      ghost var f1, toks := f.(commandType := cmdType), tokenizer.tokens;
      ghost var d := Dispatch(f, cmdType, op, toks);
      ghost var s := Step(f, Tokenizer.Tokenize(line));
      assert s == if d.None? then Ok(Next(f1, toks)) else Store(f1, d.value);
      commandType := cmdType;
      assert Dispatch(State(), cmdType, op, toks) == d by {
        DispatchIgnoresType(f, cmdType, op, toks);
      }
      var c := DispatchCommand(cmdType, op);
      if c.None? {
        assert State() == f1 && s == Ok(Next(f1, toks));
        return Pass;
      }
      if c.value.Err? {
        assert s.Err?;
        return Fail(c.value.error);
      }
      currCmd := Some(c.value.value);
      r := Pass;
      assert s == Ok(Next(State(), tokenizer.tokens));
    }

    /** The switch over the command type, calling the helper of its case. */
    method DispatchCommand(cmdType: Commands.CommandType, op: string) returns (r: Option<Result<Command, Fatal>>)
      modifies this, tokenizer
      ensures var d := Dispatch(old(State()), cmdType, op, old(tokenizer.tokens));
        (r.None? <==> d.None?) &&
        (d.None? ==> State() == old(State()) && tokenizer.tokens == old(tokenizer.tokens)) &&
        (d.Some? ==> (r.value.Ok? <==> d.value.Ok?)) &&
        (d.Some? && d.value.Ok? ==>
          var p := d.value.value;
          r.value.value == p.cmd && arg1 == p.arg1 && arg2 == p.arg2 && tokenizer.tokens == p.rest)
      ensures commandType == old(commandType) && currCmd == old(currCmd)
    {
      match cmdType {
        case C_ARITHMETIC =>
          var a := ParseArithmeticCommand(op);
          r := Some(Ok(a));
        case C_PUSH =>
          var c := ParseMemoryAccessCommand(op);
          r := Some(c);
        case C_POP =>
          var c := ParseMemoryAccessCommand(op);
          r := Some(c);
        case C_LABEL =>
          var c := ParseFlowControlCommand(op);
          r := Some(c);
        case C_GOTO =>
          var c := ParseFlowControlCommand(op);
          r := Some(c);
        case C_FUNCTION =>
          var c := ParseFunctionCallCommand(op);
          r := Some(c);
        case C_CALL =>
          var c := ParseFunctionCallCommand(op);
          r := Some(c);
        case C_RETURN =>
          var c := ParseFunctionCallCommand(op);
          r := Some(c);
        case _ =>
          r := None;
      }
    }

    method ParseArithmeticCommand(op: string) returns (c: Command)
      modifies this
      ensures var p := ParseArithmetic(op, tokenizer.tokens);
        arg1 == p.arg1 && arg2 == p.arg2 && c == p.cmd
      ensures commandType == old(commandType) && currCmd == old(currCmd)
    {
      arg1 := op;
      arg2 := -1;
      c := ArithmeticCommandOf(op);
    }

    method ParseMemoryAccessCommand(op: string) returns (r: Result<Command, Fatal>)
      modifies this, tokenizer
      ensures var p := ParseMemoryAccess(op, old(tokenizer.tokens));
        (r.Ok? <==> p.Ok?) &&
        (p.Ok? ==> r.value == p.value.cmd && arg1 == p.value.arg1 && arg2 == p.value.arg2 && tokenizer.tokens == p.value.rest)
      ensures commandType == old(commandType) && currCmd == old(currCmd)
    {
      var segment, isExist := tokenizer.NextToken();
      if !isExist {
        return Err(MissingArg1(op));
      }
      arg1 := segment;
      var text, isExist2 := tokenizer.NextToken();
      if !isExist2 {
        return Err(MissingArg2(op));
      }
      var index := Atoi(text);
      if index.None? {
        return Err(NotAnInteger(op));
      }
      if index.value < 0 {
        return Err(NegativeArg2(op));
      }
      arg2 := ToInt16(index.value);
      if op == "push" {
        r := Ok(Push(op, segment, ToInt16(index.value)));
      } else if op == "pop" {
        r := Ok(Pop(op, segment, ToInt16(index.value)));
      } else {
        r := Ok(Invalid(op, segment, text));
      }
    }

    method ParseFlowControlCommand(op: string) returns (r: Result<Command, Fatal>)
      modifies this, tokenizer
      ensures var p := ParseFlowControl(old(arg2), op, old(tokenizer.tokens));
        (r.Ok? <==> p.Ok?) &&
        (p.Ok? ==> r.value == p.value.cmd && arg1 == p.value.arg1 && arg2 == p.value.arg2 && tokenizer.tokens == p.value.rest)
      ensures commandType == old(commandType) && currCmd == old(currCmd)
    {
      var name, isExist := tokenizer.NextToken();
      if !isExist {
        return Err(MissingArg1(op));
      }
      arg1 := name;
      if op == "label" {
        r := Ok(Label(op, name));
      } else if op == "goto" {
        r := Ok(Goto(op, name));
      } else if op == "if-goto" {
        r := Ok(IfGoto(op, name));
      } else {
        r := Ok(Invalid(op, name, ""));
      }
    }

    method ParseFunctionCallCommand(op: string) returns (r: Result<Command, Fatal>)
      modifies this, tokenizer
      ensures var p := ParseFunctionCall(old(arg1), old(arg2), op, old(tokenizer.tokens));
        (r.Ok? <==> p.Ok?) &&
        (p.Ok? ==> r.value == p.value.cmd && arg1 == p.value.arg1 && arg2 == p.value.arg2 && tokenizer.tokens == p.value.rest)
      ensures commandType == old(commandType) && currCmd == old(currCmd)
    {
      if op == "function" || op == "call" {
        var name, isExist := tokenizer.NextToken();
        if !isExist {
          return Err(MissingArg1(op));
        }
        arg1 := name;
        var text, isExist2 := tokenizer.NextToken();
        if !isExist2 {
          return Err(MissingArg2(op));
        }
        var count := Atoi(text);
        if count.None? {
          return Err(NotAnInteger(op));
        }
        if count.value < 0 {
          return Err(NegativeArg2(op));
        }
        arg2 := ToInt16(count.value);
        if op == "function" {
          r := Ok(Function(op, name, count.value));
        } else {
          r := Ok(Call(op, name, count.value));
        }
      } else if op == "return" {
        r := Ok(Return(op));
      } else {
        r := Ok(Invalid(op, "", ""));
      }
    }
  }
}
