/** The VM parser of project 07: it knows only the arithmetic mnemonics,
    push and pop, and builds commands only for the arithmetic ones and push. */
module VmParser07 {
  import opened Outcomes
  import opened GoStrings
  import opened Commands
  import opened VmParsing
  import Tokenizer
  import VmParser08

  /** `parseCommandType` of project 07: every other text, including the
      mnemonics of project 08, is UNKNOWN_COMMAND_TYPE. */
  function ParseCommandType(command: string): (t: CommandType)
    ensures t in {C_ARITHMETIC, C_PUSH, C_POP, UNKNOWN_COMMAND_TYPE}
  {
    match command
    case "add" => C_ARITHMETIC
    case "sub" => C_ARITHMETIC
    case "neg" => C_ARITHMETIC
    case "eq" => C_ARITHMETIC
    case "gt" => C_ARITHMETIC
    case "lt" => C_ARITHMETIC
    case "and" => C_ARITHMETIC
    case "or" => C_ARITHMETIC
    case "not" => C_ARITHMETIC
    case "push" => C_PUSH
    case "pop" => C_POP
    case _ => UNKNOWN_COMMAND_TYPE
  }

  /** The 07 classification is the 08 one cut down to its three families:
      it agrees wherever the 08 parser says arithmetic, push or pop, and says
      UNKNOWN_COMMAND_TYPE for everything else. */
  lemma ParseCommandTypeRestricts(s: string)
    ensures var t8 := VmParser08.ParseCommandType(s);
      ParseCommandType(s) == (if t8 in {C_ARITHMETIC, C_PUSH, C_POP} then t8 else UNKNOWN_COMMAND_TYPE)
  {
    VmParser08.ParseCommandTypeClassifies(s);
  }

  /** `parseNextCommand` of project 07 on the tokens of one line. The C_POP
      case is empty: a pop line sets commandType and nothing else, and its
      operands stay queued. */
  function Step(f: Fields, tokens: seq<string>): Result<Next, Fatal>
  {
    if tokens == [] then Ok(Next(Fields("", -1, NoCommandType, f.currCmd), []))
    else
      var op := tokens[0];
      var toks := tokens[1..];
      var ct := ParseCommandType(op);
      var f1 := f.(commandType := ct);
      match ct
      case C_ARITHMETIC => VmParser08.Store(f1, Ok(ParseArithmetic(op, toks)))
      case C_PUSH => VmParser08.Store(f1, ParseMemoryAccess07(op, toks))
      case _ => Ok(Next(f1, toks))
  }

  /** A pop line, whatever follows the mnemonic, only sets commandType to
      C_POP: arg1, arg2 and the current command are those of the previous
      line, and the operand tokens are not consumed. */
  lemma PopOnlySetsType(f: Fields, tokens: seq<string>)
    requires tokens != [] && tokens[0] == "pop"
    ensures Step(f, tokens) == Ok(Next(f.(commandType := C_POP), tokens[1..]))
  {
  }

  /** Every command the 07 parser stores is an arithmetic command or a push. */
  lemma {:induction false} StoredCommandsAreArithmeticOrPush(f: Fields, tokens: seq<string>)
    requires f.currCmd.None? || f.currCmd.value.IsArithmetic() || f.currCmd.value.Push?
    requires Step(f, tokens).Ok?
    ensures var g := Step(f, tokens).value.fields;
      g.currCmd.None? || g.currCmd.value.IsArithmetic() || g.currCmd.value.Push?
  {
    if tokens != [] {
      var op := tokens[0];
      VmParser08.ParseCommandTypeClassifies(op);
      assert ParseCommandType(op) == C_ARITHMETIC <==> op in ArithmeticMnemonics;
      assert ParseCommandType(op) == C_PUSH <==> op == "push";
    }
  }

  /** On arithmetic and push lines the parsers of projects 07 and 08 reach
      the same fields and leave the same tokens queued (errors included). */
  lemma {:induction false} AgreesWith08(f: Fields, tokens: seq<string>)
    requires tokens != [] && (tokens[0] in ArithmeticMnemonics || tokens[0] == "push")
    ensures Step(f, tokens) == VmParser08.Step(f, tokens)
  {
    ParseCommandTypeRestricts(tokens[0]);
    VmParser08.ParseCommandTypeClassifies(tokens[0]);
    MemoryAccess07IsShared(tokens[1..]);
  }

  /** The parser of project 07. */
  class Parser {
    const tokenizer: Tokenizer.Tokenizer
    var arg1: string
    var arg2: Int16
    var commandType: Commands.CommandType
    var currCmd: Option<Command>

    function State(): Fields
      reads this
    {
      Fields(arg1, arg2, commandType, currCmd)
    }

    constructor ()
      ensures fresh(tokenizer) && tokenizer.tokens == []
      ensures State() == InitialFields
    {
      tokenizer := new Tokenizer.Tokenizer();
      arg1, arg2, commandType, currCmd := "", 0, NoCommandType, None;
    }

    method CommandType() returns (t: Commands.CommandType)
      ensures t == commandType
    {
      t := commandType;
    }

    method Command() returns (c: Option<Command>)
      ensures c == currCmd
    {
      c := currCmd;
    }

    method Arg1() returns (r: Result<string, Fatal>)
      ensures r == Arg1Of(State())
    {
      if commandType == C_RETURN {
        return Err(InvalidOperation(commandType));
      }
      r := Ok(arg1);
    }

    method Arg2() returns (r: Result<Int16, Fatal>)
      ensures r == Arg2Of(State())
    {
      if commandType != C_PUSH && commandType != C_POP && commandType != C_FUNCTION && commandType != C_CALL {
        return Err(InvalidOperation(commandType));
      }
      r := Ok(arg2);
    }

    /** `Advance`: parses the next line; after a fatal error the state is not
        described. */
    method Advance(line: string) returns (r: Outcome<Fatal>)
      modifies this, tokenizer
      ensures var s := Step(old(State()), Tokenizer.Tokenize(line));
        (r.Pass? <==> s.Ok?) && (s.Ok? ==> State() == s.value.fields && tokenizer.tokens == s.value.rest)
    {
      r := ParseNextCommand(line);
    }

    method ParseNextCommand(line: string) returns (r: Outcome<Fatal>)
      modifies this, tokenizer
      ensures var s := Step(old(State()), Tokenizer.Tokenize(line));
        (r.Pass? <==> s.Ok?) && (s.Ok? ==> State() == s.value.fields && tokenizer.tokens == s.value.rest)
    {
      ghost var f := State();
      tokenizer.ReadNextCommand(line);
      var command, isExist := tokenizer.NextToken();
      if !isExist {
        arg1 := "";
        arg2 := -1;
        commandType := NoCommandType;
        return Pass;
      }
      var cmdType := ParseCommandType(command);
      ghost var f1, toks := f.(commandType := cmdType), tokenizer.tokens;
      assert Step(f, Tokenizer.Tokenize(line)) ==
        if cmdType == C_ARITHMETIC then VmParser08.Store(f1, Ok(ParseArithmetic(command, toks)))
        else if cmdType == C_PUSH then VmParser08.Store(f1, ParseMemoryAccess07(command, toks))
        else Ok(Next(f1, toks));
      commandType := cmdType;
      match cmdType {
        case C_ARITHMETIC =>
          var c := ParseArithmeticCommand(command);
          currCmd := Some(c);
        case C_PUSH =>
          var c := ParseMemoryAccessCommand(command);
          if c.Err? {
            return Fail(c.error);
          }
          currCmd := Some(c.value);
        case _ =>
      }
      r := Pass;
    }

    method ParseArithmeticCommand(command: string) returns (c: Command)
      modifies this
      ensures var p := ParseArithmetic(command, tokenizer.tokens);
        arg1 == p.arg1 && arg2 == p.arg2 && c == p.cmd
      ensures commandType == old(commandType) && currCmd == old(currCmd)
    {
      arg1 := command;
      arg2 := -1;
      c := ArithmeticCommandOf(command);
    }

    /** `parseMemoryAccessCommand` of project 07: a push command for "push",
        an InvalidCommand carrying both operand texts otherwise. */
    method ParseMemoryAccessCommand(command: string) returns (r: Result<Command, Fatal>)
      modifies this, tokenizer
      ensures var p := ParseMemoryAccess07(command, old(tokenizer.tokens));
        (r.Ok? <==> p.Ok?) &&
        (p.Ok? ==> r.value == p.value.cmd && arg1 == p.value.arg1 && arg2 == p.value.arg2 && tokenizer.tokens == p.value.rest)
      ensures commandType == old(commandType) && currCmd == old(currCmd)
    {
      var segment, isExist := tokenizer.NextToken();
      if !isExist {
        return Err(MissingArg1(command));
      }
      arg1 := segment;
      var text, isExist2 := tokenizer.NextToken();
      if !isExist2 {
        return Err(MissingArg2(command));
      }
      var index := Atoi(text);
      if index.None? {
        return Err(NotAnInteger(command));
      }
      if index.value < 0 {
        return Err(NegativeArg2(command));
      }
      arg2 := ToInt16(index.value);
      if command == "push" {
        r := Ok(Push(command, segment, ToInt16(index.value)));
      } else {
        r := Ok(Invalid(command, segment, text));
      }
    }
  }

  /** The 07 helper on its own terms: push, or an InvalidCommand for any
      other text (even "pop", which it is never called with). */
  function ParseMemoryAccess07(op: string, toks: seq<string>): (r: Result<Parsed, Fatal>)
  {
    match ParseOperands(op, toks)
    case Err(e) => Err(e)
    case Ok(o) =>
      var index := ToInt16(o.count);
      var c := if op == "push" then Push(op, o.name, index) else Invalid(op, o.name, o.countText);
      Ok(Parsed(o.name, index, c, o.rest))
  }

  /** For the only text it is called with, the 07 helper is the shared one. */
  lemma MemoryAccess07IsShared(toks: seq<string>)
    ensures ParseMemoryAccess07("push", toks) == ParseMemoryAccess("push", toks)
  {
  }
}
