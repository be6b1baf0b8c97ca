/** What the VM parsers of projects 07 and 08 share: their fields, the way a
    fatal error ends a run, and the parse helpers whose Go text is the same in
    both parsers. */
module VmParsing {
  import opened Outcomes
  import opened GoStrings
  import opened Commands

  /** Why a parser calls log.Fatalf; the run ends there. */
  datatype Fatal =
    | MissingArg1(op: string)
    | MissingArg2(op: string)
    | NotAnInteger(op: string)
    | NegativeArg2(op: string)
    | InvalidOperation(commandType: CommandType)

  /** The parser's own fields (the tokenizer's queue is kept apart).
      `currCmd` is None while the Go field is still nil. */
  datatype Fields = Fields(arg1: string, arg2: Int16, commandType: CommandType, currCmd: Option<Command>)

  /** The fields after parsing a line, and the tokens still queued. */
  datatype Next = Next(fields: Fields, rest: seq<string>)

  /** What one parse helper returns and sets: arg1, arg2, the command built,
      and the tokens it did not consume. */
  datatype Parsed = Parsed(arg1: string, arg2: Int16, cmd: Command, rest: seq<string>)

  /** The fields a freshly made parser holds: Go's zero values. */
  const InitialFields: Fields := Fields("", 0, NoCommandType, None)

  const ArithmeticMnemonics: set<string> := {"add", "sub", "neg", "eq", "gt", "lt", "and", "or", "not"}

  /** The arithmetic struct named by the mnemonic, carrying it as Op; any
      other text gives an InvalidCommand with empty arguments. */
  function ArithmeticCommandOf(op: string): (c: Command)
    ensures op in ArithmeticMnemonics ==> c.IsArithmetic() && ArithmeticOpLiteral(c) == op
    ensures op !in ArithmeticMnemonics ==> c == Invalid(op, "", "")
  {
    match op
    case "neg" => Neg(op)
    case "add" => Add(op)
    case "sub" => Sub(op)
    case "eq" => Eq(op)
    case "gt" => Gt(op)
    case "lt" => Lt(op)
    case "and" => And(op)
    case "or" => Or(op)
    case "not" => Not(op)
    case _ => Invalid(op, "", "")
  }

  /** `parseArithmeticCommand`: arg1 is the mnemonic, arg2 is -1, no token
      is consumed. */
  function ParseArithmetic(op: string, rest: seq<string>): (p: Parsed)
  {
    Parsed(op, -1, ArithmeticCommandOf(op), rest)
  }

  /** The two operands of push, pop, function and call: a name, then a count
      that must read as a non-negative integer. */
  datatype Operands = Operands(name: string, countText: string, count: nat, rest: seq<string>)

  function ParseOperands(op: string, toks: seq<string>): (r: Result<Operands, Fatal>)
    ensures r.Ok? ==> |toks| >= 2 && r.value.name == toks[0] && r.value.countText == toks[1]
                      && Atoi(toks[1]) == Some(r.value.count as int) && r.value.rest == toks[2..]
  {
    if |toks| == 0 then Err(MissingArg1(op))
    else if |toks| == 1 then Err(MissingArg2(op))
    else match Atoi(toks[1])
      case None => Err(NotAnInteger(op))
      case Some(n) => if n < 0 then Err(NegativeArg2(op)) else Ok(Operands(toks[0], toks[1], n, toks[2..]))
  }

  /** The operand check fails exactly when a token is missing, the second one
      is not an integer, or it is negative. */
  lemma ParseOperandsFails(op: string, toks: seq<string>)
    ensures ParseOperands(op, toks).Err? <==>
              |toks| < 2 || Atoi(toks[1]).None? || Atoi(toks[1]).value < 0
  {
  }

  /** `parseMemoryAccessCommand` (the 08 version; the 07 version is the same
      for "push", which is the only op it is called with). The segment text is
      stored without any check; the index is converted with int16(). */
  function ParseMemoryAccess(op: string, toks: seq<string>): (r: Result<Parsed, Fatal>)
  {
    match ParseOperands(op, toks)
    case Err(e) => Err(e)
    case Ok(o) =>
      var index := ToInt16(o.count);
      var c :=
        if op == "push" then Push(op, o.name, index)
        else if op == "pop" then Pop(op, o.name, index)
        else Invalid(op, o.name, o.countText);
      Ok(Parsed(o.name, index, c, o.rest))
  }

  /** `Arg1()`: refused only for C_RETURN. */
  function Arg1Of(f: Fields): (r: Result<string, Fatal>)
  {
    if f.commandType == C_RETURN then Err(InvalidOperation(f.commandType)) else Ok(f.arg1)
  }

  /** `Arg2()`: allowed only for C_PUSH, C_POP, C_FUNCTION and C_CALL. */
  function Arg2Of(f: Fields): (r: Result<Int16, Fatal>)
  {
    if f.commandType != C_PUSH && f.commandType != C_POP && f.commandType != C_FUNCTION && f.commandType != C_CALL
    then Err(InvalidOperation(f.commandType))
    else Ok(f.arg2)
  }

  /** The accessor guards: Arg1 refuses exactly C_RETURN; Arg2 accepts exactly
      the four operand-carrying types; the value returned is the field. */
  lemma ArgGuards(f: Fields)
    ensures Arg1Of(f).Err? <==> f.commandType == C_RETURN
    ensures Arg1Of(f).Ok? ==> Arg1Of(f).value == f.arg1
    ensures Arg2Of(f).Ok? <==> f.commandType in {C_PUSH, C_POP, C_FUNCTION, C_CALL}
    ensures Arg2Of(f).Ok? ==> Arg2Of(f).value == f.arg2
  {
  }

  /** A word of VM text: non-empty, without white space and without '/'. */
  predicate IsWord(w: string) {
    |w| > 0 && forall i :: 0 <= i < |w| ==> !IsSpace(w[i]) && w[i] != '/'
  }

  /** The decimal text of a natural number is a word. */
  lemma NatTextIsWord(n: nat)
    ensures IsWord(Itoa(n))
  {
    ItoaCharacters(n);
  }

  /** A word holds no space and no slash. */
  lemma WordAvoids(w: string)
    requires IsWord(w)
    ensures ' ' !in w && '/' !in w
  {
  }
}
