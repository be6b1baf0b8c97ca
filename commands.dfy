/** The VM command model: the command variants of the `cmd` packages of
    projects 07 and 08, as one datatype, with the accessors each Go type has. */
module Commands {
  import opened Outcomes
  import opened GoStrings

  /** COMMAND_TYPE, a Go string type: its ten named constants, and the empty
      string the parsers store for a line without tokens. */
  datatype CommandType =
    | C_ARITHMETIC | C_PUSH | C_POP | C_LABEL | C_GOTO | C_IF | C_FUNCTION | C_RETURN | C_CALL
    | UNKNOWN_COMMAND_TYPE
    | NoCommandType

  /** The string value of each COMMAND_TYPE value. */
  function Value(t: CommandType): string
  {
    match t
    case C_ARITHMETIC => "C_ARITHMETIC"
    case C_PUSH => "C_PUSH"
    case C_POP => "C_POP"
    case C_LABEL => "C_LABEL"
    case C_GOTO => "C_GOTO"
    case C_IF => "C_IF"
    case C_FUNCTION => "C_FUNCTION"
    case C_RETURN => "C_RETURN"
    case C_CALL => "C_CALL"
    case UNKNOWN_COMMAND_TYPE => "Unknown command type"
    case NoCommandType => ""
  }

  /** One constructor per Go struct. Every struct keeps its `Op` field even
      where no accessor reads it. */
  datatype Command =
    | Add(op: string)
    | Sub(op: string)
    | Neg(op: string)
    | Eq(op: string)
    | Gt(op: string)
    | Lt(op: string)
    | And(op: string)
    | Or(op: string)
    | Not(op: string)
    | Push(op: string, segment: string, index: Int16)
    | Pop(op: string, segment: string, index: Int16)
    | Label(op: string, labelName: string)
    | Goto(op: string, labelName: string)
    | IfGoto(op: string, labelName: string)
    | Function(op: string, funcName: string, numOfArgs: int)
    | Call(op: string, funcName: string, numOfArgs: int)
    | Return(op: string)
    | Invalid(op: string, arg1: string, arg2: string)
  {
    /** The types that implement ArithmeticCommand. */
    predicate IsArithmetic() {
      Add? || Sub? || Neg? || Eq? || Gt? || Lt? || And? || Or? || Not?
    }

    /** The types that implement MemoryAccessCommand. */
    predicate IsMemoryAccess() {
      Push? || Pop?
    }

    /** The types that implement FlowControlCommand. */
    predicate IsFlowControl() {
      Label? || Goto? || IfGoto?
    }

    /** The types that implement FunctionCallCommand. */
    predicate IsFunctionCall() {
      Function? || Call? || Return?
    }
  }

  /** `Type()` of each struct, exactly as coded: note that IfGotoCommand
      reports C_GOTO. */
  function Type(c: Command): (t: CommandType)
    ensures t != C_IF && t != NoCommandType
  {
    match c
    case Add(_) => C_ARITHMETIC
    case Sub(_) => C_ARITHMETIC
    case Neg(_) => C_ARITHMETIC
    case Eq(_) => C_ARITHMETIC
    case Gt(_) => C_ARITHMETIC
    case Lt(_) => C_ARITHMETIC
    case And(_) => C_ARITHMETIC
    case Or(_) => C_ARITHMETIC
    case Not(_) => C_ARITHMETIC
    case Push(_, _, _) => C_PUSH
    case Pop(_, _, _) => C_POP
    case Label(_, _) => C_LABEL
    case Goto(_, _) => C_GOTO
    case IfGoto(_, _) => C_GOTO
    case Function(_, _, _) => C_FUNCTION
    case Call(_, _, _) => C_CALL
    case Return(_) => C_RETURN
    case Invalid(_, _, _) => UNKNOWN_COMMAND_TYPE
  }

  /** `ArithmeticOpLiteral()`: the stored Op, whatever it holds. */
  function ArithmeticOpLiteral(c: Command): string
    requires c.IsArithmetic()
  {
    c.op
  }

  /** `MemoryAccessOpLiteral()`: a fixed literal per struct, not the Op field. */
  function MemoryAccessOpLiteral(c: Command): string
    requires c.IsMemoryAccess()
  {
    if c.Push? then "push" else "pop"
  }

  /** `FlowControlOpLiteral()`: a fixed literal per struct. */
  function FlowControlOpLiteral(c: Command): string
    requires c.IsFlowControl()
  {
    match c
    case Label(_, _) => "label"
    case Goto(_, _) => "goto"
    case IfGoto(_, _) => "if-goto"
  }

  /** `FunctionOpLiteral()`: a fixed literal per struct. */
  function FunctionOpLiteral(c: Command): string
    requires c.IsFunctionCall()
  {
    match c
    case Function(_, _, _) => "function"
    case Call(_, _, _) => "call"
    case Return(_) => "return"
  }

  /** `InvalidCommand.ErrorMessage()`: the three fields joined with single
      spaces after a fixed prefix. */
  function ErrorMessage(c: Command): string
    requires c.Invalid?
  {
    "Invalid command: " + Join([c.op, c.arg1, c.arg2], " ")
  }

  const ErrorPrefix: string := "Invalid command: "

  /** Reads a COMMAND_TYPE back from its string value. */
  function ValueOf(s: string): (t: Option<CommandType>)
  {
    match s
    case "C_ARITHMETIC" => Some(C_ARITHMETIC)
    case "C_PUSH" => Some(C_PUSH)
    case "C_POP" => Some(C_POP)
    case "C_LABEL" => Some(C_LABEL)
    case "C_GOTO" => Some(C_GOTO)
    case "C_IF" => Some(C_IF)
    case "C_FUNCTION" => Some(C_FUNCTION)
    case "C_RETURN" => Some(C_RETURN)
    case "C_CALL" => Some(C_CALL)
    case "Unknown command type" => Some(UNKNOWN_COMMAND_TYPE)
    case "" => Some(NoCommandType)
    case _ => None
  }

  /** Every COMMAND_TYPE value is read back from its string. */
  lemma ValueRoundTrip(t: CommandType)
    ensures ValueOf(Value(t)) == Some(t)
  {
  }

  /** The COMMAND_TYPE values are pairwise distinct strings, and only the
      parsers' reset value is empty. */
  lemma {:induction false} ValueInjective(a: CommandType, b: CommandType)
    ensures Value(a) == Value(b) ==> a == b
    ensures Value(a) == "" <==> a == NoCommandType
  {
    ValueRoundTrip(a);
    ValueRoundTrip(b);
  }

  /** `Type()` tells the interface families apart: a command reports
      C_ARITHMETIC exactly when it is an arithmetic struct, C_PUSH/C_POP
      exactly when it is a memory-access struct, and UNKNOWN_COMMAND_TYPE
      exactly when it is an InvalidCommand. */
  lemma TypeSeparatesFamilies(c: Command)
    ensures Type(c) == C_ARITHMETIC <==> c.IsArithmetic()
    ensures (Type(c) == C_PUSH || Type(c) == C_POP) <==> c.IsMemoryAccess()
    ensures (Type(c) == C_LABEL || Type(c) == C_GOTO) <==> c.IsFlowControl()
    ensures (Type(c) == C_FUNCTION || Type(c) == C_CALL || Type(c) == C_RETURN) <==> c.IsFunctionCall()
    ensures Type(c) == UNKNOWN_COMMAND_TYPE <==> c.Invalid?
  {
  }

  /** An if-goto and a goto with the same fields agree on `Type()`; only
      `FlowControlOpLiteral()` tells them apart. */
  lemma IfGotoOnlyDistinguishedByLiteral(op: string, labelName: string)
    ensures Type(IfGoto(op, labelName)) == Type(Goto(op, labelName)) == C_GOTO
    ensures FlowControlOpLiteral(IfGoto(op, labelName)) != FlowControlOpLiteral(Goto(op, labelName))
  {
  }

  /** The literal accessors of the memory, flow and function families ignore
      the Op field: any two commands of one struct give the same literal. */
  lemma LiteralsIgnoreOp(c: Command, d: Command)
    requires c.IsMemoryAccess() || c.IsFlowControl() || c.IsFunctionCall()
    requires c.Push? == d.Push? && c.Pop? == d.Pop? && c.Label? == d.Label? && c.Goto? == d.Goto?
    requires c.IfGoto? == d.IfGoto? && c.Function? == d.Function? && c.Call? == d.Call? && c.Return? == d.Return?
    ensures c.IsMemoryAccess() ==> MemoryAccessOpLiteral(c) == MemoryAccessOpLiteral(d)
    ensures c.IsFlowControl() ==> FlowControlOpLiteral(c) == FlowControlOpLiteral(d)
    ensures c.IsFunctionCall() ==> FunctionOpLiteral(c) == FunctionOpLiteral(d)
  {
  }

  /** The error message is the prefix, then Op, Arg1 and Arg2 with both
      separating spaces present even when the arguments are empty; when no
      field holds a space, splitting the rest at spaces gives the three fields
      back. */
  lemma {:induction false} ErrorMessageFields(c: Command)
    requires c.Invalid?
    ensures ErrorMessage(c) == ErrorPrefix + c.op + " " + c.arg1 + " " + c.arg2
    ensures |ErrorMessage(c)| == |ErrorPrefix| + |c.op| + |c.arg1| + |c.arg2| + 2
    ensures ' ' !in c.op && ' ' !in c.arg1 && ' ' !in c.arg2 ==>
              Split(ErrorMessage(c)[|ErrorPrefix|..], ' ') == [c.op, c.arg1, c.arg2]
  {
    var fields := [c.op, c.arg1, c.arg2];
    assert Join(fields, " ") == c.op + " " + (c.arg1 + " " + c.arg2) by {
      assert fields[1..] == [c.arg1, c.arg2];
      assert Join(fields[1..], " ") == c.arg1 + " " + Join([c.arg2], " ");
    }
    assert ErrorMessage(c)[|ErrorPrefix|..] == Join(fields, [' ']);
    if ' ' !in c.op && ' ' !in c.arg1 && ' ' !in c.arg2 {
      SplitJoin(fields, ' ');
    }
  }
}
