/** The code writer of project 07: the Hack assembly lines each VM command
    turns into. The line-sequence functions here describe what the Go code
    writes; the code writer of project 08 repeats these methods word for word
    and is proved against the same functions. Each written string is one line
    of the output (the "\n" that ends it is left implicit). */
module CodeWriter07 {
  import opened GoStrings
  import opened Commands
  import opened FileWriting
  import opened VmParsing

  // ---------------------------------------------------------------------------
  // The switch keys

  /** The arithmetic literals `WriteArithmetic` has a case for. */
  datatype Operator = AddOp | SubOp | NegOp | EqOp | GtOp | LtOp | AndOp | OrOp | NotOp | NoOperator

  function OperatorOf(op: string): Operator
  {
    match op
    case "add" => AddOp
    case "sub" => SubOp
    case "neg" => NegOp
    case "eq" => EqOp
    case "gt" => GtOp
    case "lt" => LtOp
    case "and" => AndOp
    case "or" => OrOp
    case "not" => NotOp
    case _ => NoOperator
  }

  /** The literals with a case are exactly the mnemonics the parsers accept. */
  lemma OperatorOfMnemonics(op: string)
    ensures OperatorOf(op) != NoOperator <==> op in ArithmeticMnemonics
  {
  }

  /** The segment names `writePush` and `writePop` have a case for. */
  datatype Segment = Constant | Argument | Local | This | That | Temp | Pointer | Static | OtherSegment

  function SegmentOf(segment: string): Segment
  {
    match segment
    case "constant" => Constant
    case "argument" => Argument
    case "local" => Local
    case "this" => This
    case "that" => That
    case "temp" => Temp
    case "pointer" => Pointer
    case "static" => Static
    case _ => OtherSegment
  }

  const Segments: set<string> := {"constant", "argument", "local", "this", "that", "temp", "pointer", "static"}

  lemma SegmentOfNames(segment: string)
    ensures SegmentOf(segment) != OtherSegment <==> segment in Segments
    ensures SegmentOf(segment) == Constant <==> segment == "constant"
  {
  }

  // ---------------------------------------------------------------------------
  // The lines written

  /** `pop()`: SP is decremented and the top of the stack loaded into D. */
  const PopLines: seq<string> := ["@SP", "M=M-1", "A=M", "D=M"]

  /** `push()`: D is stored at SP and SP is incremented. */
  const PushLines: seq<string> := ["@SP", "A=M", "M=D", "@SP", "M=M+1"]

  function FalseLabel(n: nat): string { "FALSE" + Itoa(n) }

  function TrueLabel(n: nat): string { "TRUE" + Itoa(n) }

  /** The last three lines of most arithmetic cases: the new top of the stack,
      one below SP, is overwritten by `last`. */
  function TopLines(last: string): seq<string> { ["@SP", "A=M-1", last] }

  /** The test of eq: D is the difference, and it jumps over `D=1` to
      FALSE<n> when it is zero. */
  function EqTestLines(falseLabel: string): seq<string>
  {
    ["@SP", "A=M-1", "D=D-M", "@" + falseLabel, "D;JEQ", "D=1", "(" + falseLabel + ")"]
  }

  /** The test of gt and lt: D is the difference, and `jump` goes to TRUE<n>. */
  function CompareTestLines(jump: string, trueLabel: string): seq<string>
  {
    ["@SP", "A=M-1", "D=M-D", "@" + trueLabel, jump, "D=0", "D=!D"]
  }

  /** The branches of gt and lt meeting at FALSE<n>. */
  function CompareJoinLines(trueLabel: string, falseLabel: string): seq<string>
  {
    ["@" + falseLabel, "0;JMP", "(" + trueLabel + ")", "D=0", "(" + falseLabel + ")"]
  }

  /** gt and lt, with the label counter at `n`. */
  function CompareLines(jump: string, n: nat): seq<string>
  {
    PopLines + CompareTestLines(jump, TrueLabel(n)) + CompareJoinLines(TrueLabel(n), FalseLabel(n)) + TopLines("M=!D")
  }

  /** `WriteArithmetic` for each case, with the label counter at `n`. */
  function OperatorLines(o: Operator, n: nat): seq<string>
  {
    match o
    case AddOp => PopLines + TopLines("M=M+D")
    case SubOp => PopLines + TopLines("M=M-D")
    case NegOp => TopLines("M=-M")
    case EqOp => PopLines + EqTestLines(FalseLabel(n)) + TopLines("M=!D")
    case GtOp => CompareLines("D;JGT", n)
    case LtOp => CompareLines("D;JLT", n)
    case AndOp => PopLines + TopLines("M=M&D")
    case OrOp => PopLines + TopLines("M=M|D")
    case NotOp => PopLines + ["@SP", "A=M", "M=!D"]
    case NoOperator => []
  }

  /** `WriteArithmetic` for the literal `op`; a literal that is none of the
      nine writes nothing. */
  function ArithmeticLines(op: string, n: nat): seq<string>
  {
    OperatorLines(OperatorOf(op), n)
  }

  /** How many label numbers `WriteArithmetic` uses up: one for each
      comparison. */
  function LabelsTaken(op: string): nat
  {
    if OperatorOf(op) in {EqOp, GtOp, LtOp} then 1 else 0
  }

  /** `getSegmentDataFromMemory`: the base address held in a register. */
  function SegmentBaseLines(register: string): seq<string> { ["@" + register, "D=M"] }

  /** `getDataByMemoryAddress`: a fixed base address. */
  function AddressLines(address: int): seq<string> { ["@" + Itoa(address), "D=A"] }

  /** `pushFromMemory`: RAM[base + index] is pushed. */
  function PushFromMemoryLines(index: int): seq<string>
  {
    ["@" + Itoa(index), "A=D+A", "D=M"] + PushLines
  }

  /** The first half of `loadToMemory`: base + index is parked in RAM[13]. */
  function ParkLines(index: int): seq<string>
  {
    ["@13", "M=D", "@" + Itoa(index), "D=A", "@13", "M=M+D"]
  }

  /** The second half of `loadToMemory`: the stack is popped into D and D is
      stored through the address parked in RAM[13]. */
  const StoreLines: seq<string> := PopLines + ["@13", "A=M", "M=D"]

  function LoadToMemoryLines(index: int): seq<string>
  {
    ParkLines(index) + StoreLines
  }

  /** The address line of a static variable: the writer's file-name stem, a
      dot and the index. */
  function StaticAddress(fileName: string, index: int): string
  {
    "@" + fileName + "." + Itoa(index)
  }

  /** `writePush`. Static push writes `M=D` where `D=M` would load the
      variable; it is kept as written. */
  function PushSegmentLines(fileName: string, segment: string, index: int): seq<string>
  {
    PushBlock(fileName, SegmentOf(segment), index)
  }

  function PushBlock(fileName: string, s: Segment, index: int): seq<string>
  {
    match s
    case Constant => ["@" + Itoa(index), "D=A"] + PushLines
    case Argument => SegmentBaseLines("ARG") + PushFromMemoryLines(index)
    case Local => SegmentBaseLines("LCL") + PushFromMemoryLines(index)
    case This => SegmentBaseLines("THIS") + PushFromMemoryLines(index)
    case That => SegmentBaseLines("THAT") + PushFromMemoryLines(index)
    case Temp => AddressLines(5) + PushFromMemoryLines(index)
    case Pointer => AddressLines(3) + PushFromMemoryLines(index)
    case Static => [StaticAddress(fileName, index), "M=D"] + PushLines
    case OtherSegment => []
  }

  /** `writePop`: no case for "constant" or an unknown segment. */
  function PopSegmentLines(fileName: string, segment: string, index: int): seq<string>
  {
    PopBlock(fileName, SegmentOf(segment), index)
  }

  function PopBlock(fileName: string, s: Segment, index: int): seq<string>
  {
    match s
    case Argument => SegmentBaseLines("ARG") + LoadToMemoryLines(index)
    case Local => SegmentBaseLines("LCL") + LoadToMemoryLines(index)
    case This => SegmentBaseLines("THIS") + LoadToMemoryLines(index)
    case That => SegmentBaseLines("THAT") + LoadToMemoryLines(index)
    case Temp => AddressLines(5) + LoadToMemoryLines(index)
    case Pointer => AddressLines(3) + LoadToMemoryLines(index)
    case Static => PopLines + [StaticAddress(fileName, index), "M=D"]
    case _ => []
  }

  /** `WritePushPop`: dispatches on Type(). */
  function PushPopLines(fileName: string, c: Command): seq<string>
    requires c.IsMemoryAccess()
  {
    match Type(c)
    case C_PUSH => PushSegmentLines(fileName, c.segment, c.index as int)
    case C_POP => PopSegmentLines(fileName, c.segment, c.index as int)
  }

  /** `WriteAssembly` of project 07: arithmetic, push and pop commands are
      written; any other command type writes nothing. */
  function AssemblyLines(fileName: string, c: Command, n: nat): seq<string>
  {
    match Type(c)
    case C_ARITHMETIC => ArithmeticLines(c.op, n)
    case C_PUSH => PushPopLines(fileName, c)
    case C_POP => PushPopLines(fileName, c)
    case _ => []
  }

  /** The label numbers `WriteAssembly` uses up. */
  function LabelsUsed(c: Command): nat
  {
    if Type(c) == C_ARITHMETIC then LabelsTaken(c.op) else 0
  }

  /** The label counter moves once for each eq, gt and lt and for nothing
      else, and what any command writes depends on the counter only through
      those comparisons. */
  lemma LabelsUsedByComparisonsOnly(fileName: string, c: Command, n: nat, m: nat)
    ensures LabelsUsed(c) == (if Type(c) == C_ARITHMETIC && c.op in {"eq", "gt", "lt"} then 1 else 0)
    ensures LabelsUsed(c) == 0 ==> AssemblyLines(fileName, c, n) == AssemblyLines(fileName, c, m)
  {
  }

  // ---------------------------------------------------------------------------
  // Reading the lines back: label definitions

  /** A line `(L)` defines the label L. */
  predicate IsDefinition(line: string)
  {
    |line| >= 2 && line[0] == '(' && line[|line| - 1] == ')'
  }

  /** The labels a run of lines defines, in order of definition. */
  function DefinedLabels(lines: seq<string>): seq<string>
  {
    if lines == [] then []
    else
      (if IsDefinition(lines[0]) then [lines[0][1..|lines[0]| - 1]] else []) + DefinedLabels(lines[1..])
  }

  lemma {:induction false} DefinedLabelsAppend(a: seq<string>, b: seq<string>)
    ensures DefinedLabels(a + b) == DefinedLabels(a) + DefinedLabels(b)
    decreases |a|
  {
    if a == [] {
      assert a + b == b;
    } else {
      assert (a + b)[0] == a[0] && (a + b)[1..] == a[1..] + b;
      DefinedLabelsAppend(a[1..], b);
      var h := if IsDefinition(a[0]) then [a[0][1..|a[0]| - 1]] else [];
      assert DefinedLabels(a + b) == h + (DefinedLabels(a[1..]) + DefinedLabels(b));
      assert DefinedLabels(a) == h + DefinedLabels(a[1..]);
    }
  }

  /** No line of the block is a label definition. */
  predicate Plain(lines: seq<string>)
  {
    forall i :: 0 <= i < |lines| ==> !IsDefinition(lines[i])
  }

  lemma {:induction false} PlainDefinesNothing(lines: seq<string>)
    requires Plain(lines)
    ensures DefinedLabels(lines) == []
  {
    if lines != [] {
      PlainDefinesNothing(lines[1..]);
    }
  }

  /** The line `(L)` defines L and nothing else. */
  lemma DefinitionLine(name: string)
    ensures DefinedLabels(["(" + name + ")"]) == [name]
  {
    var line: string := "(" + name + ")";
    var lines: seq<string> := [line];
    assert IsDefinition(line) && line[1..|line| - 1] == name;
    assert lines[1..] == [];
  }

  lemma PlainAppend(a: seq<string>, b: seq<string>)
    requires Plain(a) && Plain(b)
    ensures Plain(a + b)
  {
  }

  /** A line that starts with `@` or a letter defines nothing. */
  lemma PlainLine(line: string)
    requires line != [] && line[0] != '('
    ensures Plain([line])
  {
  }

  /** The blocks without a label definition. */
  lemma PlainBlocks(last: string)
    requires last != [] && last[0] != '('
    ensures Plain(PopLines) && Plain(PushLines) && Plain(TopLines(last)) && Plain(["@SP", "A=M", "M=!D"])
  {
  }

  /** eq defines its false label. */
  lemma EqTestLabels(falseLabel: string)
    ensures DefinedLabels(EqTestLines(falseLabel)) == [falseLabel]
  {
    var head := ["@SP", "A=M-1", "D=D-M", "@" + falseLabel, "D;JEQ", "D=1"];
    assert EqTestLines(falseLabel) == head + ["(" + falseLabel + ")"];
    assert Plain(head);
    PlainDefinesNothing(head);
    DefinitionLine(falseLabel);
    DefinedLabelsAppend(head, ["(" + falseLabel + ")"]);
  }

  /** gt and lt define their true label, then their false label. */
  lemma CompareJoinLabels(trueLabel: string, falseLabel: string)
    ensures DefinedLabels(CompareJoinLines(trueLabel, falseLabel)) == [trueLabel, falseLabel]
  {
    var jumpLines := ["@" + falseLabel, "0;JMP"];
    var rest := ["(" + trueLabel + ")"] + (["D=0"] + ["(" + falseLabel + ")"]);
    assert CompareJoinLines(trueLabel, falseLabel) == jumpLines + rest;
    assert Plain(jumpLines) && Plain(["D=0"]);
    PlainDefinesNothing(jumpLines);
    PlainDefinesNothing(["D=0"]);
    DefinitionLine(trueLabel);
    DefinitionLine(falseLabel);
    DefinedLabelsAppend(["D=0"], ["(" + falseLabel + ")"]);
    DefinedLabelsAppend(["(" + trueLabel + ")"], ["D=0"] + ["(" + falseLabel + ")"]);
    DefinedLabelsAppend(jumpLines, rest);
  }

  /** The comparison labels, as values: their text is "FALSE" or "TRUE"
      followed by the decimal number. */
  datatype ComparisonLabel = FalseOf(n: nat) | TrueOf(n: nat)
  {
    function Text(): string
    {
      if FalseOf? then FalseLabel(n) else TrueLabel(n)
    }
  }

  /** Distinct comparison labels have distinct texts. */
  lemma {:induction false} LabelTextInjective(a: ComparisonLabel, b: ComparisonLabel)
    ensures a.Text() == b.Text() ==> a == b
  {
    if a.Text() == b.Text() {
      assert a.Text()[0] == b.Text()[0];
      if a.FalseOf? {
        assert Itoa(a.n) == a.Text()[5..] == b.Text()[5..] == Itoa(b.n);
      } else {
        assert Itoa(a.n) == a.Text()[4..] == b.Text()[4..] == Itoa(b.n);
      }
      ItoaInjective(a.n, b.n);
    }
  }

  /** The labels one arithmetic command defines, in order. */
  function ComparisonLabels(op: string, n: nat): seq<ComparisonLabel>
  {
    match OperatorOf(op)
    case EqOp => [FalseOf(n)]
    case GtOp => [TrueOf(n), FalseOf(n)]
    case LtOp => [TrueOf(n), FalseOf(n)]
    case _ => []
  }

  function Texts(ls: seq<ComparisonLabel>): (r: seq<string>)
    ensures |r| == |ls| && forall i :: 0 <= i < |ls| ==> r[i] == ls[i].Text()
  {
    if ls == [] then [] else [ls[0].Text()] + Texts(ls[1..])
  }

  /** eq defines FALSE<n>; gt and lt define TRUE<n> then FALSE<n>; every
      other literal defines no label. Each label a comparison jumps to is
      defined in its own block. */
  lemma ArithmeticLabels(op: string, n: nat)
    ensures DefinedLabels(ArithmeticLines(op, n)) == Texts(ComparisonLabels(op, n))
    ensures OperatorOf(op) in {EqOp, GtOp, LtOp} ==> "@" + FalseLabel(n) in ArithmeticLines(op, n)
    ensures OperatorOf(op) in {GtOp, LtOp} ==> "@" + TrueLabel(n) in ArithmeticLines(op, n)
  {
    match OperatorOf(op)
    case EqOp =>
      EqLabels(n);
    case GtOp =>
      CompareLabels("D;JGT", n);
    case LtOp =>
      CompareLabels("D;JLT", n);
    case NoOperator =>
    case _ =>
      PlainOperatorLabels(OperatorOf(op), n);
  }

  lemma EqLabels(n: nat)
    ensures DefinedLabels(OperatorLines(EqOp, n)) == [FalseLabel(n)]
    ensures "@" + FalseLabel(n) in OperatorLines(EqOp, n)
  {
    var f := FalseLabel(n);
    PlainBlocks("M=!D");
    PlainDefinesNothing(PopLines);
    PlainDefinesNothing(TopLines("M=!D"));
    EqTestLabels(f);
    DefinedLabelsAppend(PopLines, EqTestLines(f));
    DefinedLabelsAppend(PopLines + EqTestLines(f), TopLines("M=!D"));
    assert OperatorLines(EqOp, n)[7] == "@" + f;
  }

  lemma PlainOperatorLabels(o: Operator, n: nat)
    requires o !in {EqOp, GtOp, LtOp, NoOperator}
    ensures DefinedLabels(OperatorLines(o, n)) == []
  {
    var lines := OperatorLines(o, n);
    var last := lines[|lines| - 1];
    PlainBlocks(last);
    PlainAppend(PopLines, TopLines(last));
    PlainAppend(PopLines, ["@SP", "A=M", "M=!D"]);
    PlainDefinesNothing(lines);
  }

  lemma CompareLabels(jump: string, n: nat)
    requires jump in {"D;JGT", "D;JLT"}
    ensures DefinedLabels(CompareLines(jump, n)) == [TrueLabel(n), FalseLabel(n)]
    ensures "@" + TrueLabel(n) in CompareLines(jump, n) && "@" + FalseLabel(n) in CompareLines(jump, n)
  {
    var t, f := TrueLabel(n), FalseLabel(n);
    var test, join := CompareTestLines(jump, t), CompareJoinLines(t, f);
    CompareTestPlain(jump, t);
    PlainBlocks("M=!D");
    PlainAppend(PopLines, test);
    PlainDefinesNothing(PopLines + test);
    PlainDefinesNothing(TopLines("M=!D"));
    CompareJoinLabels(t, f);
    DefinedLabelsAppend(PopLines + test, join);
    DefinedLabelsAppend(PopLines + test + join, TopLines("M=!D"));
    assert test[3] == "@" + t && join[0] == "@" + f;
  }

  lemma CompareTestPlain(jump: string, trueLabel: string)
    requires jump in {"D;JGT", "D;JLT"}
    ensures Plain(CompareTestLines(jump, trueLabel))
  {
  }

  // ---------------------------------------------------------------------------
  // A run of WriteAssembly calls

  /** What a run of commands produces when each command, written with the
      label counter at `n`, yields `out(c, n)` and uses up `used(c)` label
      numbers: the outputs in order, the counter advanced past every earlier
      command. */
  function Run<T>(out: (Command, nat) -> seq<T>, used: Command -> nat, cmds: seq<Command>, n: nat): seq<T>
  {
    if cmds == [] then []
    else
      var earlier := cmds[..|cmds| - 1];
      Run(out, used, earlier, n) + out(cmds[|cmds| - 1], n + Used(used, earlier))
  }

  /** The label numbers a run uses up. */
  function Used(used: Command -> nat, cmds: seq<Command>): nat
  {
    if cmds == [] then 0 else Used(used, cmds[..|cmds| - 1]) + used(cmds[|cmds| - 1])
  }

  /** The lines a sequence of `WriteAssembly` calls writes, the label counter
      starting at `n`. */
  function AssemblyRun(fileName: string, cmds: seq<Command>, n: nat): seq<string>
  {
    Run(WriterOf(fileName), LabelsUsed, cmds, n)
  }

  /** `WriteAssembly` for the file `fileName`, as a function of the command
      and the label counter. */
  function WriterOf(fileName: string): (Command, nat) -> seq<string>
  {
    (c: Command, k: nat) => AssemblyLines(fileName, c, k)
  }

  /** The comparison labels a run defines, in order. */
  function RunLabels(cmds: seq<Command>, n: nat): seq<ComparisonLabel>
  {
    Run(CommandLabels, LabelsUsed, cmds, n)
  }

  function RunLabelsUsed(cmds: seq<Command>): nat
  {
    Used(LabelsUsed, cmds)
  }

  /** The comparison labels one command defines. */
  function CommandLabels(c: Command, n: nat): seq<ComparisonLabel>
  {
    if Type(c) == C_ARITHMETIC then ComparisonLabels(c.op, n) else []
  }

  /** The last command of a run writes its lines after the others', with the
      counter moved past the earlier commands. */
  lemma RunLast(fileName: string, cmds: seq<Command>, n: nat)
    requires cmds != []
    ensures AssemblyRun(fileName, cmds, n) == AssemblyRun(fileName, cmds[..|cmds| - 1], n) + AssemblyLines(fileName, cmds[|cmds| - 1], n + RunLabelsUsed(cmds[..|cmds| - 1]))
    ensures RunLabels(cmds, n) == RunLabels(cmds[..|cmds| - 1], n) + CommandLabels(cmds[|cmds| - 1], n + RunLabelsUsed(cmds[..|cmds| - 1]))
    ensures RunLabelsUsed(cmds) == RunLabelsUsed(cmds[..|cmds| - 1]) + LabelsUsed(cmds[|cmds| - 1])
  {
    var earlier, c := cmds[..|cmds| - 1], cmds[|cmds| - 1];
    var k := n + RunLabelsUsed(earlier);
    RunLastOf(WriterOf(fileName), LabelsUsed, cmds, n);
    assert WriterOf(fileName)(c, k) == AssemblyLines(fileName, c, k);
    RunLastOf(CommandLabels, LabelsUsed, cmds, n);
  }

  lemma RunLastOf<T>(out: (Command, nat) -> seq<T>, used: Command -> nat, cmds: seq<Command>, n: nat)
    requires cmds != []
    ensures Run(out, used, cmds, n) == Run(out, used, cmds[..|cmds| - 1], n) + out(cmds[|cmds| - 1], n + Used(used, cmds[..|cmds| - 1]))
    ensures Used(used, cmds) == Used(used, cmds[..|cmds| - 1]) + used(cmds[|cmds| - 1])
  {
  }

  /** Writing one more command extends the run by that command's lines. */
  lemma AssemblyRunSnoc(fileName: string, cmds: seq<Command>, c: Command, n: nat)
    ensures AssemblyRun(fileName, cmds + [c], n) ==
            AssemblyRun(fileName, cmds, n) + AssemblyLines(fileName, c, n + RunLabelsUsed(cmds))
    ensures RunLabelsUsed(cmds + [c]) == RunLabelsUsed(cmds) + LabelsUsed(c)
  {
    var k := n + RunLabelsUsed(cmds);
    RunSnoc(WriterOf(fileName), LabelsUsed, cmds, c, n);
    assert WriterOf(fileName)(c, k) == AssemblyLines(fileName, c, k);
  }

  lemma RunSnoc<T>(out: (Command, nat) -> seq<T>, used: Command -> nat, cmds: seq<Command>, c: Command, n: nat)
    ensures Run(out, used, cmds + [c], n) == Run(out, used, cmds, n) + out(c, n + Used(used, cmds))
    ensures Used(used, cmds + [c]) == Used(used, cmds) + used(c)
  {
    assert (cmds + [c])[..|cmds|] == cmds;
  }

  /** The labels one `WriteAssembly` call defines all carry the counter's
      value, and the counter moves past them. */
  lemma CommandDefines(fileName: string, c: Command, n: nat)
    ensures DefinedLabels(AssemblyLines(fileName, c, n)) == Texts(CommandLabels(c, n))
    ensures forall l :: l in CommandLabels(c, n) ==> l.n == n && LabelsUsed(c) == 1
    ensures |CommandLabels(c, n)| <= 2
    ensures |CommandLabels(c, n)| == 2 ==> CommandLabels(c, n)[0] != CommandLabels(c, n)[1]
  {
    match Type(c)
    case C_ARITHMETIC =>
      ArithmeticLabels(c.op, n);
    case C_PUSH =>
      PushPopDefinesNothing(fileName, c);
    case C_POP =>
      PushPopDefinesNothing(fileName, c);
    case _ =>
  }

  /** Push and pop lines define no label. */
  lemma PushPopDefinesNothing(fileName: string, c: Command)
    requires c.IsMemoryAccess()
    ensures DefinedLabels(PushPopLines(fileName, c)) == []
  {
    SegmentLinesPlain(fileName, c.segment, c.index as int);
    PlainDefinesNothing(PushPopLines(fileName, c));
  }

  lemma SegmentLinesPlain(fileName: string, segment: string, index: int)
    ensures Plain(PushSegmentLines(fileName, segment, index)) && Plain(PopSegmentLines(fileName, segment, index))
  {
    PushSegmentPlain(fileName, segment, index);
    PopSegmentPlain(fileName, segment, index);
  }

  lemma PushSegmentPlain(fileName: string, segment: string, index: int)
    ensures Plain(PushSegmentLines(fileName, segment, index))
  {
    MemoryBlocksPlain(index);
    BasesPlain(PushFromMemoryLines(index));
    DirectBlocksPlain(fileName, index);
  }

  lemma PopSegmentPlain(fileName: string, segment: string, index: int)
    ensures Plain(PopSegmentLines(fileName, segment, index))
  {
    MemoryBlocksPlain(index);
    BasesPlain(LoadToMemoryLines(index));
    DirectBlocksPlain(fileName, index);
  }

  /** The constant and static blocks define no label. */
  lemma DirectBlocksPlain(fileName: string, index: int)
    ensures Plain(["@" + Itoa(index), "D=A"] + PushLines)
    ensures Plain([StaticAddress(fileName, index), "M=D"] + PushLines)
    ensures Plain(PopLines + [StaticAddress(fileName, index), "M=D"])
  {
    PlainBlocks("M=D");
    var number := "@" + Itoa(index);
    var address := StaticAddress(fileName, index);
    PlainLine(number);
    PlainLine(address);
    PlainAppend([number], ["D=A"]);
    PlainAppend([number, "D=A"], PushLines);
    PlainAppend([address], ["M=D"]);
    PlainAppend([address, "M=D"], PushLines);
    PlainAppend(PopLines, [address, "M=D"]);
  }

  /** `pushFromMemory` and `loadToMemory` define no label. */
  lemma MemoryBlocksPlain(index: int)
    ensures Plain(PushFromMemoryLines(index)) && Plain(LoadToMemoryLines(index))
  {
    var number := "@" + Itoa(index);
    PlainLine(number);
    PlainBlocks("M=D");
    PlainAppend([number], ["A=D+A", "D=M"]);
    PlainAppend([number, "A=D+A", "D=M"], PushLines);
    PlainAppend(["@13", "M=D"], [number]);
    PlainAppend(["@13", "M=D", number], ["D=A", "@13", "M=M+D"]);
    PlainAppend(PopLines, ["@13", "A=M", "M=D"]);
    PlainAppend(ParkLines(index), StoreLines);
  }

  /** Any block without a definition keeps none after a base-address load. */
  lemma BasesPlain(block: seq<string>)
    requires Plain(block)
    ensures forall r :: Plain(SegmentBaseLines(r) + block)
    ensures Plain(AddressLines(5) + block) && Plain(AddressLines(3) + block)
  {
    PlainLine("@" + Itoa(5));
    PlainLine("@" + Itoa(3));
    PlainAppend(["@" + Itoa(5)], ["D=A"]);
    PlainAppend(["@" + Itoa(3)], ["D=A"]);
    PlainAppend(AddressLines(5), block);
    PlainAppend(AddressLines(3), block);
    forall r
      ensures Plain(SegmentBaseLines(r) + block)
    {
      PlainLine("@" + r);
      PlainAppend(["@" + r], ["D=M"]);
      PlainAppend(SegmentBaseLines(r), block);
    }
  }

  lemma {:induction false} TextsAppend(a: seq<ComparisonLabel>, b: seq<ComparisonLabel>)
    ensures Texts(a + b) == Texts(a) + Texts(b)
  {
  }

  /** The labels a run's lines define are exactly its comparison labels,
      in order. */
  lemma {:induction false} RunDefinesItsLabels(fileName: string, cmds: seq<Command>, n: nat)
    ensures DefinedLabels(AssemblyRun(fileName, cmds, n)) == Texts(RunLabels(cmds, n))
    decreases |cmds|
  {
    if cmds != [] {
      var earlier := cmds[..|cmds| - 1];
      var c := cmds[|cmds| - 1];
      var m := n + RunLabelsUsed(earlier);
      RunDefinesItsLabels(fileName, earlier, n);
      RunLast(fileName, cmds, n);
      CommandDefines(fileName, c, m);
      DefinesStep(AssemblyRun(fileName, cmds, n), RunLabels(cmds, n),
        AssemblyRun(fileName, earlier, n), RunLabels(earlier, n), AssemblyLines(fileName, c, m), CommandLabels(c, m));
    }
  }

  /** Blocks that define the texts of their labels, written one after the
      other, define the texts of the labels one after the other. */
  lemma DefinesStep(whole: seq<string>, wholeLabels: seq<ComparisonLabel>,
                    lines: seq<string>, labels: seq<ComparisonLabel>, more: seq<string>, moreLabels: seq<ComparisonLabel>)
    requires whole == lines + more && wholeLabels == labels + moreLabels
    requires DefinedLabels(lines) == Texts(labels) && DefinedLabels(more) == Texts(moreLabels)
    ensures DefinedLabels(whole) == Texts(wholeLabels)
  {
    DefinedLabelsAppend(lines, more);
    TextsAppend(labels, moreLabels);
  }

  /** The labels of a run are numbered from `n` on, below `n` plus the number
      of comparisons in the run, and each appears once. */
  lemma {:induction false} RunLabelsNumbered(cmds: seq<Command>, n: nat)
    ensures forall l :: l in RunLabels(cmds, n) ==> n <= l.n < n + RunLabelsUsed(cmds)
    ensures forall i, j :: 0 <= i < j < |RunLabels(cmds, n)| ==> RunLabels(cmds, n)[i] != RunLabels(cmds, n)[j]
    decreases |cmds|
  {
    if cmds != [] {
      var earlier := cmds[..|cmds| - 1];
      var c := cmds[|cmds| - 1];
      var m := n + RunLabelsUsed(earlier);
      RunLabelsNumbered(earlier, n);
      RunLast("", cmds, n);
      CommandDefines("", c, m);
      LabelsAppendDistinct(RunLabels(earlier, n), CommandLabels(c, m), m);
    }
  }

  /** Labels numbered below `m`, each once, followed by labels numbered `m`,
      each once, are all distinct. */
  lemma LabelsAppendDistinct(a: seq<ComparisonLabel>, b: seq<ComparisonLabel>, m: nat)
    requires forall l :: l in a ==> l.n < m
    requires forall l :: l in b ==> l.n == m
    requires forall i, j :: 0 <= i < j < |a| ==> a[i] != a[j]
    requires forall i, j :: 0 <= i < j < |b| ==> b[i] != b[j]
    ensures forall i, j :: 0 <= i < j < |a + b| ==> (a + b)[i] != (a + b)[j]
  {
    forall i, j | 0 <= i < j < |a + b|
      ensures (a + b)[i] != (a + b)[j]
    {
      if i < |a| && j >= |a| {
        assert (a + b)[i] in a && (a + b)[j] in b;
      }
    }
  }

  /** No label is defined twice in the lines a run of `WriteAssembly` calls
      writes: the label counter gives each comparison its own number. */
  lemma RunDefinesEachLabelOnce(fileName: string, cmds: seq<Command>, n: nat)
    ensures var defs := DefinedLabels(AssemblyRun(fileName, cmds, n));
      forall i, j :: 0 <= i < j < |defs| ==> defs[i] != defs[j]
  {
    RunDefinesItsLabels(fileName, cmds, n);
    RunLabelsNumbered(cmds, n);
    var ls := RunLabels(cmds, n);
    forall i, j | 0 <= i < j < |ls|
      ensures ls[i].Text() != ls[j].Text()
    {
      LabelTextInjective(ls[i], ls[j]);
    }
  }

  // ---------------------------------------------------------------------------
  // Reading the lines back: stack-pointer steps

  /** The net number of `@SP`/`M=M+1` increments minus `@SP`/`M=M-1`
      decrements in a run of lines. */
  function SpDelta(lines: seq<string>): int
    decreases |lines|
  {
    if |lines| < 2 then 0
    else if lines[0] == "@SP" && lines[1] == "M=M+1" then 1 + SpDelta(lines[2..])
    else if lines[0] == "@SP" && lines[1] == "M=M-1" then -1 + SpDelta(lines[2..])
    else SpDelta(lines[1..])
  }

  /** A block that does not end in the middle of an `@SP` step. */
  predicate Closed(lines: seq<string>)
  {
    |lines| == 0 || lines[|lines| - 1] != "@SP"
  }

  /** SP steps add up over consecutive blocks when the first is closed. */
  lemma {:induction false} SpDeltaAppend(a: seq<string>, b: seq<string>)
    requires Closed(a)
    ensures SpDelta(a + b) == SpDelta(a) + SpDelta(b)
    ensures Closed(b) ==> Closed(a + b)
    decreases |a|
  {
    if |a| == 0 {
      assert a + b == b;
    } else if |a| == 1 {
      if |b| > 0 {
        assert (a + b)[1..] == b;
      }
    } else if a[0] == "@SP" && (a[1] == "M=M+1" || a[1] == "M=M-1") {
      AppendTail(a, b);
      assert (a + b)[2..] == (a + b)[1..][1..] == a[2..] + b;
      SpDeltaAppend(a[2..], b);
    } else {
      AppendTail(a, b);
      SpDeltaAppend(a[1..], b);
    }
  }

  /** Dropping the first element of `a + b` drops it from `a`. */
  lemma AppendTail<T>(a: seq<T>, b: seq<T>)
    requires |a| >= 2
    ensures (a + b)[0] == a[0] && (a + b)[1] == a[1] && (a + b)[1..] == a[1..] + b
  {
  }

  /** SP steps add up over four consecutive blocks. */
  lemma SpDeltaOfFour(a: seq<string>, b: seq<string>, c: seq<string>, d: seq<string>)
    requires Closed(a) && Closed(b) && Closed(c) && Closed(d)
    ensures Closed(a + b + c + d)
    ensures SpDelta(a + b + c + d) == SpDelta(a) + SpDelta(b) + SpDelta(c) + SpDelta(d)
  {
    SpDeltaAppend(a, b);
    SpDeltaAppend(a + b, c);
    SpDeltaAppend(a + b + c, d);
  }

  /** No `@SP` line of the block is followed by an SP step. */
  predicate NoSteps(lines: seq<string>)
  {
    forall i :: 0 <= i < |lines| - 1 ==> !(lines[i] == "@SP" && (lines[i + 1] == "M=M+1" || lines[i + 1] == "M=M-1"))
  }

  lemma {:induction false} NoStepsNoDelta(lines: seq<string>)
    requires NoSteps(lines)
    ensures SpDelta(lines) == 0
    decreases |lines|
  {
    if |lines| >= 2 {
      NoStepsNoDelta(lines[1..]);
    }
  }

  /** `pop()` is one decrement and `push()` one increment. */
  lemma StackBlocksSteps()
    ensures Closed(PopLines) && SpDelta(PopLines) == -1
    ensures Closed(PushLines) && SpDelta(PushLines) == 1
  {
    assert PopLines[2..] == ["A=M", "D=M"] && PopLines[3..] == ["D=M"];
    var store := ["@SP", "A=M", "M=D"];
    assert NoSteps(store);
    NoStepsNoDelta(store);
    SpDeltaAppend(store, ["@SP", "M=M+1"]);
    assert PushLines == store + ["@SP", "M=M+1"];
    var step := ["@SP", "M=M+1"];
    assert step[2..] == [];
  }

  /** A closed block without SP steps. */
  predicate Still(lines: seq<string>)
  {
    Closed(lines) && SpDelta(lines) == 0
  }

  lemma StillLines(lines: seq<string>)
    requires Closed(lines) && NoSteps(lines)
    ensures Still(lines)
  {
    NoStepsNoDelta(lines);
  }

  /** A two-line block whose second line is no SP step. */
  lemma PairStill(first: string, second: string)
    requires second != "@SP" && second != "M=M+1" && second != "M=M-1"
    ensures Still([first, second])
  {
    StillLines([first, second]);
  }

  /** `pushFromMemory` fetches and pushes: one step up. */
  lemma PushFromMemorySteps(index: int)
    ensures Closed(PushFromMemoryLines(index)) && SpDelta(PushFromMemoryLines(index)) == 1
  {
    StackBlocksSteps();
    var fetch := ["@" + Itoa(index), "A=D+A", "D=M"];
    StillLines(fetch);
    SpDeltaAppend(fetch, PushLines);
  }

  /** `loadToMemory` parks the address in R13 and then pops: one step down. */
  lemma LoadToMemorySteps(index: int)
    ensures Closed(LoadToMemoryLines(index)) && SpDelta(LoadToMemoryLines(index)) == -1
  {
    StackBlocksSteps();
    StillLines(ParkLines(index));
    var restore := ["@13", "A=M", "M=D"];
    StillLines(restore);
    SpDeltaAppend(PopLines, restore);
    SpDeltaAppend(ParkLines(index), StoreLines);
  }

  /** Every block a push writes is closed and steps SP up once, except push
      to an unknown segment, which writes nothing. */
  lemma PushSteps(fileName: string, segment: string, index: int)
    ensures Closed(PushSegmentLines(fileName, segment, index))
    ensures SpDelta(PushSegmentLines(fileName, segment, index)) == (if segment in Segments then 1 else 0)
    ensures PushSegmentLines(fileName, segment, index) == [] <==> segment !in Segments
  {
    SegmentOfNames(segment);
    PushStepsOf(fileName, SegmentOf(segment), index);
  }

  lemma PushStepsOf(fileName: string, s: Segment, index: int)
    ensures Closed(PushBlock(fileName, s, index))
    ensures SpDelta(PushBlock(fileName, s, index)) == (if s == OtherSegment then 0 else 1)
    ensures PushBlock(fileName, s, index) == [] <==> s == OtherSegment
  {
    StackBlocksSteps();
    match s
    case OtherSegment =>
    case Constant =>
      PairStill("@" + Itoa(index), "D=A");
      SpDeltaAppend(["@" + Itoa(index), "D=A"], PushLines);
    case Static =>
      PairStill(StaticAddress(fileName, index), "M=D");
      SpDeltaAppend([StaticAddress(fileName, index), "M=D"], PushLines);
    case Argument => BaseStill("ARG"); PushFromBase(SegmentBaseLines("ARG"), index);
    case Local => BaseStill("LCL"); PushFromBase(SegmentBaseLines("LCL"), index);
    case This => BaseStill("THIS"); PushFromBase(SegmentBaseLines("THIS"), index);
    case That => BaseStill("THAT"); PushFromBase(SegmentBaseLines("THAT"), index);
    case Temp => AddressStill(5); PushFromBase(AddressLines(5), index);
    case Pointer => AddressStill(3); PushFromBase(AddressLines(3), index);
  }

  lemma BaseStill(register: string)
    ensures Still(SegmentBaseLines(register))
  {
    PairStill("@" + register, "D=M");
  }

  lemma AddressStill(address: int)
    ensures Still(AddressLines(address))
  {
    PairStill("@" + Itoa(address), "D=A");
  }

  /** A base-address load followed by `pushFromMemory` steps SP up once. */
  lemma PushFromBase(base: seq<string>, index: int)
    requires Still(base)
    ensures Closed(base + PushFromMemoryLines(index)) && SpDelta(base + PushFromMemoryLines(index)) == 1
  {
    PushFromMemorySteps(index);
    SpDeltaAppend(base, PushFromMemoryLines(index));
  }

  /** A base-address load followed by `loadToMemory` steps SP down once. */
  lemma LoadFromBase(base: seq<string>, index: int)
    requires Still(base)
    ensures Closed(base + LoadToMemoryLines(index)) && SpDelta(base + LoadToMemoryLines(index)) == -1
  {
    LoadToMemorySteps(index);
    SpDeltaAppend(base, LoadToMemoryLines(index));
  }

  /** Every block a pop writes is closed and steps SP down once; pop to
      "constant" or to an unknown segment writes nothing. */
  lemma PopSteps(fileName: string, segment: string, index: int)
    ensures Closed(PopSegmentLines(fileName, segment, index))
    ensures SpDelta(PopSegmentLines(fileName, segment, index)) == (if segment in Segments - {"constant"} then -1 else 0)
    ensures PopSegmentLines(fileName, segment, index) == [] <==> segment !in Segments - {"constant"}
  {
    SegmentOfNames(segment);
    PopStepsOf(fileName, SegmentOf(segment), index);
  }

  lemma PopStepsOf(fileName: string, s: Segment, index: int)
    ensures Closed(PopBlock(fileName, s, index))
    ensures SpDelta(PopBlock(fileName, s, index)) == (if s == Constant || s == OtherSegment then 0 else -1)
    ensures PopBlock(fileName, s, index) == [] <==> s == Constant || s == OtherSegment
  {
    StackBlocksSteps();
    match s
    case OtherSegment =>
    case Constant =>
    case Static =>
      PairStill(StaticAddress(fileName, index), "M=D");
      SpDeltaAppend(PopLines, [StaticAddress(fileName, index), "M=D"]);
    case Argument => BaseStill("ARG"); LoadFromBase(SegmentBaseLines("ARG"), index);
    case Local => BaseStill("LCL"); LoadFromBase(SegmentBaseLines("LCL"), index);
    case This => BaseStill("THIS"); LoadFromBase(SegmentBaseLines("THIS"), index);
    case That => BaseStill("THAT"); LoadFromBase(SegmentBaseLines("THAT"), index);
    case Temp => AddressStill(5); LoadFromBase(AddressLines(5), index);
    case Pointer => AddressStill(3); LoadFromBase(AddressLines(3), index);
  }

  /** The last line of a unary or binary operator block. */
  lemma TopStill(last: string)
    requires last != "@SP"
    ensures Still(TopLines(last))
  {
    StillLines(TopLines(last));
  }

  lemma EqTestStill(falseLabel: string)
    ensures Still(EqTestLines(falseLabel))
  {
    var lines := EqTestLines(falseLabel);
    assert lines[6][0] == '(';
    StillLines(lines);
  }

  lemma CompareTestStill(jump: string, trueLabel: string)
    requires jump in {"D;JGT", "D;JLT"}
    ensures Still(CompareTestLines(jump, trueLabel))
  {
    StillLines(CompareTestLines(jump, trueLabel));
  }

  lemma CompareJoinStill(trueLabel: string, falseLabel: string)
    ensures Still(CompareJoinLines(trueLabel, falseLabel))
  {
    var lines := CompareJoinLines(trueLabel, falseLabel);
    assert lines[2][0] == '(' && lines[4][0] == '(';
    StillLines(lines);
  }

  /** gt and lt pop one operand and rewrite the new top of the stack. */
  lemma CompareSteps(jump: string, n: nat)
    requires jump in {"D;JGT", "D;JLT"}
    ensures Closed(CompareLines(jump, n)) && SpDelta(CompareLines(jump, n)) == -1
  {
    StackBlocksSteps();
    var test, join := CompareTestLines(jump, TrueLabel(n)), CompareJoinLines(TrueLabel(n), FalseLabel(n));
    CompareTestStill(jump, TrueLabel(n));
    CompareJoinStill(TrueLabel(n), FalseLabel(n));
    TopStill("M=!D");
    SpDeltaAppend(PopLines, test);
    SpDeltaAppend(PopLines + test, join);
    SpDeltaAppend(PopLines + test + join, TopLines("M=!D"));
  }

  /** Every arithmetic block is closed. add, sub, and, or and the comparisons
      pop one operand (SP steps -1); so does not, which pops first and then
      writes through A=M; neg alone leaves SP as it is. */
  lemma ArithmeticSteps(op: string, n: nat)
    ensures Closed(ArithmeticLines(op, n))
    ensures SpDelta(ArithmeticLines(op, n)) == (if op in ArithmeticMnemonics - {"neg"} then -1 else 0)
  {
    OperatorOfMnemonics(op);
    OperatorSteps(OperatorOf(op), n);
  }

  lemma OperatorSteps(o: Operator, n: nat)
    ensures Closed(OperatorLines(o, n))
    ensures SpDelta(OperatorLines(o, n)) == (if o == NoOperator || o == NegOp then 0 else -1)
  {
    match o
    case NoOperator =>
    case NegOp =>
      TopStill("M=-M");
    case AddOp =>
      BinarySteps("M=M+D");
    case SubOp =>
      BinarySteps("M=M-D");
    case AndOp =>
      BinarySteps("M=M&D");
    case OrOp =>
      BinarySteps("M=M|D");
    case NotOp =>
      NotSteps();
    case EqOp =>
      EqSteps(n);
    case GtOp =>
      CompareSteps("D;JGT", n);
    case LtOp =>
      CompareSteps("D;JLT", n);
  }

  /** add, sub, and, or: pop, then rewrite the new top. */
  lemma BinarySteps(last: string)
    requires last != "@SP"
    ensures Closed(PopLines + TopLines(last)) && SpDelta(PopLines + TopLines(last)) == -1
  {
    StackBlocksSteps();
    TopStill(last);
    SpDeltaAppend(PopLines, TopLines(last));
  }

  lemma NotSteps()
    ensures Closed(PopLines + ["@SP", "A=M", "M=!D"]) && SpDelta(PopLines + ["@SP", "A=M", "M=!D"]) == -1
  {
    StackBlocksSteps();
    var write := ["@SP", "A=M", "M=!D"];
    StillLines(write);
    SpDeltaAppend(PopLines, write);
  }

  lemma EqSteps(n: nat)
    ensures Closed(OperatorLines(EqOp, n)) && SpDelta(OperatorLines(EqOp, n)) == -1
  {
    StackBlocksSteps();
    EqTestStill(FalseLabel(n));
    TopStill("M=!D");
    SpDeltaAppend(PopLines, EqTestLines(FalseLabel(n)));
    SpDeltaAppend(PopLines + EqTestLines(FalseLabel(n)), TopLines("M=!D"));
  }

  /** How one command moves the stack pointer on the Hack machine, read off
      the VM language: a push adds a word, a pop and a binary operator remove
      one, neg keeps the depth. not is counted as written (it pops its
      operand and writes the result one word below). Commands the writer
      does not know leave the stack alone. */
  function StackEffect(c: Command): int
  {
    match c
    case Push(_, segment, _) => if segment in Segments then 1 else 0
    case Pop(_, segment, _) => if segment in Segments - {"constant"} then -1 else 0
    case Neg(_) => 0
    case Add(_) => -1
    case Sub(_) => -1
    case Eq(_) => -1
    case Gt(_) => -1
    case Lt(_) => -1
    case And(_) => -1
    case Or(_) => -1
    case Not(_) => -1
    case _ => 0
  }

  /** An arithmetic command as the parser builds it: the struct its mnemonic
      names. */
  predicate AsParsed(c: Command)
  {
    Type(c) == C_ARITHMETIC ==> c == ArithmeticCommandOf(c.op)
  }

  /** The lines one `WriteAssembly` call writes for a parsed command are
      closed and step SP by the command's stack effect. */
  lemma CommandSteps(fileName: string, c: Command, n: nat)
    requires AsParsed(c)
    ensures Closed(AssemblyLines(fileName, c, n))
    ensures SpDelta(AssemblyLines(fileName, c, n)) == StackEffect(c)
  {
    match Type(c)
    case C_ARITHMETIC =>
      ArithmeticSteps(c.op, n);
      ArithmeticCommandOps(c);
    case C_PUSH =>
      PushSteps(fileName, c.segment, c.index as int);
    case C_POP =>
      PopSteps(fileName, c.segment, c.index as int);
    case _ =>
  }

  lemma ArithmeticCommandOps(c: Command)
    requires Type(c) == C_ARITHMETIC && AsParsed(c)
    ensures c.op in ArithmeticMnemonics - {"neg"} <==> StackEffect(c) == -1
    ensures c.op !in ArithmeticMnemonics - {"neg"} <==> StackEffect(c) == 0
  {
  }

  /** The net stack effect of a run of commands. */
  function RunStackEffect(cmds: seq<Command>): int
  {
    if cmds == [] then 0 else RunStackEffect(cmds[..|cmds| - 1]) + StackEffect(cmds[|cmds| - 1])
  }

  /** The lines a run writes move SP by the sum of the commands' stack
      effects: no step is split across two commands' blocks. */
  lemma {:induction false} RunSteps(fileName: string, cmds: seq<Command>, n: nat)
    requires forall i :: 0 <= i < |cmds| ==> AsParsed(cmds[i])
    ensures Closed(AssemblyRun(fileName, cmds, n))
    ensures SpDelta(AssemblyRun(fileName, cmds, n)) == RunStackEffect(cmds)
    decreases |cmds|
  {
    if cmds != [] {
      var earlier := cmds[..|cmds| - 1];
      var c := cmds[|cmds| - 1];
      var m := n + RunLabelsUsed(earlier);
      RunSteps(fileName, earlier, n);
      RunLast(fileName, cmds, n);
      CommandSteps(fileName, c, m);
      SpDeltaAppend(AssemblyRun(fileName, earlier, n), AssemblyLines(fileName, c, m));
    }
  }

  /** A static push and a static pop of the same index use the same address
      line, and different indices get different addresses. */
  lemma StaticAddresses(fileName: string, index: int, other: int)
    ensures StaticAddress(fileName, index) in PushSegmentLines(fileName, "static", index)
    ensures StaticAddress(fileName, index) in PopSegmentLines(fileName, "static", index)
    ensures index != other ==> StaticAddress(fileName, index) != StaticAddress(fileName, other)
  {
    assert PushSegmentLines(fileName, "static", index)[0] == StaticAddress(fileName, index);
    assert PopSegmentLines(fileName, "static", index)[4] == StaticAddress(fileName, index);
    if StaticAddress(fileName, index) == StaticAddress(fileName, other) {
      var k := |fileName| + 2;
      assert Itoa(index) == StaticAddress(fileName, index)[k..];
      assert Itoa(other) == StaticAddress(fileName, other)[k..];
      ItoaInjective(index, other);
    }
  }

  // ---------------------------------------------------------------------------
  // The writer

  /** Blocks written one after the other extend the output by their
      concatenation. */
  lemma Appended(out: seq<string>, first: seq<string>, second: seq<string>)
    ensures out + first + second == out + (first + second)
  {
  }

  lemma Appended3(out: seq<string>, first: seq<string>, second: seq<string>, third: seq<string>)
    ensures out + first + second + third == out + (first + second + third)
  {
  }

  lemma Appended4(out: seq<string>, first: seq<string>, second: seq<string>, third: seq<string>, fourth: seq<string>)
    ensures out + first + second + third + fourth == out + (first + second + third + fourth)
  {
  }

  /** `CodeWriter` of project 07: the file writer and the label counter. */
  class CodeWriter {
    const writer: FileWriter
    var labelNumber: nat

    /** The lines written since the file writer last started a buffer. */
    function Lines(): seq<string>
      reads writer, writer.writer
    {
      writer.writer.lines
    }

    /** `New`. */
    constructor (asmFileName: string)
      ensures fresh(writer) && fresh(writer.writer) && writer.Valid() && labelNumber == 0
      ensures writer.file == asmFileName && writer.fileName == Stem(asmFileName)
      ensures Lines() == [] && writer.files == map[asmFileName := []]
    {
      writer := new FileWriter(asmFileName);
      labelNumber := 0;
    }

    /** `SetFileName`: the writer moves to a new, empty file and buffer; the
        stem used for statics stays that of the first file. */
    method SetFileName(fileName: string)
      modifies writer
      ensures fresh(writer.writer) && writer.Valid() && writer.file == fileName && writer.fileName == old(writer.fileName)
      ensures Lines() == [] && writer.files == old(writer.files)[fileName := []]
    {
      writer.ChangeFile(fileName);
    }

    /** `Close`: the buffer reaches the current file. */
    method Close()
      requires writer.Valid()
      modifies writer, writer.writer
      ensures writer.Valid() && writer.writer == old(writer.writer) && Lines() == []
      ensures writer.file == old(writer.file) && writer.fileName == old(writer.fileName)
      ensures writer.files == old(writer.files)[writer.file := old(writer.files)[writer.file] + old(Lines())]
    {
      writer.Close();
    }

    /** `WriteAssembly`. */
    method WriteAssembly(c: Command)
      modifies this, writer.writer
      ensures Lines() == old(Lines()) + AssemblyLines(writer.fileName, c, old(labelNumber))
      ensures labelNumber == old(labelNumber) + LabelsUsed(c)
    {
      match Type(c) {
        case C_ARITHMETIC =>
          TypeSeparatesFamilies(c);
          WriteArithmetic(c);
        case C_PUSH =>
          TypeSeparatesFamilies(c);
          WritePushPop(c);
        case C_POP =>
          TypeSeparatesFamilies(c);
          WritePushPop(c);
        case _ =>
      }
    }

    /** `WriteArithmetic`: switches on ArithmeticOpLiteral(); each comparison
        takes the current label number and advances the counter by one. */
    method WriteArithmetic(c: Command)
      requires c.IsArithmetic()
      modifies this, writer.writer
      ensures Lines() == old(Lines()) + ArithmeticLines(ArithmeticOpLiteral(c), old(labelNumber))
      ensures labelNumber == old(labelNumber) + LabelsTaken(ArithmeticOpLiteral(c))
    {
      ghost var out := Lines();
      match OperatorOf(ArithmeticOpLiteral(c)) {
        case AddOp =>
          Pop();
          WriteTop("M=M+D");
          Appended(out, PopLines, TopLines("M=M+D"));
        case SubOp =>
          Pop();
          WriteTop("M=M-D");
          Appended(out, PopLines, TopLines("M=M-D"));
        case NegOp =>
          WriteTop("M=-M");
        case EqOp =>
          var falseLabel := "FALSE" + Itoa(labelNumber);
          labelNumber := labelNumber + 1;
          Pop();
          WriteEqTest(falseLabel);
          WriteTop("M=!D");
          Appended3(out, PopLines, EqTestLines(falseLabel), TopLines("M=!D"));
        case GtOp =>
          WriteComparison("D;JGT");
        case LtOp =>
          WriteComparison("D;JLT");
        case AndOp =>
          Pop();
          WriteTop("M=M&D");
          Appended(out, PopLines, TopLines("M=M&D"));
        case OrOp =>
          Pop();
          WriteTop("M=M|D");
          Appended(out, PopLines, TopLines("M=M|D"));
        case NotOp =>
          Pop();
          writer.WriteString("@SP");
          writer.WriteString("A=M");
          writer.WriteString("M=!D");
          Appended(out, PopLines, ["@SP", "A=M", "M=!D"]);
        case NoOperator =>
      }
    }

    /** The three lines that end add, sub, neg, and, or and the comparisons. */
    method WriteTop(last: string)
      modifies writer.writer
      ensures Lines() == old(Lines()) + TopLines(last)
    {
      writer.WriteString("@SP");
      writer.WriteString("A=M-1");
      writer.WriteString(last);
    }

    /** The test lines of eq. */
    method WriteEqTest(falseLabel: string)
      modifies writer.writer
      ensures Lines() == old(Lines()) + EqTestLines(falseLabel)
    {
      writer.WriteString("@SP");
      writer.WriteString("A=M-1");
      writer.WriteString("D=D-M");
      writer.WriteString("@" + falseLabel);
      writer.WriteString("D;JEQ");
      writer.WriteString("D=1");
      writer.WriteString("(" + falseLabel + ")");
    }

    /** The gt and lt cases of `WriteArithmetic`, which differ only in the
        jump they write. */
    method WriteComparison(jump: string)
      modifies this, writer.writer
      ensures Lines() == old(Lines()) + CompareLines(jump, old(labelNumber))
      ensures labelNumber == old(labelNumber) + 1
    {
      ghost var out := Lines();
      var falseLabel := "FALSE" + Itoa(labelNumber);
      var trueLabel := "TRUE" + Itoa(labelNumber);
      labelNumber := labelNumber + 1;
      Pop();
      WriteCompareTest(jump, trueLabel);
      WriteCompareJoin(trueLabel, falseLabel);
      WriteTop("M=!D");
      Appended4(out, PopLines, CompareTestLines(jump, trueLabel), CompareJoinLines(trueLabel, falseLabel), TopLines("M=!D"));
    }

    /** The test lines of gt and lt. */
    method WriteCompareTest(jump: string, trueLabel: string)
      modifies writer.writer
      ensures Lines() == old(Lines()) + CompareTestLines(jump, trueLabel)
    {
      writer.WriteString("@SP");
      writer.WriteString("A=M-1");
      writer.WriteString("D=M-D");
      writer.WriteString("@" + trueLabel);
      writer.WriteString(jump);
      writer.WriteString("D=0");
      writer.WriteString("D=!D");
    }

    /** The two branches of gt and lt meeting at the false label. */
    method WriteCompareJoin(trueLabel: string, falseLabel: string)
      modifies writer.writer
      ensures Lines() == old(Lines()) + CompareJoinLines(trueLabel, falseLabel)
    {
      writer.WriteString("@" + falseLabel);
      writer.WriteString("0;JMP");
      writer.WriteString("(" + trueLabel + ")");
      writer.WriteString("D=0");
      writer.WriteString("(" + falseLabel + ")");
    }

    /** `WritePushPop`: dispatches on Type(). */
    method WritePushPop(c: Command)
      requires c.IsMemoryAccess()
      modifies writer.writer
      ensures Lines() == old(Lines()) + PushPopLines(writer.fileName, c)
    {
      match Type(c) {
        case C_PUSH => WritePush(c);
        case C_POP => WritePop(c);
      }
    }

    /** `pop`. */
    method Pop()
      modifies writer.writer
      ensures Lines() == old(Lines()) + PopLines
    {
      writer.WriteString("@SP");
      writer.WriteString("M=M-1");
      writer.WriteString("A=M");
      writer.WriteString("D=M");
    }

    /** `push`. */
    method Push()
      modifies writer.writer
      ensures Lines() == old(Lines()) + PushLines
    {
      writer.WriteString("@SP");
      writer.WriteString("A=M");
      writer.WriteString("M=D");
      writer.WriteString("@SP");
      writer.WriteString("M=M+1");
    }

    /** `writePush`. */
    method WritePush(c: Command)
      requires c.Push?
      modifies writer.writer
      ensures Lines() == old(Lines()) + PushSegmentLines(writer.fileName, c.segment, c.index as int)
    {
      var index := c.index as int;
      ghost var out := Lines();
      match SegmentOf(c.segment) {
        case Constant =>
          writer.WriteString("@" + Itoa(index));
          writer.WriteString("D=A");
          Push();
          Appended(out, ["@" + Itoa(index), "D=A"], PushLines);
        case Argument =>
          GetSegmentDataFromMemory("ARG");
          PushFromMemory(index);
          Appended(out, SegmentBaseLines("ARG"), PushFromMemoryLines(index));
        case Local =>
          GetSegmentDataFromMemory("LCL");
          PushFromMemory(index);
          Appended(out, SegmentBaseLines("LCL"), PushFromMemoryLines(index));
        case This =>
          GetSegmentDataFromMemory("THIS");
          PushFromMemory(index);
          Appended(out, SegmentBaseLines("THIS"), PushFromMemoryLines(index));
        case That =>
          GetSegmentDataFromMemory("THAT");
          PushFromMemory(index);
          Appended(out, SegmentBaseLines("THAT"), PushFromMemoryLines(index));
        case Temp =>
          GetDataByMemoryAddress(5);
          PushFromMemory(index);
          Appended(out, AddressLines(5), PushFromMemoryLines(index));
        case Pointer =>
          GetDataByMemoryAddress(3);
          PushFromMemory(index);
          Appended(out, AddressLines(3), PushFromMemoryLines(index));
        case Static =>
          writer.WriteString("@" + writer.fileName + "." + Itoa(index));
          writer.WriteString("M=D");
          Push();
          Appended(out, [StaticAddress(writer.fileName, index), "M=D"], PushLines);
        case OtherSegment =>
      }
    }

    /** `getSegmentDataFromMemory`. */
    method GetSegmentDataFromMemory(segment: string)
      modifies writer.writer
      ensures Lines() == old(Lines()) + SegmentBaseLines(segment)
    {
      writer.WriteString("@" + segment);
      writer.WriteString("D=M");
    }

    /** `getDataByMemoryAddress`. */
    method GetDataByMemoryAddress(memoryAddr: int)
      modifies writer.writer
      ensures Lines() == old(Lines()) + AddressLines(memoryAddr)
    {
      writer.WriteString("@" + Itoa(memoryAddr));
      writer.WriteString("D=A");
    }

    /** `pushFromMemory`. */
    method PushFromMemory(index: int)
      modifies writer.writer
      ensures Lines() == old(Lines()) + PushFromMemoryLines(index)
    {
      ghost var out := Lines();
      writer.WriteString("@" + Itoa(index));
      writer.WriteString("A=D+A");
      writer.WriteString("D=M");
      Push();
      Appended(out, ["@" + Itoa(index), "A=D+A", "D=M"], PushLines);
    }

    /** `writePop`. */
    method WritePop(c: Command)
      requires c.Pop?
      modifies writer.writer
      ensures Lines() == old(Lines()) + PopSegmentLines(writer.fileName, c.segment, c.index as int)
    {
      var index := c.index as int;
      ghost var out := Lines();
      match SegmentOf(c.segment) {
        case Argument =>
          GetSegmentDataFromMemory("ARG");
          LoadToMemory(index);
          Appended(out, SegmentBaseLines("ARG"), LoadToMemoryLines(index));
        case Local =>
          GetSegmentDataFromMemory("LCL");
          LoadToMemory(index);
          Appended(out, SegmentBaseLines("LCL"), LoadToMemoryLines(index));
        case This =>
          GetSegmentDataFromMemory("THIS");
          LoadToMemory(index);
          Appended(out, SegmentBaseLines("THIS"), LoadToMemoryLines(index));
        case That =>
          GetSegmentDataFromMemory("THAT");
          LoadToMemory(index);
          Appended(out, SegmentBaseLines("THAT"), LoadToMemoryLines(index));
        case Temp =>
          GetDataByMemoryAddress(5);
          LoadToMemory(index);
          Appended(out, AddressLines(5), LoadToMemoryLines(index));
        case Pointer =>
          GetDataByMemoryAddress(3);
          LoadToMemory(index);
          Appended(out, AddressLines(3), LoadToMemoryLines(index));
        case Static =>
          Pop();
          writer.WriteString("@" + writer.fileName + "." + Itoa(index));
          writer.WriteString("M=D");
          Appended(out, PopLines, [StaticAddress(writer.fileName, index), "M=D"]);
        case _ =>
      }
    }

    /** `loadToMemory`. */
    method LoadToMemory(index: int)
      modifies writer.writer
      ensures Lines() == old(Lines()) + LoadToMemoryLines(index)
    {
      ghost var out := Lines();
      Park(index);
      StoreThroughParked();
      Appended(out, ParkLines(index), StoreLines);
    }

    /** The last seven lines of `loadToMemory`. */
    method StoreThroughParked()
      modifies writer.writer
      ensures Lines() == old(Lines()) + StoreLines
    {
      writer.WriteString("@SP");
      writer.WriteString("M=M-1");
      writer.WriteString("A=M");
      writer.WriteString("D=M");
      writer.WriteString("@13");
      writer.WriteString("A=M");
      writer.WriteString("M=D");
    }

    /** The first six lines of `loadToMemory`. */
    method Park(index: int)
      modifies writer.writer
      ensures Lines() == old(Lines()) + ParkLines(index)
    {
      writer.WriteString("@13");
      writer.WriteString("M=D");
      writer.WriteString("@" + Itoa(index));
      writer.WriteString("D=A");
      writer.WriteString("@13");
      writer.WriteString("M=M+D");
    }
  }
}
