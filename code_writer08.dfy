/** The code writer of project 08: the code writer of project 07 (whose
    arithmetic and push/pop methods it repeats) plus labels, branching,
    function definitions, calls and returns. Each written string is one line
    of the output (the "\n" that ends it is left implicit). */
module CodeWriter08 {
  import opened GoStrings
  import opened Commands
  import opened FileWriting
  import opened CodeWriter07

  // ---------------------------------------------------------------------------
  // Labels and branching

  /** `nameLabel`: a VM label is scoped by the function being written, with
      no check that either part is free of '$'. */
  function NameLabel(currentFunc: string, name: string): string
  {
    currentFunc + "$" + name
  }

  /** `WriteLabel`. */
  function LabelLines(currentFunc: string, name: string): seq<string>
  {
    ["(" + NameLabel(currentFunc, name) + ")"]
  }

  /** `WriteGo`. */
  function GotoLines(currentFunc: string, name: string): seq<string>
  {
    ["@" + NameLabel(currentFunc, name), "0;JMP"]
  }

  /** `WriteIf`: pop the condition into D and jump when it is not zero. */
  function IfLines(currentFunc: string, name: string): seq<string>
  {
    PopLines + ["@" + NameLabel(currentFunc, name), "D;JNE"]
  }

  /** The position of the first '$' in a text (its length when it has none). */
  function FirstDollar(s: string): (r: nat)
    ensures r <= |s|
  {
    if |s| == 0 || s[0] == '$' then 0 else 1 + FirstDollar(s[1..])
  }

  /** In a scoped label the first '$' is the one after the function name. */
  lemma {:induction false} FirstDollarOfLabel(f: string, name: string)
    requires '$' !in f
    ensures FirstDollar(NameLabel(f, name)) == |f|
    decreases |f|
  {
    if |f| > 0 {
      assert NameLabel(f, name)[1..] == NameLabel(f[1..], name);
      FirstDollarOfLabel(f[1..], name);
    }
  }

  /** Labels of one function with names free of '$' are told apart by name,
      and labels of two such functions by function: the '$' is the first one
      in the text. */
  lemma ScopedLabels(f: string, g: string, name: string, other: string)
    requires '$' !in f && '$' !in g
    ensures NameLabel(f, name) == NameLabel(g, other) <==> f == g && name == other
  {
    if NameLabel(f, name) == NameLabel(g, other) {
      var s := NameLabel(f, name);
      FirstDollarOfLabel(f, name);
      FirstDollarOfLabel(g, other);
      assert f == s[..|f|] && g == s[..|g|];
      assert name == s[|f| + 1..] && other == s[|g| + 1..];
    }
  }

  /** The label `WriteLabel` defines is the one `WriteGo` and `WriteIf` jump
      to from inside the same function, and goto and if-goto define none. */
  lemma BranchTargets(currentFunc: string, name: string)
    ensures DefinedLabels(LabelLines(currentFunc, name)) == [NameLabel(currentFunc, name)]
    ensures GotoLines(currentFunc, name)[0] == "@" + NameLabel(currentFunc, name)
    ensures IfLines(currentFunc, name)[4] == "@" + NameLabel(currentFunc, name)
    ensures DefinedLabels(GotoLines(currentFunc, name)) == [] && DefinedLabels(IfLines(currentFunc, name)) == []
  {
    DefinitionLine(NameLabel(currentFunc, name));
    assert Plain(GotoLines(currentFunc, name));
    PlainDefinesNothing(GotoLines(currentFunc, name));
    assert Plain(IfLines(currentFunc, name));
    PlainDefinesNothing(IfLines(currentFunc, name));
  }

  // ---------------------------------------------------------------------------
  // Calls

  /** The return label of the `callNumber`-th call written inside
      `currentFunc`: no separator between the two parts. */
  function ReturnLabel(currentFunc: string, callNumber: nat): string
  {
    "return" + currentFunc + Itoa(callNumber)
  }

  /** Push the return address. */
  function ReturnAddressLines(returnLabel: string): seq<string>
  {
    ["@" + returnLabel, "D=A"] + PushLines
  }

  /** Push the value of a pointer register. */
  function SaveLines(register: string): seq<string>
  {
    SegmentBaseLines(register) + PushLines
  }

  /** The caller's frame: LCL, ARG, THIS and THAT, in that order. */
  const FrameLines: seq<string> := SaveLines("LCL") + SaveLines("ARG") + SaveLines("THIS") + SaveLines("THAT")

  /** ARG := SP. */
  const ArgBaseLines: seq<string> := ["@SP", "D=M", "@ARG", "M=D"]

  /** ARG := ARG - offset. */
  function ArgOffsetLines(offset: int): seq<string>
  {
    ["@" + Itoa(offset), "D=A", "@ARG", "M=M-D"]
  }

  /** LCL := SP. */
  const LocalBaseLines: seq<string> := ["@SP", "D=M", "@LCL", "M=D"]

  /** The caller's frame is saved: ARG := SP - numArgs - 5 and LCL := SP. */
  function RepositionLines(numArgs: int): seq<string>
  {
    ArgBaseLines + ArgOffsetLines(numArgs) + ArgOffsetLines(5) + LocalBaseLines
  }

  /** Jump to the callee and define the return label after the jump. */
  function JumpLines(functionName: string, returnLabel: string): seq<string>
  {
    ["@" + functionName, "0;JMP", "(" + returnLabel + ")"]
  }

  /** `WriteCall`. */
  function CallLines(currentFunc: string, callNumber: nat, functionName: string, numArgs: int): seq<string>
  {
    var returnLabel := ReturnLabel(currentFunc, callNumber);
    ReturnAddressLines(returnLabel) + FrameLines + RepositionLines(numArgs) + JumpLines(functionName, returnLabel)
  }

  /** Within one function, calls with different numbers get different return
      labels. */
  lemma ReturnLabelsDistinct(currentFunc: string, i: nat, j: nat)
    ensures ReturnLabel(currentFunc, i) == ReturnLabel(currentFunc, j) <==> i == j
  {
    if ReturnLabel(currentFunc, i) == ReturnLabel(currentFunc, j) {
      var k := 6 + |currentFunc|;
      assert Itoa(i) == ReturnLabel(currentFunc, i)[k..];
      assert Itoa(j) == ReturnLabel(currentFunc, j)[k..];
      ItoaInjective(i, j);
    }
  }

  /** Across functions return labels can coincide: the first call written
      in "f1" and the eleventh written in "f" both return to "returnf10". */
  lemma ReturnLabelCollision()
    ensures ReturnLabel("f1", 0) == ReturnLabel("f", 10)
  {
    assert Itoa(0) == "0" by {
      assert NatToString(0) == "0";
    }
    assert Itoa(10) == "10" by {
      assert NatToString(1) == "1";
      assert NatToString(10) == NatToString(1) + "0";
    }
  }

  /** The labels of a call: it defines exactly its return label, as the last
      line, after the jump to the callee, and its first line loads that same
      label's address. */
  lemma CallDefinesItsReturn(currentFunc: string, callNumber: nat, functionName: string, numArgs: int)
    ensures var lines := CallLines(currentFunc, callNumber, functionName, numArgs);
      lines[0] == "@" + ReturnLabel(currentFunc, callNumber) &&
      lines[|lines| - 1] == "(" + ReturnLabel(currentFunc, callNumber) + ")" &&
      lines[|lines| - 3] == "@" + functionName && lines[|lines| - 2] == "0;JMP"
    ensures DefinedLabels(CallLines(currentFunc, callNumber, functionName, numArgs)) == [ReturnLabel(currentFunc, callNumber)]
  {
    var returnLabel := ReturnLabel(currentFunc, callNumber);
    var head := ReturnAddressLines(returnLabel) + FrameLines + RepositionLines(numArgs);
    var jump := ["@" + functionName, "0;JMP"];
    var definition := ["(" + returnLabel + ")"];
    assert JumpLines(functionName, returnLabel) == jump + definition;
    Appended(head, jump, definition);
    CallHeadPlain(returnLabel, numArgs);
    assert Plain(jump);
    PlainAppend(head, jump);
    PlainDefinesNothing(head + jump);
    DefinitionLine(returnLabel);
    DefinedLabelsAppend(head + jump, definition);
  }

  /** Everything a call writes before the jump defines no label. */
  lemma CallHeadPlain(returnLabel: string, numArgs: int)
    ensures Plain(ReturnAddressLines(returnLabel) + FrameLines + RepositionLines(numArgs))
  {
    FramePlain();
    assert Plain(ReturnAddressLines(returnLabel));
    assert Plain(ArgBaseLines) && Plain(ArgOffsetLines(numArgs)) && Plain(ArgOffsetLines(5)) && Plain(LocalBaseLines);
    PlainAppend(ArgBaseLines, ArgOffsetLines(numArgs));
    PlainAppend(ArgBaseLines + ArgOffsetLines(numArgs), ArgOffsetLines(5));
    PlainAppend(ArgBaseLines + ArgOffsetLines(numArgs) + ArgOffsetLines(5), LocalBaseLines);
    PlainAppend(ReturnAddressLines(returnLabel), FrameLines);
    PlainAppend(ReturnAddressLines(returnLabel) + FrameLines, RepositionLines(numArgs));
  }

  lemma FramePlain()
    ensures Plain(FrameLines)
  {
    assert Plain(SaveLines("LCL")) && Plain(SaveLines("ARG")) && Plain(SaveLines("THIS")) && Plain(SaveLines("THAT"));
    PlainAppend(SaveLines("LCL"), SaveLines("ARG"));
    PlainAppend(SaveLines("LCL") + SaveLines("ARG"), SaveLines("THIS"));
    PlainAppend(SaveLines("LCL") + SaveLines("ARG") + SaveLines("THIS"), SaveLines("THAT"));
  }

  /** A call writes five pushes and no other SP step: the return address,
      then the four registers of the frame. */
  lemma CallSteps(currentFunc: string, callNumber: nat, functionName: string, numArgs: int)
    ensures Closed(CallLines(currentFunc, callNumber, functionName, numArgs))
    ensures SpDelta(CallLines(currentFunc, callNumber, functionName, numArgs)) == 5
  {
    var returnLabel := ReturnLabel(currentFunc, callNumber);
    StackBlocksSteps();
    PairStill("@" + returnLabel, "D=A");
    SpDeltaAppend(["@" + returnLabel, "D=A"], PushLines);
    FrameSteps();
    RepositionStill(numArgs);
    var jump := JumpLines(functionName, returnLabel);
    assert jump[2][0] == '(';
    StillLines(jump);
    SpDeltaOfFour(ReturnAddressLines(returnLabel), FrameLines, RepositionLines(numArgs), jump);
  }

  lemma FrameSteps()
    ensures Closed(FrameLines) && SpDelta(FrameLines) == 4
  {
    SaveSteps("LCL");
    SaveSteps("ARG");
    SaveSteps("THIS");
    SaveSteps("THAT");
    SpDeltaOfFour(SaveLines("LCL"), SaveLines("ARG"), SaveLines("THIS"), SaveLines("THAT"));
  }

  lemma SaveSteps(register: string)
    ensures Closed(SaveLines(register)) && SpDelta(SaveLines(register)) == 1
  {
    StackBlocksSteps();
    PairStill("@" + register, "D=M");
    SpDeltaAppend(SegmentBaseLines(register), PushLines);
  }

  /** Moving ARG and LCL does not step SP. */
  lemma RepositionStill(numArgs: int)
    ensures Still(RepositionLines(numArgs))
  {
    StillLines(ArgBaseLines);
    StillLines(ArgOffsetLines(numArgs));
    StillLines(ArgOffsetLines(5));
    StillLines(LocalBaseLines);
    SpDeltaOfFour(ArgBaseLines, ArgOffsetLines(numArgs), ArgOffsetLines(5), LocalBaseLines);
  }

  // ---------------------------------------------------------------------------
  // Reading the lines back: which registers a block addresses

  /** An `@X` line followed by the line `next`. */
  predicate Hit(first: string, second: string, next: string)
  {
    first != [] && first[0] == '@' && second == next
  }

  /** The registers X named by an `@X` line that the line `next` follows, in
      order: with `next` = "M=D" the registers the block assigns from D, with
      `next` = "D=M" the registers it reads into D. */
  function Targets(lines: seq<string>, next: string): seq<string>
    decreases |lines|
  {
    if |lines| < 2 then []
    else (if Hit(lines[0], lines[1], next) then [lines[0][1..]] else []) + Targets(lines[1..], next)
  }

  lemma {:induction false} TargetsAppend(a: seq<string>, b: seq<string>, next: string)
    requires a == [] || b == [] || !Hit(a[|a| - 1], b[0], next)
    ensures Targets(a + b, next) == Targets(a, next) + Targets(b, next)
    decreases |a|
  {
    if |a| == 0 {
      assert a + b == b;
    } else if |a| == 1 {
      TargetsAppendLast(a, b, next);
    } else {
      assert a[1..][|a| - 2] == a[|a| - 1];
      TargetsAppend(a[1..], b, next);
      TargetsAppendStep(a, b, next);
    }
  }

  /** The last line of `a` forms no pair with the first line of `b`. */
  lemma TargetsAppendLast(a: seq<string>, b: seq<string>, next: string)
    requires |a| == 1 && (b == [] || !Hit(a[0], b[0], next))
    ensures Targets(a + b, next) == Targets(a, next) + Targets(b, next)
  {
    if |b| > 0 {
      var ab := a + b;
      assert ab[0] == a[0] && ab[1] == b[0] && ab[1..] == b;
    }
  }

  /** One step of `TargetsAppend`: the first line of `a` is read the same
      way before `b` as on its own. */
  lemma TargetsAppendStep(a: seq<string>, b: seq<string>, next: string)
    requires |a| >= 2
    requires Targets(a[1..] + b, next) == Targets(a[1..], next) + Targets(b, next)
    ensures Targets(a + b, next) == Targets(a, next) + Targets(b, next)
  {
    AppendTail(a, b);
  }

  lemma PairTargets(first: string, second: string, next: string)
    ensures Targets([first, second], next) == if Hit(first, second, next) then [first[1..]] else []
  {
    var lines := [first, second];
    assert lines[1..] == [second];
  }

  /** The last line of a block is not an `@` line, so no pair is formed
      across the end of the block. */
  predicate EndsPlain(lines: seq<string>)
  {
    |lines| > 0 && (lines[|lines| - 1] == "" || lines[|lines| - 1][0] != '@')
  }

  lemma EndsPlainAppend(a: seq<string>, b: seq<string>)
    requires EndsPlain(b)
    ensures EndsPlain(a + b)
  {
    assert (a + b)[|a + b| - 1] == b[|b| - 1];
  }

  /** Blocks after one that ends plain are read one after the other. */
  lemma TargetsAppendPlain(a: seq<string>, b: seq<string>, next: string)
    requires EndsPlain(a)
    ensures Targets(a + b, next) == Targets(a, next) + Targets(b, next)
    ensures EndsPlain(b) ==> EndsPlain(a + b)
  {
    TargetsAppend(a, b, next);
    if EndsPlain(b) {
      EndsPlainAppend(a, b);
    }
  }

  /** push and pop neither assign from D nor read into D through an `@` line. */
  lemma StackTargets()
    ensures Targets(PushLines, "M=D") == [] && Targets(PushLines, "D=M") == []
    ensures Targets(PopLines, "M=D") == [] && Targets(PopLines, "D=M") == []
  {
    assert PushLines[1..][1..][1..] == ["@SP", "M=M+1"];
    assert PopLines[1..][1..] == ["A=M", "D=M"];
  }

  /** Pushing a register reads it into D and assigns nothing from D. */
  lemma SaveTargets(register: string)
    ensures Targets(SaveLines(register), "D=M") == [register]
    ensures Targets(SaveLines(register), "M=D") == []
  {
    assert ("@" + register)[1..] == register;
    PairTargets("@" + register, "D=M", "D=M");
    PairTargets("@" + register, "D=M", "M=D");
    StackTargets();
    TargetsAppend(SegmentBaseLines(register), PushLines, "D=M");
    TargetsAppend(SegmentBaseLines(register), PushLines, "M=D");
  }

  /** The caller's frame is read in the order LCL, ARG, THIS, THAT. */
  lemma FrameTargets()
    ensures Targets(FrameLines, "D=M") == ["LCL", "ARG", "THIS", "THAT"]
    ensures Targets(FrameLines, "M=D") == []
  {
    FrameReads();
    FrameAssigns();
  }

  lemma FrameReads()
    ensures Targets(FrameLines, "D=M") == ["LCL", "ARG", "THIS", "THAT"]
  {
    SaveTargets("LCL");
    SaveTargets("ARG");
    SaveTargets("THIS");
    SaveTargets("THAT");
    SaveEndsPlain();
    TargetsOfFour(SaveLines("LCL"), SaveLines("ARG"), SaveLines("THIS"), SaveLines("THAT"), "D=M",
      ["LCL"], ["ARG"], ["THIS"], ["THAT"]);
  }

  lemma FrameAssigns()
    ensures Targets(FrameLines, "M=D") == []
  {
    SaveTargets("LCL");
    SaveTargets("ARG");
    SaveTargets("THIS");
    SaveTargets("THAT");
    SaveEndsPlain();
    TargetsOfFour(SaveLines("LCL"), SaveLines("ARG"), SaveLines("THIS"), SaveLines("THAT"), "M=D",
      [], [], [], []);
  }

  lemma SaveEndsPlain()
    ensures forall register :: EndsPlain(SaveLines(register))
    ensures EndsPlain(FrameLines)
  {
    forall register {
      EndsPlainAppend(SegmentBaseLines(register), PushLines);
    }
    EndsPlainAppend(SaveLines("LCL") + SaveLines("ARG") + SaveLines("THIS"), SaveLines("THAT"));
  }

  /** Pushing the return address reads and assigns nothing through D. */
  lemma ReturnAddressTargets(returnLabel: string)
    ensures Targets(ReturnAddressLines(returnLabel), "D=M") == []
    ensures Targets(ReturnAddressLines(returnLabel), "M=D") == []
  {
    PairTargets("@" + returnLabel, "D=A", "D=M");
    PairTargets("@" + returnLabel, "D=A", "M=D");
    StackTargets();
    TargetsAppend(["@" + returnLabel, "D=A"], PushLines, "D=M");
    TargetsAppend(["@" + returnLabel, "D=A"], PushLines, "M=D");
  }

  /** An ARG adjustment neither assigns from D nor reads into D. */
  lemma OffsetTargets(offset: int)
    ensures Targets(ArgOffsetLines(offset), "M=D") == [] && Targets(ArgOffsetLines(offset), "D=M") == []
  {
    var load, store := ["@" + Itoa(offset), "D=A"], ["@ARG", "M=M-D"];
    assert ArgOffsetLines(offset) == load + store;
    PairTargets(load[0], load[1], "M=D");
    PairTargets(load[0], load[1], "D=M");
    PairTargets(store[0], store[1], "M=D");
    PairTargets(store[0], store[1], "D=M");
    TargetsAppend(load, store, "M=D");
    TargetsAppend(load, store, "D=M");
  }

  /** After the pushes a call reads SP and assigns it to ARG, then reads SP
      again and assigns it to LCL. */
  lemma RepositionTargets(numArgs: int)
    ensures Targets(RepositionLines(numArgs), "M=D") == ["ARG", "LCL"]
    ensures Targets(RepositionLines(numArgs), "D=M") == ["SP", "SP"]
  {
    assert Targets(ArgBaseLines, "M=D") == ["ARG"] && Targets(ArgBaseLines, "D=M") == ["SP"] by {
      assert ArgBaseLines[1..][1..] == ["@ARG", "M=D"];
    }
    assert Targets(LocalBaseLines, "M=D") == ["LCL"] && Targets(LocalBaseLines, "D=M") == ["SP"] by {
      assert LocalBaseLines[1..][1..] == ["@LCL", "M=D"];
    }
    OffsetTargets(numArgs);
    OffsetTargets(5);
    RepositionTargetsOf(numArgs, "M=D");
    RepositionTargetsOf(numArgs, "D=M");
  }

  /** The ARG adjustments add nothing between the two base assignments. */
  lemma RepositionTargetsOf(numArgs: int, next: string)
    requires Targets(ArgOffsetLines(numArgs), next) == [] && Targets(ArgOffsetLines(5), next) == []
    ensures Targets(RepositionLines(numArgs), next) == Targets(ArgBaseLines, next) + Targets(LocalBaseLines, next)
  {
    TargetsOfFour(ArgBaseLines, ArgOffsetLines(numArgs), ArgOffsetLines(5), LocalBaseLines, next,
      Targets(ArgBaseLines, next), [], [], Targets(LocalBaseLines, next));
  }

  lemma JumpTargets(functionName: string, returnLabel: string)
    ensures Targets(JumpLines(functionName, returnLabel), "M=D") == []
    ensures Targets(JumpLines(functionName, returnLabel), "D=M") == []
  {
    var jump, definition := ["@" + functionName, "0;JMP"], ["(" + returnLabel + ")"];
    assert JumpLines(functionName, returnLabel) == jump + definition;
    PairTargets(jump[0], jump[1], "M=D");
    PairTargets(jump[0], jump[1], "D=M");
    TargetsAppend(jump, definition, "M=D");
    TargetsAppend(jump, definition, "D=M");
  }

  /** What a call reads into D and assigns from D: it reads the frame
      registers in the order LCL, ARG, THIS, THAT, then SP twice, and it
      assigns ARG, then LCL. */
  lemma CallTargets(currentFunc: string, callNumber: nat, functionName: string, numArgs: int)
    ensures Targets(CallLines(currentFunc, callNumber, functionName, numArgs), "D=M") == ["LCL", "ARG", "THIS", "THAT", "SP", "SP"]
    ensures Targets(CallLines(currentFunc, callNumber, functionName, numArgs), "M=D") == ["ARG", "LCL"]
  {
    var returnLabel := ReturnLabel(currentFunc, callNumber);
    CallReads(returnLabel, functionName, numArgs);
    CallAssigns(returnLabel, functionName, numArgs);
  }

  lemma CallReads(returnLabel: string, functionName: string, numArgs: int)
    ensures Targets(ReturnAddressLines(returnLabel) + FrameLines + RepositionLines(numArgs) + JumpLines(functionName, returnLabel), "D=M")
      == ["LCL", "ARG", "THIS", "THAT", "SP", "SP"]
  {
    ReturnAddressTargets(returnLabel);
    FrameTargets();
    RepositionTargets(numArgs);
    JumpTargets(functionName, returnLabel);
    CallEndsPlain(returnLabel, numArgs);
    TargetsOfFour(ReturnAddressLines(returnLabel), FrameLines, RepositionLines(numArgs), JumpLines(functionName, returnLabel), "D=M",
      [], ["LCL", "ARG", "THIS", "THAT"], ["SP", "SP"], []);
  }

  lemma CallAssigns(returnLabel: string, functionName: string, numArgs: int)
    ensures Targets(ReturnAddressLines(returnLabel) + FrameLines + RepositionLines(numArgs) + JumpLines(functionName, returnLabel), "M=D")
      == ["ARG", "LCL"]
  {
    ReturnAddressTargets(returnLabel);
    FrameTargets();
    RepositionTargets(numArgs);
    JumpTargets(functionName, returnLabel);
    CallEndsPlain(returnLabel, numArgs);
    TargetsOfFour(ReturnAddressLines(returnLabel), FrameLines, RepositionLines(numArgs), JumpLines(functionName, returnLabel), "M=D",
      [], [], ["ARG", "LCL"], []);
  }

  lemma CallEndsPlain(returnLabel: string, numArgs: int)
    ensures EndsPlain(ReturnAddressLines(returnLabel)) && EndsPlain(FrameLines) && EndsPlain(RepositionLines(numArgs))
  {
    EndsPlainAppend(["@" + returnLabel, "D=A"], PushLines);
    SaveEndsPlain();
    EndsPlainAppend(ArgBaseLines + ArgOffsetLines(numArgs) + ArgOffsetLines(5), LocalBaseLines);
  }

  // ---------------------------------------------------------------------------
  // Returns

  /** R13 := LCL (the frame), R14 := LCL. */
  const FrameSaveLines: seq<string> := ["@LCL", "D=M", "@R13", "M=D", "@R14", "M=D"]

  /** R14 := RAM[R14 - 5], the return address. */
  const ReturnAddressLoadLines: seq<string> := ["@5", "D=A", "@R14", "M=M-D", "A=M", "D=M", "@R14", "M=D"]

  /** RAM[ARG] := the popped return value; SP := ARG + 1. */
  const ReturnValueLines: seq<string> := ["@ARG", "A=M", "M=D", "@ARG", "D=M", "@SP", "M=D+1"]

  /** R13 := R13 - 1, D := RAM[R13]. */
  const StepBackLines: seq<string> := ["@R13", "M=M-1", "A=M", "D=M"]

  /** R13 := R13 - 1 and the register := RAM[R13]. */
  function RestoreLines(register: string): seq<string>
  {
    StepBackLines + ["@" + register, "M=D"]
  }

  /** Jump to the address kept in R14. */
  const ReturnJumpLines: seq<string> := ["@R14", "A=M", "0;JMP"]

  /** The restores, THAT first and LCL last. */
  const RestoreAllLines: seq<string> := RestoreLines("THAT") + RestoreLines("THIS") + RestoreLines("ARG") + RestoreLines("LCL")

  /** `WriteReturn`: the same lines wherever it is written. */
  const ReturnLines: seq<string> :=
    FrameSaveLines + ReturnAddressLoadLines + PopLines + ReturnValueLines + RestoreAllLines + ReturnJumpLines

  lemma RestoreTargets(register: string)
    ensures Targets(RestoreLines(register), "M=D") == [register]
    ensures Targets(RestoreLines(register), "D=M") == []
  {
    assert ("@" + register)[1..] == register;
    assert Targets(StepBackLines, "M=D") == [] && Targets(StepBackLines, "D=M") == [] by {
      assert StepBackLines[1..][1..] == ["A=M", "D=M"];
    }
    PairTargets("@" + register, "M=D", "M=D");
    PairTargets("@" + register, "M=D", "D=M");
    TargetsAppend(StepBackLines, ["@" + register, "M=D"], "M=D");
    TargetsAppend(StepBackLines, ["@" + register, "M=D"], "D=M");
  }

  /** The four restores assign THAT, THIS, ARG and LCL, in that order. */
  lemma RestoreAllTargets()
    ensures Targets(RestoreAllLines, "M=D") == ["THAT", "THIS", "ARG", "LCL"]
    ensures Targets(RestoreAllLines, "D=M") == []
  {
    RestoreAssigns();
    RestoreReads();
  }

  lemma RestoreAssigns()
    ensures Targets(RestoreAllLines, "M=D") == ["THAT", "THIS", "ARG", "LCL"]
  {
    RestoreTargets("THAT");
    RestoreTargets("THIS");
    RestoreTargets("ARG");
    RestoreTargets("LCL");
    RestoreEndsPlain();
    TargetsOfFour(RestoreLines("THAT"), RestoreLines("THIS"), RestoreLines("ARG"), RestoreLines("LCL"), "M=D",
      ["THAT"], ["THIS"], ["ARG"], ["LCL"]);
  }

  lemma RestoreReads()
    ensures Targets(RestoreAllLines, "D=M") == []
  {
    RestoreTargets("THAT");
    RestoreTargets("THIS");
    RestoreTargets("ARG");
    RestoreTargets("LCL");
    RestoreEndsPlain();
    TargetsOfFour(RestoreLines("THAT"), RestoreLines("THIS"), RestoreLines("ARG"), RestoreLines("LCL"), "D=M",
      [], [], [], []);
  }

  lemma RestoreEndsPlain()
    ensures forall register :: EndsPlain(RestoreLines(register))
  {
    forall register {
      EndsPlainAppend(StepBackLines, ["@" + register, "M=D"]);
    }
  }

  lemma FrameSaveTargets()
    ensures Targets(FrameSaveLines, "M=D") == ["R13", "R14"] && Targets(FrameSaveLines, "D=M") == ["LCL"]
  {
    assert FrameSaveLines[1..][1..][1..][1..] == ["@R14", "M=D"];
  }

  lemma ReturnAddressLoadTargets()
    ensures Targets(ReturnAddressLoadLines, "M=D") == ["R14"] && Targets(ReturnAddressLoadLines, "D=M") == []
  {
    assert ReturnAddressLoadLines[1..][1..][1..][1..][1..][1..] == ["@R14", "M=D"];
  }

  lemma ReturnValueTargets()
    ensures Targets(ReturnValueLines, "M=D") == [] && Targets(ReturnValueLines, "D=M") == ["ARG"]
  {
    assert ReturnValueLines[1..][1..][1..][1..][1..] == ["@SP", "M=D+1"];
  }

  /** The frame and the return address are saved before the return value is
      popped. */
  lemma ReturnPrefixTargets()
    ensures Targets(FrameSaveLines + ReturnAddressLoadLines + PopLines + ReturnValueLines, "M=D") == ["R13", "R14", "R14"]
    ensures Targets(FrameSaveLines + ReturnAddressLoadLines + PopLines + ReturnValueLines, "D=M") == ["LCL", "ARG"]
  {
    ReturnPrefixAssigns();
    ReturnPrefixReads();
  }

  lemma ReturnPrefixAssigns()
    ensures Targets(FrameSaveLines + ReturnAddressLoadLines + PopLines + ReturnValueLines, "M=D") == ["R13", "R14", "R14"]
  {
    FrameSaveTargets();
    ReturnAddressLoadTargets();
    StackTargets();
    ReturnValueTargets();
    ReturnPartsEndPlain();
    TargetsOfFour(FrameSaveLines, ReturnAddressLoadLines, PopLines, ReturnValueLines, "M=D",
      ["R13", "R14"], ["R14"], [], []);
  }

  lemma ReturnPrefixReads()
    ensures Targets(FrameSaveLines + ReturnAddressLoadLines + PopLines + ReturnValueLines, "D=M") == ["LCL", "ARG"]
  {
    FrameSaveTargets();
    ReturnAddressLoadTargets();
    StackTargets();
    ReturnValueTargets();
    ReturnPartsEndPlain();
    TargetsOfFour(FrameSaveLines, ReturnAddressLoadLines, PopLines, ReturnValueLines, "D=M",
      ["LCL"], [], [], ["ARG"]);
  }

  lemma ReturnPartsEndPlain()
    ensures EndsPlain(FrameSaveLines) && EndsPlain(ReturnAddressLoadLines) && EndsPlain(PopLines)
  {
  }

  /** Four blocks, the first three ending plain, are read one after the
      other. */
  lemma TargetsOfFour(a: seq<string>, b: seq<string>, c: seq<string>, d: seq<string>, next: string,
                      ta: seq<string>, tb: seq<string>, tc: seq<string>, td: seq<string>)
    requires EndsPlain(a) && EndsPlain(b) && EndsPlain(c)
    requires Targets(a, next) == ta && Targets(b, next) == tb && Targets(c, next) == tc && Targets(d, next) == td
    ensures Targets(a + b + c + d, next) == ta + tb + tc + td
  {
    TargetsAppendPlain(a, b, next);
    TargetsAppendPlain(a + b, c, next);
    TargetsAppendPlain(a + b + c, d, next);
  }

  /** What a return assigns from D, in order: R13 and R14 get the frame, R14
      then the return address (both before the return value is popped), and
      THAT, THIS, ARG, LCL are restored in that order. Through an `@` line it
      reads only LCL and ARG into D, and it defines no label. */
  lemma ReturnTargets()
    ensures Targets(ReturnLines, "M=D") == ["R13", "R14", "R14", "THAT", "THIS", "ARG", "LCL"]
    ensures Targets(ReturnLines, "D=M") == ["LCL", "ARG"]
    ensures DefinedLabels(ReturnLines) == []
  {
    var prefix := FrameSaveLines + ReturnAddressLoadLines + PopLines + ReturnValueLines;
    ReturnPrefixTargets();
    RestoreAllTargets();
    assert Targets(ReturnJumpLines, "M=D") == [] && Targets(ReturnJumpLines, "D=M") == [] by {
      assert ReturnJumpLines[1..][1..] == ["0;JMP"];
    }
    TargetsAppend(prefix, RestoreAllLines, "M=D");
    TargetsAppend(prefix, RestoreAllLines, "D=M");
    TargetsAppend(prefix + RestoreAllLines, ReturnJumpLines, "M=D");
    TargetsAppend(prefix + RestoreAllLines, ReturnJumpLines, "D=M");
    ReturnPlain();
    PlainDefinesNothing(ReturnLines);
  }

  lemma ReturnPlain()
    ensures Plain(ReturnLines)
  {
    var prefix := FrameSaveLines + ReturnAddressLoadLines + PopLines + ReturnValueLines;
    assert Plain(FrameSaveLines) && Plain(ReturnAddressLoadLines) && Plain(PopLines) && Plain(ReturnValueLines);
    PlainAppend(FrameSaveLines, ReturnAddressLoadLines);
    PlainAppend(FrameSaveLines + ReturnAddressLoadLines, PopLines);
    PlainAppend(FrameSaveLines + ReturnAddressLoadLines + PopLines, ReturnValueLines);
    RestoreAllPlain();
    PlainAppend(prefix, RestoreAllLines);
    assert Plain(ReturnJumpLines);
    PlainAppend(prefix + RestoreAllLines, ReturnJumpLines);
  }

  lemma RestoreAllPlain()
    ensures Plain(RestoreAllLines)
  {
    assert Plain(RestoreLines("THAT")) && Plain(RestoreLines("THIS")) && Plain(RestoreLines("ARG")) && Plain(RestoreLines("LCL"));
    PlainAppend(RestoreLines("THAT"), RestoreLines("THIS"));
    PlainAppend(RestoreLines("THAT") + RestoreLines("THIS"), RestoreLines("ARG"));
    PlainAppend(RestoreLines("THAT") + RestoreLines("THIS") + RestoreLines("ARG"), RestoreLines("LCL"));
  }

  // ---------------------------------------------------------------------------
  // Function definitions

  /** One local initialised to zero: push 0. */
  const ZeroPushLines: seq<string> := ["@SP", "A=M", "M=0", "@SP", "M=M+1"]

  /** `count` zero pushes. */
  function ZeroLocals(count: nat): seq<string>
  {
    if count == 0 then [] else ZeroLocals(count - 1) + ZeroPushLines
  }

  /** The number of times `for i := 0; i < numLocals; i++` runs. */
  function LoopCount(numLocals: int): nat
  {
    if numLocals < 0 then 0 else numLocals
  }

  /** `WriteFunction`. */
  function FunctionLines(functionName: string, numLocals: int): seq<string>
  {
    ["(" + functionName + ")"] + ZeroLocals(LoopCount(numLocals))
  }

  /** The locals block is five lines per local, the zero push over and
      over. */
  lemma {:induction false} ZeroLocalsShape(count: nat)
    ensures |ZeroLocals(count)| == 5 * count
    ensures forall i :: 0 <= i < |ZeroLocals(count)| ==> ZeroLocals(count)[i] == ZeroPushLines[i % 5]
  {
    if count > 0 {
      ZeroLocalsShape(count - 1);
      var before := ZeroLocals(count - 1);
      forall i | 0 <= i < |ZeroLocals(count)|
        ensures ZeroLocals(count)[i] == ZeroPushLines[i % 5]
      {
        if i >= |before| {
          assert ZeroLocals(count)[i] == ZeroPushLines[i - |before|];
          assert i % 5 == i - |before|;
        }
      }
    }
  }

  /** The locals block steps SP up once per local and defines no label. */
  lemma {:induction false} ZeroLocalsSteps(count: nat)
    ensures Closed(ZeroLocals(count)) && SpDelta(ZeroLocals(count)) == count
    ensures Plain(ZeroLocals(count))
  {
    if count > 0 {
      ZeroLocalsSteps(count - 1);
      ZeroPushSteps();
      SpDeltaAppend(ZeroLocals(count - 1), ZeroPushLines);
      PlainAppend(ZeroLocals(count - 1), ZeroPushLines);
    }
  }

  lemma ZeroPushSteps()
    ensures Closed(ZeroPushLines) && SpDelta(ZeroPushLines) == 1 && Plain(ZeroPushLines)
  {
    var store := ["@SP", "A=M", "M=0"];
    StillLines(store);
    var step := ["@SP", "M=M+1"];
    assert step[2..] == [];
    SpDeltaAppend(store, step);
    assert ZeroPushLines == store + step;
  }

  /** A function definition defines the function's name and nothing else,
      first, and pushes one zero per local (none for a negative count). */
  lemma FunctionDefines(functionName: string, numLocals: int)
    ensures DefinedLabels(FunctionLines(functionName, numLocals)) == [functionName]
    ensures |FunctionLines(functionName, numLocals)| == 1 + 5 * LoopCount(numLocals)
    ensures SpDelta(FunctionLines(functionName, numLocals)) == LoopCount(numLocals)
  {
    var head := ["(" + functionName + ")"];
    ZeroLocalsShape(LoopCount(numLocals));
    ZeroLocalsSteps(LoopCount(numLocals));
    DefinitionLine(functionName);
    PlainDefinesNothing(ZeroLocals(LoopCount(numLocals)));
    DefinedLabelsAppend(head, ZeroLocals(LoopCount(numLocals)));
    assert head[0][0] == '(';
    PairStill(head[0], "M=0");
    assert SpDelta(head) == 0;
    SpDeltaAppend(head, ZeroLocals(LoopCount(numLocals)));
  }

  // ---------------------------------------------------------------------------
  // WriteAssembly

  /** `WriteAssembly` of project 08: arithmetic, push and pop as in project
      07, a label command writes its scoped label, and goto, if-goto,
      function, call and return commands (and invalid ones) write nothing. */
  function AssemblyLines08(fileName: string, currentFunc: string, c: Command, n: nat): seq<string>
  {
    match Type(c)
    case C_LABEL => LabelLines(currentFunc, c.labelName)
    case _ => AssemblyLines(fileName, c, n)
  }

  /** Only arithmetic, push, pop and label commands write anything, and only
      a label command writes differently from project 07. */
  lemma SilentCommands(fileName: string, currentFunc: string, c: Command, n: nat)
    ensures Type(c) !in {C_ARITHMETIC, C_PUSH, C_POP, C_LABEL} ==> AssemblyLines08(fileName, currentFunc, c, n) == []
    ensures c.Goto? || c.IfGoto? || c.IsFunctionCall() || c.Invalid? ==> AssemblyLines08(fileName, currentFunc, c, n) == []
    ensures Type(c) != C_LABEL ==> AssemblyLines08(fileName, currentFunc, c, n) == AssemblyLines(fileName, c, n)
    ensures c.Label? ==> AssemblyLines08(fileName, currentFunc, c, n) == LabelLines(currentFunc, c.labelName)
  {
  }

  // ---------------------------------------------------------------------------
  // The writer

  class CodeWriter {
    const writer: FileWriter
    var labelNumber: nat
    var currentFunc: string
    var callNumber: nat

    /** The lines written since the file writer last started a buffer. */
    function Lines(): seq<string>
      reads writer, writer.writer
    {
      writer.writer.lines
    }

    /** `New`: every counter and the current function name start at Go's
        zero values. */
    constructor (asmFileName: string)
      ensures fresh(writer) && fresh(writer.writer) && writer.Valid()
      ensures labelNumber == 0 && currentFunc == "" && callNumber == 0
      ensures writer.file == asmFileName && writer.fileName == Stem(asmFileName)
      ensures Lines() == [] && writer.files == map[asmFileName := []]
    {
      writer := new FileWriter(asmFileName);
      labelNumber := 0;
      currentFunc := "";
      callNumber := 0;
    }

    /** `SetFileName`: the writer moves to a new, empty file and buffer; the
        stem used for statics stays that of the first file. */
    method SetFileName(fileName: string)
      modifies writer
      ensures fresh(writer.writer) && writer.Valid() && writer.file == fileName && writer.fileName == old(writer.fileName)
      ensures Lines() == [] && writer.files == old(writer.files)[fileName := []]
    {
      writer.ChangeFile(fileName);
    }

    /** `Close`: the buffer reaches the current file. */
    method Close()
      requires writer.Valid()
      modifies writer, writer.writer
      ensures writer.Valid() && writer.writer == old(writer.writer) && Lines() == []
      ensures writer.file == old(writer.file) && writer.fileName == old(writer.fileName)
      ensures writer.files == old(writer.files)[writer.file := old(writer.files)[writer.file] + old(Lines())]
    {
      writer.Close();
    }

    /** `WriteAssembly`: only comparisons move a counter, and the function
        name and call number stay as they are. */
    method WriteAssembly(c: Command)
      modifies this, writer.writer
      ensures Lines() == old(Lines()) + AssemblyLines08(writer.fileName, currentFunc, c, old(labelNumber))
      ensures labelNumber == old(labelNumber) + LabelsUsed(c)
      ensures currentFunc == old(currentFunc) && callNumber == old(callNumber)
    {
      match Type(c) {
        case C_ARITHMETIC =>
          TypeSeparatesFamilies(c);
          WriteArithmetic(c);
        case C_PUSH =>
          TypeSeparatesFamilies(c);
          WritePushPop(c);
        case C_POP =>
          TypeSeparatesFamilies(c);
          WritePushPop(c);
        case C_LABEL =>
          WriteLabel(c.labelName);
        case _ =>
      }
    }

    /** `WriteArithmetic`: switches on ArithmeticOpLiteral(); each comparison
        takes the current label number and advances the counter by one. */
    method WriteArithmetic(c: Command)
      requires c.IsArithmetic()
      modifies this, writer.writer
      ensures Lines() == old(Lines()) + ArithmeticLines(ArithmeticOpLiteral(c), old(labelNumber))
      ensures labelNumber == old(labelNumber) + LabelsTaken(ArithmeticOpLiteral(c))
      ensures currentFunc == old(currentFunc) && callNumber == old(callNumber)
    {
      ghost var out := Lines();
      match OperatorOf(ArithmeticOpLiteral(c)) {
        case AddOp =>
          Pop();
          WriteTop("M=M+D");
          Appended(out, PopLines, TopLines("M=M+D"));
        case SubOp =>
          Pop();
          WriteTop("M=M-D");
          Appended(out, PopLines, TopLines("M=M-D"));
        case NegOp =>
          WriteTop("M=-M");
        case EqOp =>
          var falseLabel := "FALSE" + Itoa(labelNumber);
          labelNumber := labelNumber + 1;
          Pop();
          WriteEqTest(falseLabel);
          WriteTop("M=!D");
          Appended3(out, PopLines, EqTestLines(falseLabel), TopLines("M=!D"));
        case GtOp =>
          WriteComparison("D;JGT");
        case LtOp =>
          WriteComparison("D;JLT");
        case AndOp =>
          Pop();
          WriteTop("M=M&D");
          Appended(out, PopLines, TopLines("M=M&D"));
        case OrOp =>
          Pop();
          WriteTop("M=M|D");
          Appended(out, PopLines, TopLines("M=M|D"));
        case NotOp =>
          Pop();
          writer.WriteString("@SP");
          writer.WriteString("A=M");
          writer.WriteString("M=!D");
          Appended(out, PopLines, ["@SP", "A=M", "M=!D"]);
        case NoOperator =>
      }
    }

    /** The three lines that end add, sub, neg, and, or and the comparisons. */
    method WriteTop(last: string)
      modifies writer.writer
      ensures Lines() == old(Lines()) + TopLines(last)
    {
      writer.WriteString("@SP");
      writer.WriteString("A=M-1");
      writer.WriteString(last);
    }

    /** The test lines of eq. */
    method WriteEqTest(falseLabel: string)
      modifies writer.writer
      ensures Lines() == old(Lines()) + EqTestLines(falseLabel)
    {
      writer.WriteString("@SP");
      writer.WriteString("A=M-1");
      writer.WriteString("D=D-M");
      writer.WriteString("@" + falseLabel);
      writer.WriteString("D;JEQ");
      writer.WriteString("D=1");
      writer.WriteString("(" + falseLabel + ")");
    }

    /** The gt and lt cases of `WriteArithmetic`. */
    method WriteComparison(jump: string)
      modifies this, writer.writer
      ensures Lines() == old(Lines()) + CompareLines(jump, old(labelNumber))
      ensures labelNumber == old(labelNumber) + 1
      ensures currentFunc == old(currentFunc) && callNumber == old(callNumber)
    {
      ghost var out := Lines();
      var falseLabel := "FALSE" + Itoa(labelNumber);
      var trueLabel := "TRUE" + Itoa(labelNumber);
      labelNumber := labelNumber + 1;
      Pop();
      WriteCompareTest(jump, trueLabel);
      WriteCompareJoin(trueLabel, falseLabel);
      WriteTop("M=!D");
      Appended4(out, PopLines, CompareTestLines(jump, trueLabel), CompareJoinLines(trueLabel, falseLabel), TopLines("M=!D"));
    }

    /** The test lines of gt and lt. */
    method WriteCompareTest(jump: string, trueLabel: string)
      modifies writer.writer
      ensures Lines() == old(Lines()) + CompareTestLines(jump, trueLabel)
    {
      writer.WriteString("@SP");
      writer.WriteString("A=M-1");
      writer.WriteString("D=M-D");
      writer.WriteString("@" + trueLabel);
      writer.WriteString(jump);
      writer.WriteString("D=0");
      writer.WriteString("D=!D");
    }

    /** The two branches of gt and lt meeting at the false label. */
    method WriteCompareJoin(trueLabel: string, falseLabel: string)
      modifies writer.writer
      ensures Lines() == old(Lines()) + CompareJoinLines(trueLabel, falseLabel)
    {
      writer.WriteString("@" + falseLabel);
      writer.WriteString("0;JMP");
      writer.WriteString("(" + trueLabel + ")");
      writer.WriteString("D=0");
      writer.WriteString("(" + falseLabel + ")");
    }

    /** `WritePushPop`: dispatches on Type(). */
    method WritePushPop(c: Command)
      requires c.IsMemoryAccess()
      modifies writer.writer
      ensures Lines() == old(Lines()) + PushPopLines(writer.fileName, c)
    {
      match Type(c) {
        case C_PUSH => WritePush(c);
        case C_POP => WritePop(c);
      }
    }

    /** `WriteLabel`. */
    method WriteLabel(name: string)
      modifies writer.writer
      ensures Lines() == old(Lines()) + LabelLines(currentFunc, name)
    {
      writer.WriteString("(" + NameLabel(currentFunc, name) + ")");
    }

    /** `WriteGo`. */
    method WriteGo(name: string)
      modifies writer.writer
      ensures Lines() == old(Lines()) + GotoLines(currentFunc, name)
    {
      writer.WriteString("@" + NameLabel(currentFunc, name));
      writer.WriteString("0;JMP");
    }

    /** `WriteIf`. */
    method WriteIf(name: string)
      modifies writer.writer
      ensures Lines() == old(Lines()) + IfLines(currentFunc, name)
    {
      ghost var out := Lines();
      Pop();
      writer.WriteString("@" + NameLabel(currentFunc, name));
      writer.WriteString("D;JNE");
      Appended(out, PopLines, ["@" + NameLabel(currentFunc, name), "D;JNE"]);
    }

    /** `WriteCall`: the return label uses the call number, which then moves
        on; the label counter and the function name stay as they are. */
    method WriteCall(functionName: string, numArgs: int)
      modifies this, writer.writer
      ensures Lines() == old(Lines()) + CallLines(old(currentFunc), old(callNumber), functionName, numArgs)
      ensures callNumber == old(callNumber) + 1
      ensures labelNumber == old(labelNumber) && currentFunc == old(currentFunc)
    {
      ghost var out := Lines();
      var returnLabel := "return" + currentFunc + Itoa(callNumber);
      assert returnLabel == ReturnLabel(currentFunc, callNumber);
      PushReturnAddress(returnLabel);
      SaveFrame();
      Appended(out, ReturnAddressLines(returnLabel), FrameLines);
      Reposition(numArgs);
      Appended(out, ReturnAddressLines(returnLabel) + FrameLines, RepositionLines(numArgs));
      WriteJump(functionName, returnLabel);
      Appended(out, ReturnAddressLines(returnLabel) + FrameLines + RepositionLines(numArgs), JumpLines(functionName, returnLabel));
      callNumber := callNumber + 1;
    }

    /** The first lines of `WriteCall`. */
    method PushReturnAddress(returnLabel: string)
      modifies writer.writer
      ensures Lines() == old(Lines()) + ReturnAddressLines(returnLabel)
    {
      ghost var out := Lines();
      writer.WriteString("@" + returnLabel);
      writer.WriteString("D=A");
      Push();
      Appended(out, ["@" + returnLabel, "D=A"], PushLines);
    }

    /** The last lines of `WriteCall`. */
    method WriteJump(functionName: string, returnLabel: string)
      modifies writer.writer
      ensures Lines() == old(Lines()) + JumpLines(functionName, returnLabel)
    {
      writer.WriteString("@" + functionName);
      writer.WriteString("0;JMP");
      writer.WriteString("(" + returnLabel + ")");
    }

    /** ARG := SP - numArgs - 5, then LCL := SP, in `WriteCall`. */
    method Reposition(numArgs: int)
      modifies writer.writer
      ensures Lines() == old(Lines()) + RepositionLines(numArgs)
    {
      ghost var out := Lines();
      WriteArgBase();
      WriteArgOffset(numArgs);
      Appended(out, ArgBaseLines, ArgOffsetLines(numArgs));
      WriteArgOffset(5);
      Appended(out, ArgBaseLines + ArgOffsetLines(numArgs), ArgOffsetLines(5));
      WriteLocalBase();
      Appended(out, ArgBaseLines + ArgOffsetLines(numArgs) + ArgOffsetLines(5), LocalBaseLines);
    }

    /** The pushes of LCL, ARG, THIS and THAT in `WriteCall`. */
    method SaveFrame()
      modifies writer.writer
      ensures Lines() == old(Lines()) + FrameLines
    {
      ghost var out := Lines();
      Save("LCL");
      Save("ARG");
      Appended(out, SaveLines("LCL"), SaveLines("ARG"));
      Save("THIS");
      Appended(out, SaveLines("LCL") + SaveLines("ARG"), SaveLines("THIS"));
      Save("THAT");
      Appended(out, SaveLines("LCL") + SaveLines("ARG") + SaveLines("THIS"), SaveLines("THAT"));
    }

    /** Push one pointer register. */
    method Save(register: string)
      modifies writer.writer
      ensures Lines() == old(Lines()) + SaveLines(register)
    {
      ghost var out := Lines();
      writer.WriteString("@" + register);
      writer.WriteString("D=M");
      Push();
      Appended(out, SegmentBaseLines(register), PushLines);
    }

    method WriteArgBase()
      modifies writer.writer
      ensures Lines() == old(Lines()) + ArgBaseLines
    {
      writer.WriteString("@SP");
      writer.WriteString("D=M");
      writer.WriteString("@ARG");
      writer.WriteString("M=D");
    }

    method WriteArgOffset(offset: int)
      modifies writer.writer
      ensures Lines() == old(Lines()) + ArgOffsetLines(offset)
    {
      writer.WriteString("@" + Itoa(offset));
      writer.WriteString("D=A");
      writer.WriteString("@ARG");
      writer.WriteString("M=M-D");
    }

    method WriteLocalBase()
      modifies writer.writer
      ensures Lines() == old(Lines()) + LocalBaseLines
    {
      writer.WriteString("@SP");
      writer.WriteString("D=M");
      writer.WriteString("@LCL");
      writer.WriteString("M=D");
    }

    /** `WriteReturn`: the same lines whatever the state, and no field
        changes. */
    method WriteReturn()
      modifies writer.writer
      ensures Lines() == old(Lines()) + ReturnLines
    {
      ghost var out := Lines();
      WriteFrameSave();
      WriteReturnAddressLoad();
      Appended(out, FrameSaveLines, ReturnAddressLoadLines);
      ghost var written := FrameSaveLines + ReturnAddressLoadLines;
      Pop();
      Appended(out, written, PopLines);
      written := written + PopLines;
      WriteReturnValue();
      Appended(out, written, ReturnValueLines);
      written := written + ReturnValueLines;
      RestoreAll();
      Appended(out, written, RestoreAllLines);
      written := written + RestoreAllLines;
      WriteReturnJump();
      Appended(out, written, ReturnJumpLines);
    }

    method WriteReturnJump()
      modifies writer.writer
      ensures Lines() == old(Lines()) + ReturnJumpLines
    {
      writer.WriteString("@R14");
      writer.WriteString("A=M");
      writer.WriteString("0;JMP");
    }

    method WriteFrameSave()
      modifies writer.writer
      ensures Lines() == old(Lines()) + FrameSaveLines
    {
      writer.WriteString("@LCL");
      writer.WriteString("D=M");
      writer.WriteString("@R13");
      writer.WriteString("M=D");
      writer.WriteString("@R14");
      writer.WriteString("M=D");
    }

    method WriteReturnAddressLoad()
      modifies writer.writer
      ensures Lines() == old(Lines()) + ReturnAddressLoadLines
    {
      writer.WriteString("@5");
      writer.WriteString("D=A");
      writer.WriteString("@R14");
      writer.WriteString("M=M-D");
      writer.WriteString("A=M");
      writer.WriteString("D=M");
      writer.WriteString("@R14");
      writer.WriteString("M=D");
    }

    method WriteReturnValue()
      modifies writer.writer
      ensures Lines() == old(Lines()) + ReturnValueLines
    {
      writer.WriteString("@ARG");
      writer.WriteString("A=M");
      writer.WriteString("M=D");
      writer.WriteString("@ARG");
      writer.WriteString("D=M");
      writer.WriteString("@SP");
      writer.WriteString("M=D+1");
    }

    /** The four restores of `WriteReturn`. */
    method RestoreAll()
      modifies writer.writer
      ensures Lines() == old(Lines()) + RestoreAllLines
    {
      ghost var out := Lines();
      Restore("THAT");
      Restore("THIS");
      Appended(out, RestoreLines("THAT"), RestoreLines("THIS"));
      Restore("ARG");
      Appended(out, RestoreLines("THAT") + RestoreLines("THIS"), RestoreLines("ARG"));
      Restore("LCL");
      Appended(out, RestoreLines("THAT") + RestoreLines("THIS") + RestoreLines("ARG"), RestoreLines("LCL"));
    }

    method Restore(register: string)
      modifies writer.writer
      ensures Lines() == old(Lines()) + RestoreLines(register)
    {
      ghost var out := Lines();
      writer.WriteString("@R13");
      writer.WriteString("M=M-1");
      writer.WriteString("A=M");
      writer.WriteString("D=M");
      writer.WriteString("@" + register);
      writer.WriteString("M=D");
      Appended(out, StepBackLines, ["@" + register, "M=D"]);
    }

    /** `WriteFunction`: the function becomes the current one and its call
        numbers start again from 0; the loop pushes one zero per local. */
    method WriteFunction(functionName: string, numLocals: int)
      modifies this, writer.writer
      ensures Lines() == old(Lines()) + FunctionLines(functionName, numLocals)
      ensures currentFunc == functionName && callNumber == 0 && labelNumber == old(labelNumber)
    {
      currentFunc := functionName;
      callNumber := 0;
      writer.WriteString("(" + functionName + ")");
      ghost var start := Lines();
      assert start == old(Lines()) + ["(" + functionName + ")"];
      var i := 0;
      while i < numLocals
        invariant 0 <= i <= LoopCount(numLocals)
        invariant Lines() == start + ZeroLocals(i)
        invariant currentFunc == functionName && callNumber == 0 && labelNumber == old(labelNumber)
        decreases numLocals - i
      {
        PushZero();
        Appended(start, ZeroLocals(i), ZeroPushLines);
        i := i + 1;
      }
      assert i == LoopCount(numLocals);
    }

    /** One local of a function definition set to zero. */
    method PushZero()
      modifies writer.writer
      ensures Lines() == old(Lines()) + ZeroPushLines
    {
      writer.WriteString("@SP");
      writer.WriteString("A=M");
      writer.WriteString("M=0");
      writer.WriteString("@SP");
      writer.WriteString("M=M+1");
    }

    /** `pop`. */
    method Pop()
      modifies writer.writer
      ensures Lines() == old(Lines()) + PopLines
    {
      writer.WriteString("@SP");
      writer.WriteString("M=M-1");
      writer.WriteString("A=M");
      writer.WriteString("D=M");
    }

    /** `push`. */
    method Push()
      modifies writer.writer
      ensures Lines() == old(Lines()) + PushLines
    {
      writer.WriteString("@SP");
      writer.WriteString("A=M");
      writer.WriteString("M=D");
      writer.WriteString("@SP");
      writer.WriteString("M=M+1");
    }

    /** `writePush`. */
    method WritePush(c: Command)
      requires c.Push?
      modifies writer.writer
      ensures Lines() == old(Lines()) + PushSegmentLines(writer.fileName, c.segment, c.index as int)
    {
      var index := c.index as int;
      ghost var out := Lines();
      match SegmentOf(c.segment) {
        case Constant =>
          writer.WriteString("@" + Itoa(index));
          writer.WriteString("D=A");
          Push();
          Appended(out, ["@" + Itoa(index), "D=A"], PushLines);
        case Argument =>
          GetSegmentDataFromMemory("ARG");
          PushFromMemory(index);
          Appended(out, SegmentBaseLines("ARG"), PushFromMemoryLines(index));
        case Local =>
          GetSegmentDataFromMemory("LCL");
          PushFromMemory(index);
          Appended(out, SegmentBaseLines("LCL"), PushFromMemoryLines(index));
        case This =>
          GetSegmentDataFromMemory("THIS");
          PushFromMemory(index);
          Appended(out, SegmentBaseLines("THIS"), PushFromMemoryLines(index));
        case That =>
          GetSegmentDataFromMemory("THAT");
          PushFromMemory(index);
          Appended(out, SegmentBaseLines("THAT"), PushFromMemoryLines(index));
        case Temp =>
          GetDataByMemoryAddress(5);
          PushFromMemory(index);
          Appended(out, AddressLines(5), PushFromMemoryLines(index));
        case Pointer =>
          GetDataByMemoryAddress(3);
          PushFromMemory(index);
          Appended(out, AddressLines(3), PushFromMemoryLines(index));
        case Static =>
          writer.WriteString("@" + writer.fileName + "." + Itoa(index));
          writer.WriteString("M=D");
          Push();
          Appended(out, [StaticAddress(writer.fileName, index), "M=D"], PushLines);
        case OtherSegment =>
      }
    }

    /** `getSegmentDataFromMemory`. */
    method GetSegmentDataFromMemory(segment: string)
      modifies writer.writer
      ensures Lines() == old(Lines()) + SegmentBaseLines(segment)
    {
      writer.WriteString("@" + segment);
      writer.WriteString("D=M");
    }

    /** `getDataByMemoryAddress`. */
    method GetDataByMemoryAddress(memoryAddr: int)
      modifies writer.writer
      ensures Lines() == old(Lines()) + AddressLines(memoryAddr)
    {
      writer.WriteString("@" + Itoa(memoryAddr));
      writer.WriteString("D=A");
    }

    /** `pushFromMemory`. */
    method PushFromMemory(index: int)
      modifies writer.writer
      ensures Lines() == old(Lines()) + PushFromMemoryLines(index)
    {
      ghost var out := Lines();
      writer.WriteString("@" + Itoa(index));
      writer.WriteString("A=D+A");
      writer.WriteString("D=M");
      Push();
      Appended(out, ["@" + Itoa(index), "A=D+A", "D=M"], PushLines);
    }

    /** `writePop`. */
    method WritePop(c: Command)
      requires c.Pop?
      modifies writer.writer
      ensures Lines() == old(Lines()) + PopSegmentLines(writer.fileName, c.segment, c.index as int)
    {
      var index := c.index as int;
      ghost var out := Lines();
      match SegmentOf(c.segment) {
        case Argument =>
          GetSegmentDataFromMemory("ARG");
          LoadToMemory(index);
          Appended(out, SegmentBaseLines("ARG"), LoadToMemoryLines(index));
        case Local =>
          GetSegmentDataFromMemory("LCL");
          LoadToMemory(index);
          Appended(out, SegmentBaseLines("LCL"), LoadToMemoryLines(index));
        case This =>
          GetSegmentDataFromMemory("THIS");
          LoadToMemory(index);
          Appended(out, SegmentBaseLines("THIS"), LoadToMemoryLines(index));
        case That =>
          GetSegmentDataFromMemory("THAT");
          LoadToMemory(index);
          Appended(out, SegmentBaseLines("THAT"), LoadToMemoryLines(index));
        case Temp =>
          GetDataByMemoryAddress(5);
          LoadToMemory(index);
          Appended(out, AddressLines(5), LoadToMemoryLines(index));
        case Pointer =>
          GetDataByMemoryAddress(3);
          LoadToMemory(index);
          Appended(out, AddressLines(3), LoadToMemoryLines(index));
        case Static =>
          Pop();
          writer.WriteString("@" + writer.fileName + "." + Itoa(index));
          writer.WriteString("M=D");
          Appended(out, PopLines, [StaticAddress(writer.fileName, index), "M=D"]);
        case _ =>
      }
    }

    /** `loadToMemory`. */
    method LoadToMemory(index: int)
      modifies writer.writer
      ensures Lines() == old(Lines()) + LoadToMemoryLines(index)
    {
      ghost var out := Lines();
      Park(index);
      StoreThroughParked();
      Appended(out, ParkLines(index), StoreLines);
    }

    /** The last seven lines of `loadToMemory`. */
    method StoreThroughParked()
      modifies writer.writer
      ensures Lines() == old(Lines()) + StoreLines
    {
      writer.WriteString("@SP");
      writer.WriteString("M=M-1");
      writer.WriteString("A=M");
      writer.WriteString("D=M");
      writer.WriteString("@13");
      writer.WriteString("A=M");
      writer.WriteString("M=D");
    }

    /** The first six lines of `loadToMemory`. */
    method Park(index: int)
      modifies writer.writer
      ensures Lines() == old(Lines()) + ParkLines(index)
    {
      writer.WriteString("@13");
      writer.WriteString("M=D");
      writer.WriteString("@" + Itoa(index));
      writer.WriteString("D=A");
      writer.WriteString("@13");
      writer.WriteString("M=M+D");
    }
  }
}
