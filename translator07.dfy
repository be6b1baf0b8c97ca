/** The translation loop of `main` in project 07, for one .vm file: every
    scanned line goes through the parser's Advance, and whenever Command()
    is not nil the writer's WriteAssembly is given that command. The loop is
    modelled as a function of the file's lines; opening, closing and the
    directory walk are left to VmMain. */
module Translator07 {
  import opened Outcomes
  import opened GoStrings
  import opened Commands
  import opened VmParsing
  import Tokenizer
  import VmParser07
  import VmParser08
  import opened CodeWriter07

  /** The parser's fields, the lines written so far and the writer's label
      counter. */
  datatype Translation = Translation(fields: Fields, lines: seq<string>, labelNumber: nat)

  const Start: Translation := Translation(InitialFields, [], 0)

  /** One pass of the loop as written: the command stored in the parser is
      written after every line, whether or not that line set it. */
  function LoopStep(fileName: string, t: Translation, line: string): Result<Translation, Fatal>
  {
    match VmParser07.Step(t.fields, Tokenizer.Tokenize(line))
    case Err(e) => Err(e)
    case Ok(next) => Ok(Emit(fileName, t, next.fields))
  }

  /** The parser now holds `f`: a stored command is written, with the label
      counter where the previous commands left it. */
  function Emit(fileName: string, t: Translation, f: Fields): Translation
  {
    if f.currCmd.None? then t.(fields := f)
    else Translation(f, t.lines + AssemblyLines(fileName, f.currCmd.value, t.labelNumber), t.labelNumber + LabelsUsed(f.currCmd.value))
  }

  /** The loop as written over all lines of a file; the first fatal error
      ends it. */
  function Translate(fileName: string, input: seq<string>): Result<Translation, Fatal>
  {
    if input == [] then Ok(Start)
    else
      match Translate(fileName, input[..|input| - 1])
      case Err(e) => Err(e)
      case Ok(t) => LoopStep(fileName, t, input[|input| - 1])
  }

  /** The types for which the 07 parser builds a command from the line. */
  const StoringTypes: set<CommandType> := {C_ARITHMETIC, C_PUSH}

  /** A line from which the 07 parser builds no command: a blank or comment
      line, a pop line (its case is empty) or a line whose first word the
      parser does not know. */
  predicate StoresNothing(line: string) {
    var tokens := Tokenizer.Tokenize(line);
    tokens == [] || VmParser07.ParseCommandType(tokens[0]) !in StoringTypes
  }

  /** One pass of the loop as evidently intended: only a line the parser
      built a command from writes it; any other line writes nothing. */
  function IntendedLoopStep(fileName: string, t: Translation, line: string): Result<Translation, Fatal>
  {
    match VmParser07.Step(t.fields, Tokenizer.Tokenize(line))
    case Err(e) => Err(e)
    case Ok(next) =>
      if next.fields.commandType !in StoringTypes then Ok(t.(fields := next.fields))
      else Ok(Emit(fileName, t, next.fields))
  }

  function IntendedTranslate(fileName: string, input: seq<string>): Result<Translation, Fatal>
  {
    if input == [] then Ok(Start)
    else
      match IntendedTranslate(fileName, input[..|input| - 1])
      case Err(e) => Err(e)
      case Ok(t) => IntendedLoopStep(fileName, t, input[|input| - 1])
  }

  /** The commands the 07 parser builds. */
  predicate Translatable(c: Command) {
    VmParser08.Parseable(c) && (c.IsArithmetic() || c.Push?)
  }

  /** The source text of a command: its words separated by single spaces. */
  function Written(c: Command): string {
    Join(VmParser08.Words(c), " ")
  }

  /** A file holding the given commands, one per line. */
  function Program(cmds: seq<Command>): (r: seq<string>)
    ensures |r| == |cmds|
  {
    if cmds == [] then [] else Program(cmds[..|cmds| - 1]) + [Written(cmds[|cmds| - 1])]
  }

  /** The 07 parser reads back the text of every command it builds. */
  lemma StepOnWritten(f: Fields, c: Command)
    requires Translatable(c)
    ensures var s := VmParser07.Step(f, Tokenizer.Tokenize(Written(c)));
      s.Ok? && s.value.fields.currCmd == Some(c) && s.value.fields.commandType == Type(c)
      && s.value.fields.commandType != NoCommandType
  {
    VmParser08.TokenizeWords(c);
    if c.IsArithmetic() {
      VmParser08.ArithmeticMnemonic(c);
      VmParser08.ParseCommandTypeClassifies(c.op);
    }
    VmParser07.AgreesWith08(f, VmParser08.Words(c));
    VmParser08.StepOnWords(f, c);
  }

  /** A line with no tokens leaves the parser's command in place and
      reports no command type. */
  lemma StepOnBlank(f: Fields, blank: string)
    requires Tokenizer.Tokenize(blank) == []
    ensures VmParser07.Step(f, Tokenizer.Tokenize(blank)) == Ok(Next(Fields("", -1, NoCommandType, f.currCmd), []))
  {
  }

  /** As written, a blank or comment line after a command writes that
      command a second time, with the label counter moved past the first
      copy. */
  lemma BlankLineRepeatsCommand(fileName: string, input: seq<string>, t: Translation, blank: string)
    requires Translate(fileName, input) == Ok(t) && t.fields.currCmd.Some?
    requires Tokenizer.Tokenize(blank) == []
    ensures Translate(fileName, input + [blank]) ==
        Ok(Translation(Fields("", -1, NoCommandType, t.fields.currCmd),
                       t.lines + AssemblyLines(fileName, t.fields.currCmd.value, t.labelNumber),
                       t.labelNumber + LabelsUsed(t.fields.currCmd.value)))
  {
    TranslateSnoc(fileName, input, blank);
    LoopStepOnBlank(fileName, t, blank);
  }

  /** A line the parser builds no command from never fails, keeps the
      stored command and reports a type outside StoringTypes. */
  lemma StepStoresNothing(f: Fields, line: string)
    requires StoresNothing(line)
    ensures var s := VmParser07.Step(f, Tokenizer.Tokenize(line));
      s.Ok? && s.value.fields.currCmd == f.currCmd && s.value.fields.commandType !in StoringTypes
  {
  }

  /** As written, every line the parser builds no command from (blank,
      comment, pop or unknown) writes the stored command once more, with the
      label counter moved past the previous copy. */
  lemma LineWithoutCommandRepeats(fileName: string, input: seq<string>, t: Translation, line: string)
    requires Translate(fileName, input) == Ok(t) && t.fields.currCmd.Some?
    requires StoresNothing(line)
    ensures var c := t.fields.currCmd.value;
      Translate(fileName, input + [line]).Ok?
      && Translate(fileName, input + [line]).value.fields.currCmd == Some(c)
      && Translate(fileName, input + [line]).value.lines == t.lines + AssemblyLines(fileName, c, t.labelNumber)
      && Translate(fileName, input + [line]).value.labelNumber == t.labelNumber + LabelsUsed(c)
  {
    TranslateSnoc(fileName, input, line);
    StepStoresNothing(t.fields, line);
  }

  /** The smallest file that shows it for pop: a command followed by a pop
      line writes that command twice and no pop at all. */
  lemma CommandThenPopLine(fileName: string, c: Command, popLine: string)
    requires Translatable(c)
    requires Tokenizer.Tokenize(popLine) != [] && Tokenizer.Tokenize(popLine)[0] == "pop"
    ensures Translate(fileName, [Written(c)] + [popLine]).Ok?
    ensures var u := Translate(fileName, [Written(c)] + [popLine]).value;
      u.fields.currCmd == Some(c) && u.fields.commandType == C_POP
      && u.lines == AssemblyLines(fileName, c, 0) + AssemblyLines(fileName, c, LabelsUsed(c))
  {
    var input := [Written(c)];
    var t := Translate(fileName, input).value by { TranslateOne(fileName, c); }
    assert t.fields.currCmd == Some(c) && t.lines == AssemblyLines(fileName, c, 0) && t.labelNumber == LabelsUsed(c) by {
      TranslateOne(fileName, c);
    }
    var next := VmParser07.Step(t.fields, Tokenizer.Tokenize(popLine)).value by {
      VmParser07.PopOnlySetsType(t.fields, Tokenizer.Tokenize(popLine));
    }
    assert next.fields == t.fields.(commandType := C_POP) by {
      VmParser07.PopOnlySetsType(t.fields, Tokenizer.Tokenize(popLine));
    }
    assert Translate(fileName, input + [popLine]) == Ok(Emit(fileName, t, next.fields)) by {
      TranslateSnoc(fileName, input, popLine);
      VmParser07.PopOnlySetsType(t.fields, Tokenizer.Tokenize(popLine));
    }
    EmitCommand(fileName, t, next.fields);
  }

  /** One more line is one more pass of the loop. */
  lemma TranslateSnoc(fileName: string, input: seq<string>, line: string)
    ensures Translate(fileName, input).Ok? ==>
      Translate(fileName, input + [line]) == LoopStep(fileName, Translate(fileName, input).value, line)
    ensures Translate(fileName, input).Err? ==> Translate(fileName, input + [line]) == Translate(fileName, input)
  {
    assert (input + [line])[..|input|] == input;
  }

  lemma LoopStepOnBlank(fileName: string, t: Translation, blank: string)
    requires t.fields.currCmd.Some? && Tokenizer.Tokenize(blank) == []
    ensures var c := t.fields.currCmd.value;
      LoopStep(fileName, t, blank) ==
        Ok(Translation(Fields("", -1, NoCommandType, Some(c)),
                       t.lines + AssemblyLines(fileName, c, t.labelNumber), t.labelNumber + LabelsUsed(c)))
  {
    var f := Fields("", -1, NoCommandType, t.fields.currCmd);
    StepOnBlank(t.fields, blank);
    assert LoopStep(fileName, t, blank) == Ok(Emit(fileName, t, f));
  }

  /** The smallest file that shows it: one command followed by a blank or
      comment line is written twice. */
  lemma CommandThenBlankLine(fileName: string, c: Command, blank: string)
    requires Translatable(c) && Tokenizer.Tokenize(blank) == []
    ensures Translate(fileName, [Written(c)] + [blank]) ==
      Ok(Translation(Fields("", -1, NoCommandType, Some(c)),
                     AssemblyLines(fileName, c, 0) + AssemblyLines(fileName, c, LabelsUsed(c)),
                     LabelsUsed(c) + LabelsUsed(c)))
  {
    TranslateOne(fileName, c);
    FirstCommandThenBlank(fileName, [Written(c)], blank, c, Translate(fileName, [Written(c)]).value);
  }

  lemma FirstCommandThenBlank(fileName: string, input: seq<string>, blank: string, c: Command, t: Translation)
    requires Translate(fileName, input) == Ok(t) && Tokenizer.Tokenize(blank) == []
    requires t.fields.currCmd == Some(c) && t.lines == AssemblyLines(fileName, c, 0) && t.labelNumber == LabelsUsed(c)
    ensures Translate(fileName, input + [blank]) ==
      Ok(Translation(Fields("", -1, NoCommandType, Some(c)),
                     AssemblyLines(fileName, c, 0) + AssemblyLines(fileName, c, LabelsUsed(c)),
                     LabelsUsed(c) + LabelsUsed(c)))
  {
    var u := Translation(Fields("", -1, NoCommandType, Some(c)),
                         AssemblyLines(fileName, c, 0) + AssemblyLines(fileName, c, LabelsUsed(c)),
                         LabelsUsed(c) + LabelsUsed(c));
    assert Translate(fileName, input + [blank]) == Ok(u) by {
      BlankLineRepeatsCommand(fileName, input, t, blank);
      var r := Translate(fileName, input + [blank]);
      assert r.Ok?;
      assert r.value.fields == u.fields;
      assert r.value.lines == u.lines;
      assert r.value.labelNumber == u.labelNumber;
    }
  }

  /** A file of one command line is written as that command. */
  lemma TranslateOne(fileName: string, c: Command)
    requires Translatable(c)
    ensures Translate(fileName, [Written(c)]).Ok?
    ensures var t := Translate(fileName, [Written(c)]).value;
      t.fields.currCmd == Some(c) && t.lines == AssemblyLines(fileName, c, 0) && t.labelNumber == LabelsUsed(c)
  {
    var line := Written(c);
    var next := VmParser07.Step(InitialFields, Tokenizer.Tokenize(line)).value by { StepOnWritten(InitialFields, c); }
    assert VmParser07.Step(InitialFields, Tokenizer.Tokenize(line)) == Ok(next) && next.fields.currCmd == Some(c) by {
      StepOnWritten(InitialFields, c);
    }
    FirstLine(fileName, line, next);
    EmitCommand(fileName, Start, next.fields);
  }

  lemma EmitCommand(fileName: string, t: Translation, f: Fields)
    requires f.currCmd.Some?
    ensures Emit(fileName, t, f) ==
      Translation(f, t.lines + AssemblyLines(fileName, f.currCmd.value, t.labelNumber), t.labelNumber + LabelsUsed(f.currCmd.value))
    ensures t.lines == [] && t.labelNumber == 0 ==>
      Emit(fileName, t, f).lines == AssemblyLines(fileName, f.currCmd.value, 0) && Emit(fileName, t, f).labelNumber == LabelsUsed(f.currCmd.value)
  {
    assert [] + AssemblyLines(fileName, f.currCmd.value, 0) == AssemblyLines(fileName, f.currCmd.value, 0);
  }

  lemma FirstLine(fileName: string, line: string, next: Next)
    requires VmParser07.Step(InitialFields, Tokenizer.Tokenize(line)) == Ok(next)
    ensures Translate(fileName, [line]) == Ok(Emit(fileName, Start, next.fields))
  {
    TranslateSnoc(fileName, [], line);
    assert [] + [line] == [line];
  }

  /** Corrected: a line the parser builds no command from (blank, comment,
      pop or unknown) writes nothing and keeps the label counter. */
  lemma IntendedSkipsLineWithoutCommand(fileName: string, input: seq<string>, line: string)
    requires IntendedTranslate(fileName, input).Ok?
    requires StoresNothing(line)
    ensures IntendedTranslate(fileName, input + [line]).Ok?
    ensures var t := IntendedTranslate(fileName, input).value;
      var u := IntendedTranslate(fileName, input + [line]).value;
      u.lines == t.lines && u.labelNumber == t.labelNumber && u.fields.currCmd == t.fields.currCmd
  {
    assert (input + [line])[..|input|] == input;
    StepStoresNothing(IntendedTranslate(fileName, input).value.fields, line);
  }

  /** Corrected: a command line writes exactly that command, once. */
  lemma IntendedWritesCommandOnce(fileName: string, input: seq<string>, c: Command)
    requires IntendedTranslate(fileName, input).Ok? && Translatable(c)
    ensures var t := IntendedTranslate(fileName, input).value;
      IntendedTranslate(fileName, input + [Written(c)]).Ok?
      && IntendedTranslate(fileName, input + [Written(c)]).value.lines == t.lines + AssemblyLines(fileName, c, t.labelNumber)
      && IntendedTranslate(fileName, input + [Written(c)]).value.labelNumber == t.labelNumber + LabelsUsed(c)
  {
    var t := IntendedTranslate(fileName, input).value;
    var line := Written(c);
    var f := VmParser07.Step(t.fields, Tokenizer.Tokenize(line)).value.fields by { StepOnWritten(t.fields, c); }
    assert IntendedLoopStep(fileName, t, line) == Ok(Emit(fileName, t, f)) && f.currCmd == Some(c) by {
      StepOnWritten(t.fields, c);
    }
    IntendedTranslateSnoc(fileName, input, line, t);
    EmitCommand(fileName, t, f);
  }

  /** One more line is one more pass of the corrected loop. */
  lemma IntendedTranslateSnoc(fileName: string, input: seq<string>, line: string, t: Translation)
    requires IntendedTranslate(fileName, input) == Ok(t)
    ensures IntendedTranslate(fileName, input + [line]) == IntendedLoopStep(fileName, t, line)
  {
    assert (input + [line])[..|input|] == input;
  }

  /** Corrected: a file of commands, with blank lines wherever they fall,
      is written as the run of WriteAssembly calls on those commands, in
      order; here without the lines that hold no command, which
      IntendedSkipsLineWithoutCommand shows add nothing. */
  lemma {:induction false} IntendedTranslatesProgram(fileName: string, cmds: seq<Command>)
    requires forall i :: 0 <= i < |cmds| ==> Translatable(cmds[i])
    ensures IntendedTranslate(fileName, Program(cmds)).Ok?
    ensures IntendedTranslate(fileName, Program(cmds)).value.lines == AssemblyRun(fileName, cmds, 0)
    ensures IntendedTranslate(fileName, Program(cmds)).value.labelNumber == RunLabelsUsed(cmds)
  {
    if cmds != [] {
      var earlier, c := cmds[..|cmds| - 1], cmds[|cmds| - 1];
      assert cmds == earlier + [c];
      IntendedTranslatesProgram(fileName, earlier);
      IntendedWritesCommandOnce(fileName, Program(earlier), c);
      AssemblyRunSnoc(fileName, earlier, c, 0);
    }
  }
}
