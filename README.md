# nand2tetris VM translator and Hack assembler parser, in Dafny

This project models the Go implementation of two tools from *The Elements of
Computing Systems* (nand2tetris):

- the **VM translator** of chapters 7 and 8. It covers the command types (`cmd`),
  the line tokenizer, the two VM parsers (project 07 knows arithmetic and
  push/pop, project 08 knows the whole language), the buffered file writer, and
  the two code writers that turn commands into Hack assembly text. It also
  covers the path helpers and the translation loop of the project-07 `main`;
- the **parser of the Hack assembler** of chapter 6. It classifies A, L and C
  instructions, records label addresses in phase 1, and in phase 2 allocates
  variables from address 16 and produces 16-bit binary words.

The model follows the code as written, including its quirks. Examples:

- `if-goto` reports the command type `C_GOTO`;
- a blank line, an `if-goto` line or an unknown line leaves the parser's
  previous command in place;
- return labels carry no separator;
- `push static` writes `M=D` before pushing;
- `not` pops its operand first.

Modelling choices:

- Modules follow the Go packages, with these merges, splits and additions:
  - `Commands` covers both `07/cmd` and `08/cmd`, since the 08 package
    extends the 07 one;
  - `07/codewriter` is split in two: `FileWriting` models `file_writer.go`
    and `CodeWriter07` models `code_writer.go`;
  - `07/main.go` is split in two: `VmMain` holds its option and path helpers,
    and `Translator07` its per-file translation loop;
  - `Tokenizer`, `VmParser07`, `VmParser08`, `CodeWriter08` and `HackParser`
    each model one package (`08/tokenizer`, `07/parser`, `08/parser`,
    `08/codewriter`, `06/parser`);
  - `VmParsing` holds the field record and operand parsing that both VM
    parsers share, so they are written once;
  - `GoStrings` (Go's string and number helpers) and `Outcomes` (the result
    type that stands for `log.Fatalf`) match no package of the repository.
- Stateful Go objects (`CodeWriter`, `Parser`, `Tokenizer`, `fileWriter`)
  become classes whose methods update their fields.
- Each method is proved against a specification function over lines of text.
  The properties are proved as lemmas about those functions.
- Output is a sequence of lines. Every `writeString` call of the source writes
  exactly one line ending in `"\n"`, and that newline is left implicit.
- `log.Fatalf` becomes an error result (`Err`/`Fail` carrying the cause).
- Go's `strings.Split`, `strings.Join`, `strings.TrimSpace`, `strconv.Itoa`
  and `strconv.Atoi` and the `int16` conversion are written out in the module
  `GoStrings`, with their own laws.
- The symbol table and the `code` tables of the assembler are not part of this
  model. They appear as parameters: a `map<string, int>` of predefined symbols,
  and three partial maps from mnemonic to bits.
- The 07 tokenizer (`07/tokenizer/tokenizer.go`) is not part of this model. The
  07 parser runs over the 08 tokenizer, which the 07 parser's use of it
  matches.
- The declaration of `PopCommand` is not part of this model. Its shape
  (Op, Segment, Index, type `C_POP`) is inferred from how the 08 parser and
  the code writers use it.

## Model

| member | source | states |
|---|---|---|
| Commands.Type | 08/cmd/flow_control_command.go:37-39 | no command reports `C_IF` (if-goto reports `C_GOTO`) and every command has a type |
| Commands.ValueRoundTrip | 08/cmd/command.go:10-21 | each command type is recovered from its string value |
| Commands.ValueInjective | 08/cmd/command.go:10-21 | the ten constants have pairwise distinct values, and only the empty type (parser reset) has value "" |
| Commands.TypeSeparatesFamilies | 07/cmd/arithmetic_command.go:12-102 | a command's type tells its family exactly: arithmetic iff C_ARITHMETIC, push/pop iff C_PUSH/C_POP, flow control iff C_LABEL/C_GOTO, function/call/return iff their types, invalid iff UNKNOWN_COMMAND_TYPE |
| Commands.IfGotoOnlyDistinguishedByLiteral | 08/cmd/flow_control_command.go:25-42 | goto and if-goto have the same type; only their op literals differ |
| Commands.LiteralsIgnoreOp | 08/cmd/function_call_command.go:14-43 | the memory, flow-control and function literals depend on the variant only, never on the stored Op |
| Commands.ErrorMessageFields | 08/cmd/command.go:36-38 | an invalid command's message is the prefix then op, arg1 and arg2 joined by single spaces (both spaces present even for empty args); its length is the parts' lengths plus two, and space-free parts split back |
| GoStrings.ToInt16 | 08/parser/parser.go:190 | the int16 conversion is congruent to its argument modulo 2^16 and the identity on the int16 range |
| GoStrings.TrimLeft | 08/tokenizer/tokenizer.go:31 | the result is a suffix of the input that starts with a non-space and has only spaces before it |
| GoStrings.TrimRight | 08/tokenizer/tokenizer.go:31 | the result is a prefix of the input that ends with a non-space and has only spaces after it |
| GoStrings.TrimSpace | 08/tokenizer/tokenizer.go:31 | the result is the infix after the leading spaces, empty or bounded by non-spaces on both ends |
| GoStrings.Split | 08/tokenizer/tokenizer.go:39 | splitting always yields at least one piece |
| GoStrings.JoinSplit | 08/tokenizer/tokenizer.go:39 | joining the pieces of a split with the separator gives back the input |
| GoStrings.SplitJoin | 08/tokenizer/tokenizer.go:39 | splitting a join of separator-free pieces gives back the pieces |
| GoStrings.SplitPiecesAvoidSeparator | 08/tokenizer/tokenizer.go:39 | no piece contains the separator |
| GoStrings.SplitCount | 07/main.go:110-111 | there is one more piece than occurrences of the separator |
| GoStrings.SplitAtSeparator | 06/parser/parser.go:293-302 | a string containing the separator splits into at least two pieces |
| GoStrings.SplitFirstPiece | 08/tokenizer/tokenizer.go:39 | a string not starting with the separator has a non-empty first piece starting with the same character |
| GoStrings.SplitHead | 08/tokenizer/tokenizer.go:57 | the first piece is the longest separator-free prefix |
| GoStrings.SplitLast | 07/main.go:125-128 | the last piece is the longest separator-free suffix |
| GoStrings.SplitWithoutSeparator | 07/main.go:120-128 | a string without the separator splits into itself alone |
| GoStrings.SplitSnoc | 07/main.go:120-128 | appending a separator and a separator-free piece appends that piece to the split |
| GoStrings.JoinSnoc | 07/main.go:122 | a join is the join of all but the last piece, the separator, then the last piece |
| GoStrings.BeforeComment | 08/tokenizer/tokenizer.go:57 | the text before the comment is a prefix of the line |
| GoStrings.BeforeCommentCutsAtFirstMarker | 08/tokenizer/tokenizer.go:56-58 | the kept prefix contains no "//", and the cut (if any) is at a "//" |
| GoStrings.NatToString | 08/codewriter/code_writer.go:183 | decimal text of a natural is non-empty, all digits, and has no leading zero |
| GoStrings.DigitsValueOfNatToString | 08/codewriter/code_writer.go:183 | the decimal text of n reads back as n |
| GoStrings.NatToStringInjective | 08/codewriter/code_writer.go:216 | distinct naturals have distinct decimal texts |
| GoStrings.Atoi | 08/parser/parser.go:183 | a parsed integer lies in the int64 range |
| GoStrings.AtoiRejectsNonNumbers | 08/parser/parser.go:183-188 | empty text and text with a non-digit (other than a leading sign) are rejected |
| GoStrings.AtoiItoa | 08/parser/parser.go:183 | the decimal text of an int64 parses back to it |
| GoStrings.ItoaInjective | 07/codewriter/code_writer.go:188 | distinct integers have distinct decimal texts |
| GoStrings.ItoaCharacters | 07/codewriter/code_writer.go:166 | decimal text is non-empty digits with at most a leading minus |
| Tokenizer.TrimCommentKeepsFirst | 08/tokenizer/tokenizer.go:56-58 | stripping the comment of a non-skipped trimmed line keeps its first character |
| Tokenizer.TokenizeEmptyIffSkipped | 08/tokenizer/tokenizer.go:28-36 | a line yields no tokens exactly when, trimmed, it is empty or starts with "//" |
| Tokenizer.FirstTokenNonEmpty | 08/tokenizer/tokenizer.go:31-39 | a non-skipped line yields a non-empty first token starting with the trimmed line's first character |
| Tokenizer.TokensJoinBack | 08/tokenizer/tokenizer.go:38-39 | the tokens of a non-skipped line joined by single spaces give back the trimmed, comment-stripped line, and no token holds a space |
| Tokenizer.AdjacentSpacesGiveEmptyToken | 08/tokenizer/tokenizer.go:39 | two adjacent spaces produce an empty token |
| Tokenizer.TokenizeJoined | 08/tokenizer/tokenizer.go:28-40 | words without spaces or slashes, written with single spaces, tokenize back to those words |
| Tokenizer.LineIsCommand | 08/tokenizer/tokenizer.go:42-58 | a line without surrounding spaces or slashes is neither skipped nor changed by trimming or comment removal |
| Tokenizer.TabDoesNotSeparate | 08/tokenizer/tokenizer.go:39 | a tab stays inside a token; only spaces separate |
| Tokenizer.Tokenizer.constructor | 08/tokenizer/tokenizer.go:17-22 | a new tokenizer holds no tokens |
| Tokenizer.Tokenizer.ReadNextCommand | 08/tokenizer/tokenizer.go:28-40 | the token list becomes the tokenization of the scanned line |
| Tokenizer.Tokenizer.HasMoreTokens | 08/tokenizer/tokenizer.go:60-62 | true exactly when tokens remain |
| Tokenizer.Tokenizer.NextToken | 08/tokenizer/tokenizer.go:64-74 | succeeds iff tokens remain; then returns the first token and keeps the rest in order; otherwise returns "" and changes nothing |
| VmParsing.ArithmeticCommandOf | 08/parser/parser.go:140-170 | each of the nine mnemonics yields the arithmetic variant whose literal is that mnemonic; anything else yields an invalid command carrying it |
| VmParsing.ParseOperands | 08/parser/parser.go:246-299 | on success the first token is the name, the second is the count's text and parses to the count, and the tokens after them are left for later |
| VmParsing.ParseOperandsFails | 08/parser/parser.go:256-298 | operand parsing is fatal exactly when a token is missing, the count is not an integer, or it is negative |
| VmParsing.ArgGuards | 08/parser/parser.go:40-57 | Arg1 fails exactly for C_RETURN and Arg2 succeeds exactly for push, pop, function and call, each returning the stored field |
| VmParsing.NatTextIsWord | 08/parser/parser.go:183 | the decimal text of a natural is a single token |
| VmParsing.WordAvoids | 08/tokenizer/tokenizer.go:39 | a word holds no space and no slash |
| VmParser08.ParseCommandType | 08/parser/parser.go:99-138 | every mnemonic maps to some command type, never to the reset value |
| VmParser08.ParseCommandTypeClassifies | 08/parser/parser.go:99-138 | case-sensitive classification, each direction: C_ARITHMETIC iff one of the nine mnemonics, each other type iff its mnemonic, UNKNOWN_COMMAND_TYPE iff none |
| VmParser08.MnemonicOfType | 08/parser/parser.go:99-138 | each recognised type comes only from its own mnemonic |
| VmParser08.TypesOfMnemonics | 08/parser/parser.go:103-135 | push, pop, label, goto, function, call and return map to their own types |
| VmParser08.DispatchIgnoresType | 08/parser/parser.go:79-96 | dispatch does not depend on the command type stored before it |
| VmParser08.BlankLineKeepsCommand | 08/parser/parser.go:66-73 | a line without tokens resets arg1 to "", arg2 to -1 and the type to "", and keeps the previous command |
| VmParser08.IfGotoAndUnknownKeepCommand | 08/parser/parser.go:79-96 | if-goto and unknown lines only set the type (C_IF or UNKNOWN), keep the previous command and consume no operand |
| VmParser08.StoredCommandMatchesType | 08/parser/parser.go:63-97 | after any dispatched line the stored command is a valid command of the reported type |
| VmParser08.DispatchedCommand | 08/parser/parser.go:79-96 | each dispatched type builds a command of that type |
| VmParser08.MemoryAccessOperands | 08/parser/parser.go:172-212 | push/pop is fatal iff a token is missing or the index is not a non-negative integer; otherwise arg1 is the segment as given, arg2 the index as int16, and the command carries both |
| VmParser08.FunctionCallOperands | 08/parser/parser.go:246-312 | return consumes no operand; function and call are fatal iff the name or a non-negative integer count is missing |
| VmParser08.FlowControlOperand | 08/parser/parser.go:214-244 | label and goto are fatal iff the label token is missing; otherwise they carry it verbatim |
| VmParser08.MnemonicIsWord | 08/parser/parser.go:99-138 | every mnemonic is a single token |
| VmParser08.WordsOfParseable | 08/parser/parser.go:63-97 | every word of a parseable command is a single token |
| VmParser08.TokenizeWords | 08/tokenizer/tokenizer.go:28-40 | the written text of a parseable command tokenizes back to its words |
| VmParser08.StepOnWords | 08/parser/parser.go:63-97 | parsing the words of a parseable command rebuilds that command, reports its type and consumes every token |
| VmParser08.StepOnArithmetic | 08/parser/parser.go:140-170 | an arithmetic line sets arg1 to the mnemonic, arg2 to -1 and stores the command |
| VmParser08.ArithmeticMnemonic | 08/parser/parser.go:140-170 | an arithmetic command's op classifies as arithmetic and rebuilds that command |
| VmParser08.StepOnMemoryAccess | 08/parser/parser.go:172-212 | a push/pop line sets arg1 to the segment and arg2 to the index |
| VmParser08.StepOnFlowControl | 08/parser/parser.go:214-244 | a label/goto line sets arg1 to the label and keeps arg2 |
| VmParser08.StepOnFunctionCall | 08/parser/parser.go:246-312 | function/call set arg1 and arg2 to name and count; return keeps both |
| VmParser08.ParseWrittenCommand | 08/parser/parser.go:63-97 | round trip: the written line of any parseable command parses back to that command |
| VmParser08.Parser.constructor | 08/parser/parser.go:22-26 | a new parser has empty fields and no command |
| VmParser08.Parser.CommandType | 08/parser/parser.go:36-38 | returns the stored type |
| VmParser08.Parser.Command | 08/parser/parser.go:59-61 | returns the stored command |
| VmParser08.Parser.Arg1 | 08/parser/parser.go:40-46 | fatal for return, otherwise the stored arg1 |
| VmParser08.Parser.Arg2 | 08/parser/parser.go:48-57 | the stored arg2 for push, pop, function and call, fatal otherwise |
| VmParser08.Parser.Advance | 08/parser/parser.go:32-34 | one line moves the parser's fields as the line step says, fatal exactly when the step is |
| VmParser08.Parser.ParseNextCommand | 08/parser/parser.go:63-97 | reads a line, resets on no tokens, classifies and dispatches; the new fields and remaining tokens are the step's |
| VmParser08.Parser.DispatchCommand | 08/parser/parser.go:79-96 | C_IF and UNKNOWN have no case and change nothing; the other types parse their operands exactly as the per-family parsing functions do, keeping type and command |
| VmParser08.Parser.ParseArithmeticCommand | 08/parser/parser.go:140-170 | sets arg1 and arg2 and returns the command the mnemonic names |
| VmParser08.Parser.ParseMemoryAccessCommand | 08/parser/parser.go:172-212 | consumes segment and index; fatal exactly when a token is missing or the index is not a non-negative integer, otherwise returns the push/pop command |
| VmParser08.Parser.ParseFlowControlCommand | 08/parser/parser.go:214-244 | consumes the label, fatal if missing, otherwise returns the label/goto command |
| VmParser08.Parser.ParseFunctionCallCommand | 08/parser/parser.go:246-312 | consumes name and count for function/call (fatal if bad), nothing for return |
| VmParser07.ParseCommandType | 07/parser/parser.go:88-115 | only arithmetic, push, pop or UNKNOWN come out |
| VmParser07.ParseCommandTypeRestricts | 07/parser/parser.go:88-115 | the 07 classification is the 08 one restricted to arithmetic, push and pop; everything else is UNKNOWN |
| VmParser07.PopOnlySetsType | 07/parser/parser.go:76-85 | a pop line sets only the type to C_POP, consumes no operand and keeps arg1, arg2 and the command |
| VmParser07.StoredCommandsAreArithmeticOrPush | 07/parser/parser.go:79-85 | the 07 parser only ever stores arithmetic or push commands |
| VmParser07.AgreesWith08 | 07/parser/parser.go:117-183 | on arithmetic and push lines the 07 parser behaves exactly as the 08 parser |
| VmParser07.MemoryAccess07IsShared | 07/parser/parser.go:149-183 | push operand parsing is the same as in the 08 parser |
| VmParser07.Parser.constructor | 07/parser/parser.go:22-26 | a new parser has empty fields and no command |
| VmParser07.Parser.CommandType | 07/parser/parser.go:36-38 | returns the stored type |
| VmParser07.Parser.Command | 07/parser/parser.go:59-61 | returns the stored command |
| VmParser07.Parser.Arg1 | 07/parser/parser.go:40-46 | fatal for return, otherwise the stored arg1 |
| VmParser07.Parser.Arg2 | 07/parser/parser.go:48-57 | the stored arg2 for push, pop, function and call, fatal otherwise |
| VmParser07.Parser.Advance | 07/parser/parser.go:32-34 | one line moves the fields as the 07 step says |
| VmParser07.Parser.ParseNextCommand | 07/parser/parser.go:63-86 | blank lines reset, arithmetic and push store a command, pop and unknown only set the type |
| VmParser07.Parser.ParseArithmeticCommand | 07/parser/parser.go:117-147 | sets arg1 to the mnemonic, arg2 to -1, returns the command it names |
| VmParser07.Parser.ParseMemoryAccessCommand | 07/parser/parser.go:149-183 | push with a missing, non-integer or negative index is fatal; otherwise the push command with the int16 index |
| FileWriting.Stem | 07/codewriter/file_writer.go:16-27 | the stem is the longest prefix without '.', ended by a '.' in the name if shorter |
| FileWriting.StemCases | 07/codewriter/file_writer.go:16-27 | the stem is the whole name iff it has no '.', and a leading "./" gives the empty stem |
| FileWriting.Buffer.constructor | 07/codewriter/file_writer.go:16-27 | a new buffer is empty |
| FileWriting.Buffer.WriteString | 07/codewriter/file_writer.go:39-44 | appends the line verbatim |
| FileWriting.Buffer.Flush | 07/codewriter/file_writer.go:50-57 | hands over everything buffered, in order, and empties the buffer |
| FileWriting.FileWriter.constructor | 07/codewriter/file_writer.go:16-27 | creates the named file empty, with an empty buffer and the name's stem for statics |
| FileWriting.FileWriter.ChangeFile | 07/codewriter/file_writer.go:29-37 | creates the new file with a fresh buffer, keeps the first stem and leaves the old buffer unflushed |
| FileWriting.FileWriter.WriteString | 07/codewriter/file_writer.go:39-44 | appends the line to the buffer and changes nothing else |
| FileWriting.FileWriter.FileNameWithoutExtension | 07/codewriter/file_writer.go:46-48 | returns the stored stem unchanged |
| FileWriting.FileWriter.Close | 07/codewriter/file_writer.go:50-57 | the buffered lines are appended to the current file, and the buffer is empty |
| CodeWriter07.OperatorOfMnemonics | 07/codewriter/code_writer.go:41-130 | an op literal has an arithmetic case iff it is one of the nine mnemonics |
| CodeWriter07.SegmentOfNames | 07/codewriter/code_writer.go:163-192 | a segment has a case iff it is one of the eight segment names; constant only for "constant" |
| CodeWriter07.LabelsUsedByComparisonsOnly | 07/codewriter/code_writer.go:57-113 | the label counter moves by one for eq, gt and lt and by nothing otherwise; commands that do not move it write the same lines whatever the counter |
| CodeWriter07.DefinedLabelsAppend | 07/codewriter/code_writer.go:57-113 | helper for the label lemmas: the labels defined by output written in sequence are those of each part, in order |
| CodeWriter07.PlainDefinesNothing | 07/codewriter/code_writer.go:148-161 | lines none of which starts with '(' define no label |
| CodeWriter07.EqTestLabels | 07/codewriter/code_writer.go:57-71 | the eq test defines exactly its FALSE label |
| CodeWriter07.CompareJoinLabels | 07/codewriter/code_writer.go:72-92 | the join of gt/lt defines exactly TRUE then FALSE |
| CodeWriter07.LabelTextInjective | 07/codewriter/code_writer.go:58-74 | two comparison labels with the same text are the same label (kind and number) |
| CodeWriter07.ArithmeticLabels | 07/codewriter/code_writer.go:41-130 | an arithmetic case defines exactly its comparison labels, and eq/gt/lt reference the FALSE (and gt/lt the TRUE) label they define |
| CodeWriter07.EqLabels | 07/codewriter/code_writer.go:57-71 | eq defines FALSE<n> and jumps to it |
| CodeWriter07.PlainOperatorLabels | 07/codewriter/code_writer.go:43-56 | add, sub, neg, and, or and not define no label |
| CodeWriter07.CompareLabels | 07/codewriter/code_writer.go:72-113 | gt and lt define TRUE<n> then FALSE<n> and reference both |
| CodeWriter07.RunLast | 07/codewriter/code_writer.go:22-39 | the output of a run of WriteAssembly calls is the output of all but the last, then the last with the counter the earlier ones left |
| CodeWriter07.AssemblyRunSnoc | 07/codewriter/code_writer.go:22-39 | one more WriteAssembly appends its lines at the current counter and moves the counter by its own amount |
| CodeWriter07.CommandDefines | 07/codewriter/code_writer.go:22-39 | one command defines exactly its comparison labels, all numbered with the current counter, at most two and distinct |
| CodeWriter07.PushPopDefinesNothing | 07/codewriter/code_writer.go:132-141 | push and pop define no label |
| CodeWriter07.RunDefinesItsLabels | 07/codewriter/code_writer.go:22-39 | a whole run defines exactly the comparison labels of its commands, in order |
| CodeWriter07.RunLabelsNumbered | 07/codewriter/code_writer.go:57-113 | a run's labels are numbered within the counter range it used, and no label repeats |
| CodeWriter07.LabelsAppendDistinct | 07/codewriter/code_writer.go:57-113 | distinct earlier labels plus distinct labels with a newer number stay distinct |
| CodeWriter07.RunDefinesEachLabelOnce | 07/codewriter/code_writer.go:57-113 | no label is defined twice in the output of any run of commands |
| CodeWriter07.SpDeltaAppend | 07/codewriter/code_writer.go:148-161 | stack-pointer steps of concatenated closed blocks add up |
| CodeWriter07.StackBlocksSteps | 07/codewriter/code_writer.go:148-161 | pop() lowers SP by one and push() raises it by one |
| CodeWriter07.PushFromMemorySteps | 07/codewriter/code_writer.go:204-209 | pushFromMemory raises SP by one |
| CodeWriter07.LoadToMemorySteps | 07/codewriter/code_writer.go:238-252 | loadToMemory lowers SP by one |
| CodeWriter07.PushSteps | 07/codewriter/code_writer.go:163-192 | a push to a known segment raises SP by one; an unknown segment writes nothing |
| CodeWriter07.PopSteps | 07/codewriter/code_writer.go:211-236 | a pop to a known segment other than constant lowers SP by one; pop to constant or an unknown segment writes nothing |
| CodeWriter07.CompareSteps | 07/codewriter/code_writer.go:72-113 | gt and lt lower SP by one |
| CodeWriter07.ArithmeticSteps | 07/codewriter/code_writer.go:41-130 | every binary operator and not lower SP by one; neg and unknown ops leave it |
| CodeWriter07.OperatorSteps | 07/codewriter/code_writer.go:41-130 | the same, case by case over the operators |
| CodeWriter07.NotSteps | 07/codewriter/code_writer.go:124-128 | not pops first, so it lowers SP by one (unlike neg) |
| CodeWriter07.EqSteps | 07/codewriter/code_writer.go:57-71 | eq lowers SP by one |
| CodeWriter07.CommandSteps | 07/codewriter/code_writer.go:22-39 | each command's output moves SP by the command's stack effect |
| CodeWriter07.ArithmeticCommandOps | 07/codewriter/code_writer.go:41-130 | an arithmetic command pops one word iff it is not neg |
| CodeWriter07.RunSteps | 07/codewriter/code_writer.go:22-39 | the output of a run moves SP by the sum of the commands' stack effects |
| CodeWriter07.StaticAddresses | 07/codewriter/code_writer.go:187-234 | push and pop static use the same address text, and distinct indexes give distinct addresses |
| CodeWriter07.CodeWriter.constructor | 07/codewriter/code_writer.go:14-16 | a new writer has counter 0, an empty output and the file's stem |
| CodeWriter07.CodeWriter.SetFileName | 07/codewriter/code_writer.go:18-20 | switches the output file and keeps the first stem |
| CodeWriter07.CodeWriter.Close | 07/codewriter/code_writer.go:143-145 | flushes the buffered lines into the current file |
| CodeWriter07.CodeWriter.WriteAssembly | 07/codewriter/code_writer.go:22-39 | appends the command's lines at the current counter and moves the counter by the command's label use, so a sequence of calls writes AssemblyRun, which defines no label twice (RunDefinesEachLabelOnce) and moves SP by the commands' stack effects (RunSteps) |
| CodeWriter07.CodeWriter.WriteArithmetic | 07/codewriter/code_writer.go:41-130 | appends the operator's lines and moves the counter only for comparisons |
| CodeWriter07.CodeWriter.WritePushPop | 07/codewriter/code_writer.go:132-141 | appends push or pop lines for the command's segment and index |
| CodeWriter07.CodeWriter.Pop | 07/codewriter/code_writer.go:148-153 | appends the pop block, which lowers SP by one (StackBlocksSteps) |
| CodeWriter07.CodeWriter.Push | 07/codewriter/code_writer.go:155-161 | appends the push block, which raises SP by one (StackBlocksSteps) |
| CodeWriter07.CodeWriter.WritePush | 07/codewriter/code_writer.go:163-192 | appends the segment's push lines: constant loads the index, base segments add it to the base, static writes M=D as written |
| CodeWriter07.CodeWriter.GetSegmentDataFromMemory | 07/codewriter/code_writer.go:194-197 | loads the base register |
| CodeWriter07.CodeWriter.GetDataByMemoryAddress | 07/codewriter/code_writer.go:199-202 | loads the fixed address |
| CodeWriter07.CodeWriter.PushFromMemory | 07/codewriter/code_writer.go:204-209 | pushes RAM[base+index] |
| CodeWriter07.CodeWriter.WritePop | 07/codewriter/code_writer.go:211-236 | appends the segment's pop lines; constant and unknown segments write nothing |
| CodeWriter07.CodeWriter.LoadToMemory | 07/codewriter/code_writer.go:238-252 | parks base+index in RAM[13] before popping, then stores through it |
| CodeWriter08.FirstDollarOfLabel | 08/codewriter/code_writer.go:396-398 | when the function name has no '$', the first '$' of a scoped label is right after it |
| CodeWriter08.ScopedLabels | 08/codewriter/code_writer.go:396-398 | for '$'-free function names, two scoped labels are equal iff function and label are |
| CodeWriter08.BranchTargets | 08/codewriter/code_writer.go:167-180 | label defines exactly function$label; goto and if-goto reference it and define nothing |
| CodeWriter08.ReturnLabelsDistinct | 08/codewriter/code_writer.go:183-217 | within one function, return labels are equal iff their call numbers are |
| CodeWriter08.ReturnLabelCollision | 08/codewriter/code_writer.go:183 | across functions they can collide: f1 call 0 and f call 10 give the same label |
| CodeWriter08.CallDefinesItsReturn | 08/codewriter/code_writer.go:182-218 | a call pushes @return label first, jumps to the function, and ends by defining that same label, its only definition |
| CodeWriter08.CallSteps | 08/codewriter/code_writer.go:182-218 | a call's lines raise SP by five |
| CodeWriter08.FrameSteps | 08/codewriter/code_writer.go:186-197 | saving the frame pushes four words |
| CodeWriter08.SaveSteps | 08/codewriter/code_writer.go:186-188 | saving one register pushes one word |
| CodeWriter08.RepositionStill | 08/codewriter/code_writer.go:198-213 | repositioning ARG and LCL leaves SP |
| CodeWriter08.TargetsAppend | 08/codewriter/code_writer.go:182-218 | register reads and writes of concatenated blocks are those of each block in order |
| CodeWriter08.SaveTargets | 08/codewriter/code_writer.go:186-188 | saving a register reads that register and writes none |
| CodeWriter08.FrameTargets | 08/codewriter/code_writer.go:186-197 | the frame reads LCL, ARG, THIS, THAT in that order and writes none |
| CodeWriter08.RepositionTargets | 08/codewriter/code_writer.go:198-213 | repositioning writes ARG then LCL, reading SP for each |
| CodeWriter08.CallTargets | 08/codewriter/code_writer.go:182-218 | a call reads LCL, ARG, THIS, THAT, SP, SP and writes ARG then LCL |
| CodeWriter08.CallReads | 08/codewriter/code_writer.go:182-218 | the registers a call reads, in order |
| CodeWriter08.CallAssigns | 08/codewriter/code_writer.go:182-218 | the registers a call writes, in order |
| CodeWriter08.RestoreAllTargets | 08/codewriter/code_writer.go:243-266 | the restore writes THAT, THIS, ARG, LCL in that order |
| CodeWriter08.ReturnTargets | 08/codewriter/code_writer.go:220-270 | return writes R13, R14 (the return address, loaded before the pop), then THAT, THIS, ARG, LCL, reads LCL and ARG, and defines no label |
| CodeWriter08.ReturnPlain | 08/codewriter/code_writer.go:220-270 | return lines define no label |
| CodeWriter08.ZeroLocalsShape | 08/codewriter/code_writer.go:276-282 | the loop writes exactly count copies of the five-line zero push |
| CodeWriter08.ZeroLocalsSteps | 08/codewriter/code_writer.go:276-282 | the loop raises SP by the count and defines no label |
| CodeWriter08.FunctionDefines | 08/codewriter/code_writer.go:272-283 | a function defines only its name, has 1+5k lines for k locals (none if the count is negative) and raises SP by k |
| CodeWriter08.SilentCommands | 08/codewriter/code_writer.go:24-63 | WriteAssembly writes nothing for goto, if-goto, function, call, return and invalid commands; labels write the scoped label; the rest writes as in project 07 |
| CodeWriter08.CodeWriter.constructor | 08/codewriter/code_writer.go:16-18 | a new writer has both counters 0, no current function and empty output |
| CodeWriter08.CodeWriter.SetFileName | 08/codewriter/code_writer.go:20-22 | switches the output file and keeps the first stem |
| CodeWriter08.CodeWriter.Close | 08/codewriter/code_writer.go:285-288 | flushes the buffered lines into the current file |
| CodeWriter08.CodeWriter.WriteAssembly | 08/codewriter/code_writer.go:24-63 | appends the command's lines; only comparisons move the label counter; the function and call counter are untouched |
| CodeWriter08.CodeWriter.WriteArithmetic | 08/codewriter/code_writer.go:65-154 | appends the operator's lines, moves the counter only for comparisons |
| CodeWriter08.CodeWriter.WritePushPop | 08/codewriter/code_writer.go:156-165 | appends push or pop lines for the segment and index |
| CodeWriter08.CodeWriter.WriteLabel | 08/codewriter/code_writer.go:167-169 | appends the definition of function$label |
| CodeWriter08.CodeWriter.WriteGo | 08/codewriter/code_writer.go:171-174 | appends the jump to function$label |
| CodeWriter08.CodeWriter.WriteIf | 08/codewriter/code_writer.go:176-180 | appends pop then a jump to function$label when D is non-zero |
| CodeWriter08.CodeWriter.WriteCall | 08/codewriter/code_writer.go:182-218 | appends the call for the current function and call number, then advances the call number by one only; the call raises SP by five (CallSteps) and defines its own return label, distinct from earlier calls of the same function (CallDefinesItsReturn, ReturnLabelsDistinct) |
| CodeWriter08.CodeWriter.WriteReturn | 08/codewriter/code_writer.go:220-270 | appends the return sequence and changes no field; it restores THAT, THIS, ARG, LCL from the frame and defines no label (ReturnTargets) |
| CodeWriter08.CodeWriter.WriteFunction | 08/codewriter/code_writer.go:272-283 | sets the current function and resets the call number, then appends the function label and the zero pushes; the label counter is untouched |
| CodeWriter08.CodeWriter.Pop | 08/codewriter/code_writer.go:290-295 | appends the pop block, which lowers SP by one |
| CodeWriter08.CodeWriter.Push | 08/codewriter/code_writer.go:297-303 | appends the push block, which raises SP by one |
| CodeWriter08.CodeWriter.WritePush | 08/codewriter/code_writer.go:305-334 | appends the segment's push lines, static writing M=D as written |
| CodeWriter08.CodeWriter.GetSegmentDataFromMemory | 08/codewriter/code_writer.go:336-339 | loads the base register |
| CodeWriter08.CodeWriter.GetDataByMemoryAddress | 08/codewriter/code_writer.go:341-344 | loads the fixed address |
| CodeWriter08.CodeWriter.PushFromMemory | 08/codewriter/code_writer.go:346-351 | pushes RAM[base+index] |
| CodeWriter08.CodeWriter.WritePop | 08/codewriter/code_writer.go:353-378 | appends the segment's pop lines; constant and unknown segments write nothing |
| CodeWriter08.CodeWriter.LoadToMemory | 08/codewriter/code_writer.go:380-394 | parks base+index in RAM[13] before popping, then stores through it |
| HackParser.CommandText | 06/parser/parser.go:122-134 | the command of a non-skipped line is non-empty and starts as the trimmed line does |
| HackParser.CommandTypeOf | 06/parser/parser.go:238-247 | every command gets one of A, L, C |
| HackParser.ParseSymbol | 06/parser/parser.go:249-259 | succeeds iff the command is not a C instruction; A gives the text after '@', L the text between the parentheses, C the can't-parse error |
| HackParser.SymbolAfter | 06/parser/parser.go:261-269 | the symbol becomes the parsed one, or stays as it was when parsing fails |
| HackParser.SplitJumpPart | 06/parser/parser.go:299-302 | comp;jump splits into comp and jump |
| HackParser.SplitDestPart | 06/parser/parser.go:293-297 | dest=rest splits into dest and rest |
| HackParser.SplitInstructionRoundTrip | 06/parser/parser.go:286-310 | writing dest, comp and jump as an instruction and splitting it gives them back, missing parts as "" |
| HackParser.BinaryDigits | 06/parser/parser.go:283 | binary digits of a natural are non-empty bits with no leading zero |
| HackParser.ZeroPad | 06/parser/parser.go:283 | padding reaches the width unless the text is already longer |
| HackParser.FormatBinary16 | 06/parser/parser.go:283 | the %016b text is at least 16 characters |
| HackParser.BinaryStringToByteArray | 06/parser/parser.go:277-284 | fatal exactly when the text is not an integer, otherwise its %016b text |
| HackParser.BinaryValueOfDigits | 06/parser/parser.go:283 | binary digits of n read back as n |
| HackParser.LeadingZerosAddNothing | 06/parser/parser.go:283 | zero padding keeps the value |
| HackParser.DigitsFit | 06/parser/parser.go:283 | n below 2^k needs at most k digits |
| HackParser.DigitsExceed | 06/parser/parser.go:283 | n at least 2^k needs more than k digits |
| HackParser.BinaryWord | 06/parser/parser.go:277-284 | for 0 <= n < 65536 the A-instruction word is 16 bits whose binary value is n |
| HackParser.AddressRange | 06/parser/parser.go:283 | below 2^15 the word starts with 0, from 2^15 with 1, and from 2^16 it is longer than 16 |
| HackParser.NegativeOperand | 06/parser/parser.go:283 | a negative operand gives a minus sign, not a two's-complement word |
| HackParser.CCodeLayout | 06/parser/parser.go:312-342 | the C word exists iff each non-empty part is in its table; with full tables it is 16 bits: 111, comp, dest (null0 if empty), jump (null if empty) |
| HackParser.CCodeInjective | 06/parser/parser.go:312-342 | with injective tables, different instructions give different words |
| HackParser.EmptyCompShortWord | 06/parser/parser.go:322-325 | an empty comp is let through and gives a 9-bit word |
| HackParser.SkippedLine | 06/parser/parser.go:122-132 | a skipped line only clears symbol and binary code, in both phases |
| HackParser.Phase1CommandEffect | 06/parser/parser.go:134-166 | phase 1: A and C count one instruction; L records its label at the current count and counts nothing |
| HackParser.Phase1Effect | 06/parser/parser.go:122-167 | the same per line, and phase 1 never fails |
| HackParser.LineKind | 06/parser/parser.go:238-259 | a line is an instruction iff it is not a label, and a label line names its symbol |
| HackParser.Phase1Accessors | 06/parser/parser.go:69-103 | after phase 1 the accessors report the line's type, symbol and C parts; they fail otherwise |
| HackParser.NumericOperand | 06/parser/parser.go:191-198 | a numeric A operand is encoded directly |
| HackParser.SymbolicOperand | 06/parser/parser.go:200-216 | a known symbol uses its address; an unknown one gets the address counter, is inserted, and the counter moves by one |
| HackParser.AInstructionEffect | 06/parser/parser.go:185-216 | an A instruction keeps phase, count, type and every existing symbol, and writes a word |
| HackParser.Phase2CommandEffect | 06/parser/parser.go:169-232 | phase 2 keeps phase, count and existing symbols, and writes a word iff the line is not a label |
| HackParser.Phase2Effect | 06/parser/parser.go:169-232 | the same per line |
| HackParser.Run1Append | 06/parser/parser.go:122-167 | phase 1 over two parts is phase 1 over the first then the second |
| HackParser.Run1Counts | 06/parser/parser.go:138-166 | phase 1 counts exactly the instructions and allocates nothing |
| HackParser.Run1KeepsLabel | 06/parser/parser.go:146-159 | a name no line declares keeps its entry through phase 1 |
| HackParser.LabelAddress | 06/parser/parser.go:146-159 | a label's address is the number of instructions before its last declaration |
| HackParser.EmittedPrefix | 06/parser/parser.go:169-232 | the words of a prefix are a prefix of the words of the whole |
| HackParser.EmittedCount | 06/parser/parser.go:169-232 | phase 2 emits one word per instruction and keeps existing symbols |
| HackParser.RewoundLabel | 06/parser/parser.go:109-120 | after rewinding, a label maps to the number of instructions before it |
| HackParser.EmittedBefore | 06/parser/parser.go:169-232 | the words before a line number exactly the instructions before it |
| HackParser.LabelIsWordIndex | 06/parser/parser.go:146-224 | a label's address is the index of the word of the instruction that follows it, and phase 2 keeps it |
| HackParser.BoundKeys | 06/parser/parser.go:200-208 | allocation adds only the allocated names |
| HackParser.BoundLookup | 06/parser/parser.go:200-208 | binding distinct names one after another gives the i-th name the address base + i |
| HackParser.NewVariablesDistinct | 06/parser/parser.go:200-208 | fresh variables are pairwise distinct |
| HackParser.AddressWords | 06/parser/parser.go:200-216 | one word per allocated address |
| HackParser.FreshVariableStep | 06/parser/parser.go:200-216 | an unknown symbol gets the address counter, which then moves by one |
| HackParser.VariableStep | 06/parser/parser.go:200-216 | allocating one more variable keeps the variables consecutive |
| HackParser.EmittedSnoc | 06/parser/parser.go:169-232 | a line that writes a word appends it |
| HackParser.ConsecutiveSnoc | 06/parser/parser.go:200-216 | a new variable line extends the consecutive allocation |
| HackParser.ConsecutiveRun | 06/parser/parser.go:200-216 | a run of new variables is allocated consecutively |
| HackParser.ConsecutiveVariables | 06/parser/parser.go:200-216 | a run of new variables gets consecutive addresses starting at the address counter, the counter moves past them, and the words emitted are exactly those addresses in %016b form |
| HackParser.Parser.constructor | 06/parser/parser.go:42-51 | a new parser is in phase 1 with line count 0, address counter 16 and the predefined symbols |
| HackParser.Parser.HasMoreCommands | 06/parser/parser.go:53-55 | true iff lines remain; it reads the next one and changes no field |
| HackParser.Parser.Advance | 06/parser/parser.go:57-63 | one line moves the fields as the phase's step says, fatal exactly when it is |
| HackParser.Parser.CommandType | 06/parser/parser.go:65-67 | returns the stored type |
| HackParser.Parser.Symbol | 06/parser/parser.go:69-79 | the symbol for A and L, an error for C |
| HackParser.Parser.Dest | 06/parser/parser.go:81-87 | dest for C, an error otherwise |
| HackParser.Parser.Comp | 06/parser/parser.go:89-95 | comp for C, an error otherwise |
| HackParser.Parser.Jump | 06/parser/parser.go:97-103 | jump for C, an error otherwise |
| HackParser.Parser.BinaryCode | 06/parser/parser.go:105-107 | returns the stored word |
| HackParser.Parser.Rewind | 06/parser/parser.go:109-120 | starts the input again and enters phase 2, keeping every other field |
| HackParser.Parser.ParseNextOnPhase1 | 06/parser/parser.go:122-167 | phase 1 on the current line |
| HackParser.Parser.ParseNextOnPhase2 | 06/parser/parser.go:169-232 | phase 2 on the current line |
| HackParser.Parser.LookUpOrAllocate | 06/parser/parser.go:200-208 | a known symbol's address, or the counter for a new one, which is recorded |
| HackParser.Parser.SetCommandType | 06/parser/parser.go:238-247 | sets the type from the first (and last) character |
| HackParser.Parser.SetSymbol | 06/parser/parser.go:261-269 | sets the parsed symbol, or keeps the old one on failure |
| HackParser.Parser.SetBinaryCodeWhenAInstruction | 06/parser/parser.go:271-275 | the word of the text after '@', fatal if it is not an integer |
| HackParser.Parser.SetDestCompJump | 06/parser/parser.go:286-310 | stores the split dest, comp and jump |
| HackParser.Parser.SetBinaryCodeWhenCInstruction | 06/parser/parser.go:312-342 | stores the C word, fatal when a non-empty part is not in its table |
| VmMain.CheckFileFormatIff | 07/main.go:109-112 | the format check holds iff the name ends with the format, with a '.' before it or as the whole name |
| VmMain.ValidateFileFormat | 07/main.go:30-35 | fails exactly when the format check fails |
| VmMain.ValidateOptions | 07/main.go:15-28 | passes iff exactly one of -dir and -file is given (and a -file name ends in vm); both empty and both set are the two errors |
| VmMain.AssemblyNameOfPieces | 07/main.go:114-118 | the assembly name is dir, separator, all dot-pieces but the last run together, then .asm |
| VmMain.AssemblyNameOfVmFile | 07/main.go:114-118 | Stem.vm becomes dir/Stem.asm |
| VmMain.AssemblyNameWithoutDot | 07/main.go:114-118 | a dotless name becomes dir/.asm |
| VmMain.FileLocRoundTrip | 07/main.go:120-128 | dir + "/" + file gives back a path with a '/', and a path without one is all file name |
| VmMain.FileModeInDirectory | 07/main.go:85-88 | -file dir/Stem.vm writes dir/Stem.asm |
| VmMain.FileModeBareName | 07/main.go:85-88 | -file Stem.vm writes separator + Stem.asm |
| VmMain.BareNameWritesToRoot | 07/main.go:85-88 | -file Prog.vm writes /Prog.asm |
| VmMain.IntendedNextToInput | 07/main.go:85-88 | corrected: the assembly file is written next to the input, for bare names too |
| VmMain.TrailingSeparatorIgnored | 07/main.go:45-48 | one trailing '/' or '\\' is dropped from the directory |
| VmMain.VmFiles | 07/main.go:50-51 | the files translated are exactly the entries that are not directories and end in vm, kept in the order of the listing |
| VmMain.DirModePairsFiles | 07/main.go:52-58 | in directory mode Stem.vm is read from and Stem.asm written to the trimmed directory |
| Translator07.Program | 07/main.go:92-102 | a program text has one line per command |
| Translator07.StepOnWritten | 07/parser/parser.go:63-86 | the 07 parser reads back the written text of any command it can build |
| Translator07.StepOnBlank | 07/parser/parser.go:66-73 | a line without tokens resets the fields and keeps the stored command |
| Translator07.BlankLineRepeatsCommand | 07/main.go:92-102 | as written, a blank or comment line after a command writes that command again, with the label counter past the first copy |
| Translator07.StepStoresNothing | 07/parser/parser.go:63-86 | a blank, comment, pop or unknown line never fails, keeps the stored command and reports neither C_ARITHMETIC nor C_PUSH |
| Translator07.LineWithoutCommandRepeats | 07/main.go:92-102 | as written, every blank, comment, pop or unknown line after a command writes that command again |
| Translator07.CommandThenPopLine | 07/main.go:92-102 | as written, a command followed by a pop line is written twice and no pop is written |
| Translator07.TranslateSnoc | 07/main.go:92-102 | one more line is one more pass of the loop, and a fatal error ends it |
| Translator07.LoopStepOnBlank | 07/main.go:92-102 | one pass over a blank line writes the stored command |
| Translator07.CommandThenBlankLine | 07/main.go:92-102 | a command followed by a blank line is written twice |
| Translator07.TranslateOne | 07/main.go:92-102 | a file of one command line is written as that command |
| Translator07.EmitCommand | 07/main.go:95-101 | a stored command is written at the current label counter, which then moves by its amount |
| Translator07.IntendedSkipsLineWithoutCommand | 07/main.go:92-102 | corrected: a blank, comment, pop or unknown line writes nothing and keeps counter and command |
| Translator07.IntendedWritesCommandOnce | 07/main.go:92-102 | corrected: a command line writes that command once |
| Translator07.IntendedTranslatesProgram | 07/main.go:92-102 | corrected: a file of commands is written as the run of WriteAssembly over those commands, in order, with the run's label count |

## Left out

- `bufio.Scanner`, `os.Open`, `os.Create`, `os.ReadDir` and file `Seek`: input is a sequence of lines and output a sequence of lines per file. The rewind fatals and the directory-read fatal have no counterpart.
- FileWriting.FileWriter.constructor: the source opens the file without truncating it, so a longer file left from an earlier run keeps its tail; the model's file starts empty.
- The disk effects of `fileWriter` (auto-flush of a full buffer, flush to disk): the buffer holds lines until `close`.
- `06/main.go`: flag parsing and file plumbing around the assembler parser. It is not part of this model.
- The `main` of `07/main.go`: the directory walk and file opening. Only its per-file loop is modelled, in `Translator07`, with the parser and writer as functions of the lines.
- The path separator (`os.PathSeparator`): a parameter.
- The `code` tables and `symbol.SymbolTable`: parameters (three partial maps and a map of predefined symbols), with no contents invented.
- `log.Fatalf` message texts: an error value names the cause. The text of `InvalidCommand.ErrorMessage` is modelled. The undefined `index` in two 08 parser messages is not.
- The Go type-assertion failure branches of `WriteAssembly` and `WritePushPop`: they cannot be reached once commands are one datatype.
- The runtime meaning of the emitted Hack code: the properties are about the text. The stack-pointer steps (`SpDelta`) and register reads and writes (`Targets`) are counted on that text.
- The 64-bit wrap of the `labelNumber` and `callNumber` counters: they are unbounded naturals.
- CodeWriter07.CommandSteps: stated for commands as the parser builds them (an arithmetic struct holds its own mnemonic), not for a hand-built struct whose Op names another operator.
- CodeWriter07.RunSteps: the same restriction, for every command of the run.
- HackParser.BinaryWord: stated for 0 <= n < 65536. Larger or negative operands are described separately by HackParser.AddressRange and HackParser.NegativeOperand.
- CodeWriter08.ReturnLabelsDistinct: return labels are unique only within one function. Across functions they can collide (CodeWriter08.ReturnLabelCollision), so no wider claim is made.
- Translator07.IntendedLoopStep: the corrected loop writes nothing for a pop line, because the 07 parser builds no pop command (its `C_POP` case is empty). Writing the pop would also need that missing parser case, which only the 08 parser has.
- HackParser.SymbolicOperand: requires the address to fit in int64, as `strconv.Itoa` of a Go `int` does.

## Findings

| source | as written | input that shows it | evidently intended | confidence | as-written member | corrected member |
|---|---|---|---|---|---|---|
| 07/main.go:85-88 | in `-file` mode the directory of a bare file name is "", and the separator is still put in front of the assembly name | `-file Prog.vm` writes `/Prog.asm`, at the filesystem root | write `Prog.asm` next to the input, in the current directory | medium; not executed | VmMain.BareNameWritesToRoot | VmMain.IntendedNextToInput |
| 07/main.go:92-102 | the loop writes `Command()` after every line; a blank or comment line keeps the parser's previous command, so that command is written again | `push constant 7` followed by an empty line writes the seven lines of the push twice | a line without a command writes nothing | low: the 07 tokenizer is not part of this model and is taken to behave like the 08 one; not executed | Translator07.CommandThenBlankLine | Translator07.IntendedTranslatesProgram |
| 07/main.go:92-102 | the 07 parser's `C_POP` case (07/parser/parser.go:84) is empty and an unknown line stores nothing either, so the loop writes the previous command again | `push constant 7` followed by `pop local 0` writes the push twice and no pop | a line the parser builds no command from writes nothing | medium: rests only on the first token being `pop` or unknown; not executed | Translator07.CommandThenPopLine | Translator07.IntendedSkipsLineWithoutCommand |
