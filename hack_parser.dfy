/** The parser of the Hack assembler (project 06). It reads the assembly file
    twice: in phase 1 it only counts instructions and records each label's
    address in the symbol table; in phase 2 it allocates variables from
    address 16 and produces the binary word of every A and C instruction. */
module HackParser {
  import opened Outcomes
  import opened GoStrings
  import Tokenizer

  /** `COMMAND_TYPE`; `NoCommand` is the empty value a new parser holds. */
  datatype CommandKind = NoCommand | A_COMMAND | C_COMMAND | L_COMMAND

  /** The causes of the parser's `log.Fatalf` calls. */
  datatype Fatal =
    | CantParseSymbol(command: string)
    | NotAnInteger(text: string)
    | UnknownDest(mnemonic: string)
    | UnknownComp(mnemonic: string, phase: int)
    | UnknownJump(mnemonic: string)

  /** The error an accessor returns when the current command has no such part. */
  datatype AccessError = InvalidCommandType(accessor: string, commandType: CommandKind)

  /** The mnemonic-to-bits tables of the `code` package, which the parser
      consults for C instructions. */
  datatype CodeTables = CodeTables(dest: map<string, string>, comp: map<string, string>, jump: map<string, string>)

  /** The dest, comp and jump parts of a C instruction. */
  datatype Mnemonics = Mnemonics(dest: string, comp: string, jump: string)

  /** Everything the parser object holds besides its input. */
  datatype Fields = Fields(
    commandType: CommandKind,
    symbol: string,
    dest: string,
    comp: string,
    jump: string,
    addressCounter: int,
    lineCounter: int,
    symbolTable: map<string, int>,
    phase: int,
    binaryCode: string)

  /** The state `New` creates: variables start at 16, labels count from 0,
      and the parser is in phase 1. */
  function Initial(predefined: map<string, int>): Fields
  {
    Fields(NoCommand, "", "", "", "", 16, 0, predefined, 1, "")
  }

  // ---------------------------------------------------------------------------
  // Reading one line

  /** A line is skipped when, trimmed, it is empty or a whole-line comment. */
  predicate Skipped(line: string) {
    Tokenizer.IsAbleToSkip(TrimSpace(line))
  }

  /** The command of a line that is not skipped: trimmed, cut at "//" and
      trimmed again. It is never empty and keeps the line's first character. */
  function CommandText(line: string): (command: string)
    requires !Skipped(line)
    ensures |command| > 0 && command[0] == TrimSpace(line)[0]
  {
    Tokenizer.TrimCommentKeepsFirst(TrimSpace(line));
    Tokenizer.TrimComment(TrimSpace(line))
  }

  /** `setCommandType`. */
  function CommandTypeOf(command: string): (t: CommandKind)
    requires |command| > 0
    ensures t != NoCommand
  {
    if command[0] == '@' then A_COMMAND
    else if command[0] == '(' && command[|command| - 1] == ')' then L_COMMAND
    else C_COMMAND
  }

  /** `parseSymbol`: the operand of an A instruction, the name inside a label
      declaration, and an error for anything else. */
  function ParseSymbol(command: string): (r: Result<string, Fatal>)
    requires |command| > 0
    ensures r.Ok? <==> CommandTypeOf(command) != C_COMMAND
    ensures r.Ok? && CommandTypeOf(command) == A_COMMAND ==> command == "@" + r.value
    ensures r.Ok? && CommandTypeOf(command) == L_COMMAND ==> command == "(" + r.value + ")"
    ensures r.Err? ==> r.error == CantParseSymbol(command)
  {
    if command[0] == '@' then
      assert command == "@" + command[1..];
      Ok(command[1..])
    else if command[0] == '(' && command[|command| - 1] == ')' then
      assert command == "(" + command[1..|command| - 1] + ")";
      Ok(command[1..|command| - 1])
    else Err(CantParseSymbol(command))
  }

  /** `setSymbol`: the symbol field after the command, which keeps its old
      value when the command has no symbol. */
  function SymbolAfter(command: string, previous: string): (s: string)
    requires |command| > 0
    ensures ParseSymbol(command).Ok? ==> s == ParseSymbol(command).value
    ensures ParseSymbol(command).Err? ==> s == previous
  {
    var s := if command[0] == '@' then command[1..] else previous;
    if command[0] == '(' && command[|command| - 1] == ')' then command[1..|command| - 1] else s
  }

  /** `setDestCompJumpWhenCInstruction`: dest is the text before the first
      '=', and the text between the first and the second '=' (or the whole
      command) is split at ';' into comp and jump. Missing parts are empty. */
  function SplitInstruction(command: string): Mnemonics
  {
    var dest := if '=' in command then (SplitAtSeparator(command, '='); Split(command, '=')[0]) else "";
    var rest := if '=' in command then (SplitAtSeparator(command, '='); Split(command, '=')[1]) else command;
    if ';' in rest then
      SplitAtSeparator(rest, ';');
      Mnemonics(dest, Split(rest, ';')[0], Split(rest, ';')[1])
    else Mnemonics(dest, rest, "")
  }

  /** The way the three parts are written in assembly: "dest=comp;jump",
      leaving out "dest=" and ";jump" when those parts are empty. */
  function InstructionText(m: Mnemonics): string
  {
    (if m.dest == "" then "" else m.dest + "=") + m.comp + (if m.jump == "" then "" else ";" + m.jump)
  }

  /** The comp-and-jump part of a written C instruction splits at its ';'. */
  lemma SplitJumpPart(comp: string, jump: string)
    requires ';' !in comp && ';' !in jump && jump != ""
    ensures ';' in comp + ";" + jump
    ensures Split(comp + ";" + jump, ';') == [comp, jump]
  {
    assert (comp + ";" + jump)[|comp|] == ';';
    assert Join([comp, jump], ";") == comp + ";" + jump;
    SplitJoin([comp, jump], ';');
  }

  /** The dest part of a written C instruction is cut off at its '='. */
  lemma SplitDestPart(dest: string, rest: string)
    requires '=' !in dest && '=' !in rest
    ensures '=' in dest + "=" + rest
    ensures Split(dest + "=" + rest, '=') == [dest, rest]
  {
    assert (dest + "=" + rest)[|dest|] == '=';
    assert Join([dest, rest], "=") == dest + "=" + rest;
    SplitJoin([dest, rest], '=');
  }

  /** Splitting a written C instruction gives back its parts. */
  lemma SplitInstructionRoundTrip(m: Mnemonics)
    requires '=' !in m.dest && '=' !in m.comp && '=' !in m.jump
    requires ';' !in m.comp && ';' !in m.jump
    ensures SplitInstruction(InstructionText(m)) == m
  {
    var d, c, j := m.dest, m.comp, m.jump;
    if d != "" && j != "" {
      assert InstructionText(m) == d + "=" + (c + ";" + j);
      SplitJumpPart(c, j);
      SplitDestPart(d, c + ";" + j);
    } else if j != "" {
      assert InstructionText(m) == c + ";" + j;
      SplitJumpPart(c, j);
    } else if d != "" {
      assert InstructionText(m) == d + "=" + c;
      SplitDestPart(d, c);
    } else {
      assert InstructionText(m) == c;
    }
  }

  // ---------------------------------------------------------------------------
  // Binary words

  /** The value stored for a missing key: Go's zero string. */
  function Find(m: map<string, string>, key: string): string
  {
    if key in m then m[key] else ""
  }

  predicate IsBit(c: char) {
    c == '0' || c == '1'
  }

  predicate AllBits(s: string) {
    forall i :: 0 <= i < |s| ==> IsBit(s[i])
  }

  /** The binary digits of a natural number, without leading zeros ("0" for 0). */
  function BinaryDigits(n: nat): (r: string)
    ensures |r| > 0 && AllBits(r)
    ensures r[0] == '0' ==> n == 0
  {
    if n < 2 then [if n == 0 then '0' else '1']
    else BinaryDigits(n / 2) + [if n % 2 == 0 then '0' else '1']
  }

  /** The value of a string of binary digits. */
  function BinaryValue(s: string): nat
    requires AllBits(s)
  {
    if |s| == 0 then 0
    else BinaryValue(s[..|s| - 1]) * 2 + (if s[|s| - 1] == '1' then 1 else 0)
  }

  function Pow2(k: nat): nat
  {
    if k == 0 then 1 else 2 * Pow2(k - 1)
  }

  /** Zero padding on the left up to `width` characters, as the `0` flag of
      Go's `fmt` does; a longer text is not cut. */
  function ZeroPad(s: string, width: nat): (r: string)
    ensures |r| == if |s| >= width then |s| else width
  {
    if |s| >= width then s else seq(width - |s|, _ => '0') + s
  }

  /** `fmt.Sprintf("%016b", i)`: a negative number keeps its sign in front of
      15 padded digits of its magnitude. */
  function FormatBinary16(i: int): (r: string)
    ensures |r| >= 16
  {
    if i < 0 then "-" + ZeroPad(BinaryDigits(-i), 15) else ZeroPad(BinaryDigits(i), 16)
  }

  /** `binaryStringToByteArray`: decimal text to a 16-digit binary word. */
  function BinaryStringToByteArray(command: string): (r: Result<string, Fatal>)
    ensures r.Err? <==> Atoi(command).None?
    ensures r.Ok? ==> r.value == FormatBinary16(Atoi(command).value)
  {
    match Atoi(command)
    case None => Err(NotAnInteger(command))
    case Some(i) => Ok(FormatBinary16(i))
  }

  lemma {:induction false} BinaryValueOfDigits(n: nat)
    ensures BinaryValue(BinaryDigits(n)) == n
  {
    if n >= 2 {
      BinaryValueOfDigits(n / 2);
      var r := BinaryDigits(n);
      assert r[..|r| - 1] == BinaryDigits(n / 2);
    }
  }

  lemma {:induction false} LeadingZerosAddNothing(k: nat, s: string)
    requires AllBits(s)
    ensures AllBits(seq(k, _ => '0') + s)
    ensures BinaryValue(seq(k, _ => '0') + s) == BinaryValue(s)
    decreases |s|, k
  {
    var z: string := seq(k, _ => '0');
    if |s| == 0 {
      assert z + s == z;
      if k > 0 {
        assert z[..k - 1] == seq(k - 1, _ => '0');
        LeadingZerosAddNothing(k - 1, "");
        assert seq(k - 1, _ => '0') + "" == z[..k - 1];
      }
    } else {
      LeadingZerosAddNothing(k, s[..|s| - 1]);
      assert (z + s)[..|z + s| - 1] == z + s[..|s| - 1];
    }
  }

  lemma {:induction false} DigitsFit(n: nat, k: nat)
    requires k >= 1 && n < Pow2(k)
    ensures |BinaryDigits(n)| <= k
  {
    if n >= 2 {
      DigitsFit(n / 2, k - 1);
    }
  }

  lemma {:induction false} DigitsExceed(n: nat, k: nat)
    requires n >= Pow2(k)
    ensures |BinaryDigits(n)| > k
  {
    if k > 0 {
      DigitsExceed(n / 2, k - 1);
    }
  }

  /** `binaryStringToByteArray` on a number of the 16-bit range yields exactly
      16 binary digits whose value is that number. */
  lemma BinaryWord(n: int)
    requires 0 <= n < 0x10000
    ensures BinaryStringToByteArray(Itoa(n)) == Ok(FormatBinary16(n))
    ensures |FormatBinary16(n)| == 16 && AllBits(FormatBinary16(n))
    ensures BinaryValue(FormatBinary16(n)) == n
  {
    AtoiItoa(n);
    assert Pow2(16) == 0x10000 by {
      assert Pow2(4) == 16;
      assert Pow2(8) == 256 by { assert Pow2(8) == 16 * Pow2(4); }
      assert Pow2(16) == 256 * Pow2(8) by {
        assert Pow2(12) == 16 * Pow2(8);
        assert Pow2(16) == 16 * Pow2(12);
      }
    }
    DigitsFit(n, 16);
    var d := BinaryDigits(n);
    LeadingZerosAddNothing(16 - |d|, d);
    BinaryValueOfDigits(n);
  }

  lemma Pow2Of15()
    ensures Pow2(15) == 0x8000
  {
    assert Pow2(5) == 32;
    assert Pow2(10) == 1024 by { assert Pow2(10) == 32 * Pow2(5) by {
      assert Pow2(10) == 2 * 2 * 2 * 2 * 2 * Pow2(5);
    } }
    assert Pow2(15) == 32 * Pow2(10) by {
      assert Pow2(15) == 2 * 2 * 2 * 2 * 2 * Pow2(10);
    }
  }

  /** Words of the A instructions with an address below 2^15 start with '0',
      as the Hack machine language requires; from 2^15 on the first digit is
      '1', so the word reads as a C instruction, and from 2^16 on the word is
      longer than 16 digits. */
  lemma AddressRange(n: nat)
    ensures n < 0x8000 ==> FormatBinary16(n)[0] == '0'
    ensures 0x8000 <= n ==> FormatBinary16(n)[0] == '1'
    ensures 0x10000 <= n ==> |FormatBinary16(n)| > 16
  {
    Pow2Of15();
    if n < 0x8000 {
      DigitsFit(n, 15);
    } else {
      DigitsExceed(n, 15);
      if 0x10000 <= n {
        assert Pow2(16) == 0x10000;
        DigitsExceed(n, 16);
      }
    }
  }

  /** A negative operand is printed with a minus sign, not in two's complement. */
  lemma NegativeOperand()
    ensures FormatBinary16(-1) == "-000000000000001"
  {
    assert BinaryDigits(1) == "1";
  }

  // ---------------------------------------------------------------------------
  // C instructions

  /** The dest bits, with "null0" standing in for an empty dest. */
  function DestCode(code: CodeTables, dest: string): string
  {
    if dest in code.dest then code.dest[dest] else Find(code.dest, "null0")
  }

  /** The jump bits, with "null" standing in for an empty jump. */
  function JumpCode(code: CodeTables, jump: string): string
  {
    if jump in code.jump then code.jump[jump] else Find(code.jump, "null")
  }

  /** `setBinaryCodeWhenCInstruction`: "111", then the comp, dest and jump
      bits. An unknown non-empty mnemonic is fatal, checked in the order dest,
      comp, jump; an empty comp that is not in the table contributes nothing. */
  function CCode(code: CodeTables, m: Mnemonics, phase: int): Result<string, Fatal>
  {
    if m.dest !in code.dest && m.dest != "" then Err(UnknownDest(m.dest))
    else if m.comp !in code.comp && m.comp != "" then Err(UnknownComp(m.comp, phase))
    else if m.jump !in code.jump && m.jump != "" then Err(UnknownJump(m.jump))
    else Ok("111" + Find(code.comp, m.comp) + DestCode(code, m.dest) + JumpCode(code, m.jump))
  }

  /** Every value of the table is a string of `width` binary digits. */
  predicate FixedWidth(m: map<string, string>, width: nat) {
    forall k :: k in m ==> |m[k]| == width && AllBits(m[k])
  }

  /** The tables of the Hack machine language: comp 7 bits, dest and jump
      3 bits, with entries for the "null0" dest and the "null" jump. */
  predicate HackTables(code: CodeTables) {
    FixedWidth(code.comp, 7) && FixedWidth(code.dest, 3) && FixedWidth(code.jump, 3)
    && "null0" in code.dest && "null" in code.jump
  }

  /** The C code fails exactly on an unknown non-empty mnemonic; with the
      Hack tables and a known comp it is a 16-digit word with the three
      fields at fixed positions. */
  lemma CCodeLayout(code: CodeTables, m: Mnemonics, phase: int)
    ensures CCode(code, m, phase).Ok? <==>
      (m.dest in code.dest || m.dest == "") && (m.comp in code.comp || m.comp == "") && (m.jump in code.jump || m.jump == "")
    ensures HackTables(code) && m.comp in code.comp && CCode(code, m, phase).Ok? ==>
      var w := CCode(code, m, phase).value;
      |w| == 16 && AllBits(w) && w[..3] == "111"
      && w[3..10] == code.comp[m.comp] && w[10..13] == DestCode(code, m.dest) && w[13..] == JumpCode(code, m.jump)
  {
    if HackTables(code) && m.comp in code.comp && CCode(code, m, phase).Ok? {
      var w := CCode(code, m, phase).value;
      var c, d, j := code.comp[m.comp], DestCode(code, m.dest), JumpCode(code, m.jump);
      assert w == "111" + c + d + j;
      assert w[..3] == "111" && w[3..10] == c && w[10..13] == d && w[13..] == j;
      assert forall i :: 0 <= i < 16 ==> IsBit(w[i]) by {
        forall i | 0 <= i < 16
          ensures IsBit(w[i])
        {
          if i < 3 {
          } else if i < 10 {
            assert w[i] == c[i - 3];
          } else if i < 13 {
            assert w[i] == d[i - 10];
          } else {
            assert w[i] == j[i - 13];
          }
        }
      }
    }
  }

  /** With injective tables, two C instructions whose parts are all in the
      tables get the same word only when they are the same instruction. */
  lemma CCodeInjective(code: CodeTables, m1: Mnemonics, m2: Mnemonics, phase: int)
    requires HackTables(code)
    requires forall a, b :: a in code.comp && b in code.comp && code.comp[a] == code.comp[b] ==> a == b
    requires forall a, b :: a in code.dest && b in code.dest && code.dest[a] == code.dest[b] ==> a == b
    requires forall a, b :: a in code.jump && b in code.jump && code.jump[a] == code.jump[b] ==> a == b
    requires m1.dest in code.dest && m1.comp in code.comp && m1.jump in code.jump
    requires m2.dest in code.dest && m2.comp in code.comp && m2.jump in code.jump
    ensures CCode(code, m1, phase) == CCode(code, m2, phase) ==> m1 == m2
  {
    CCodeLayout(code, m1, phase);
    CCodeLayout(code, m2, phase);
  }

  /** An instruction with an empty comp, such as "M=", is accepted and gets a
      word of only 9 digits. */
  lemma EmptyCompShortWord(code: CodeTables, dest: string, phase: int)
    requires HackTables(code) && "" !in code.comp && dest in code.dest
    ensures CCode(code, Mnemonics(dest, "", ""), phase).Ok?
    ensures |CCode(code, Mnemonics(dest, "", ""), phase).value| == 9
  {
  }

  // ---------------------------------------------------------------------------
  // Phase 1 and phase 2

  /** `parseNextOnPhase1`: a skipped line clears symbol and binary code;
      otherwise the command is classified and handled. */
  function Phase1(f: Fields, line: string): Result<Fields, Fatal>
  {
    if Skipped(line) then Ok(f.(symbol := "", binaryCode := ""))
    else Phase1Command(f, CommandText(line))
  }

  /** Phase 1 on a command: A and C instructions advance the instruction
      counter; a label declaration records the counter as the label's address. */
  function Phase1Command(f: Fields, command: string): Result<Fields, Fatal>
    requires |command| > 0
  {
    var g := f.(commandType := CommandTypeOf(command));
    match g.commandType
    case A_COMMAND =>
      Ok(g.(symbol := SymbolAfter(command, g.symbol), dest := "", comp := "", jump := "", lineCounter := g.lineCounter + 1))
    case L_COMMAND => LabelDeclared(g, command)
    case C_COMMAND =>
      var m := SplitInstruction(command);
      Ok(g.(symbol := "", dest := m.dest, comp := m.comp, jump := m.jump, lineCounter := g.lineCounter + 1))
    case NoCommand => Ok(g)
  }

  /** A label declaration binds the label to the instruction counter. */
  function LabelDeclared(g: Fields, command: string): Result<Fields, Fatal>
    requires |command| > 0
  {
    var h := g.(symbol := SymbolAfter(command, g.symbol), dest := "", comp := "", jump := "");
    match ParseSymbol(command)
    case Err(e) => Err(e)
    case Ok(sym) => Ok(h.(symbolTable := h.symbolTable[sym := h.lineCounter]))
  }

  /** The address of an A-instruction symbol: its entry, or the next
      variable address for a symbol not yet in the table. */
  function AddressOf(g: Fields, sym: string): int
  {
    if sym in g.symbolTable then g.symbolTable[sym] else g.addressCounter
  }

  /** The state after looking the symbol up: a new symbol is bound to the
      next variable address, which then advances. */
  function Allocated(g: Fields, sym: string): Fields
  {
    if sym in g.symbolTable then g
    else g.(symbolTable := g.symbolTable[sym := g.addressCounter], addressCounter := g.addressCounter + 1)
  }

  /** The A-instruction case of `parseNextOnPhase2`. A numeric operand is
      encoded directly and leaves every other field as it was; a symbol is
      looked up, or allocated at the next variable address. */
  function AInstruction(g: Fields, command: string): Result<Fields, Fatal>
    requires |command| > 0
  {
    match ParseSymbol(command)
    case Err(e) => Err(e)
    case Ok(sym) =>
      if Atoi(sym).Some? then
        (match BinaryStringToByteArray(command[1..])
         case Err(e) => Err(e)
         case Ok(b) => Ok(g.(binaryCode := b)))
      else SymbolicAInstruction(g, command, sym)
  }

  /** An A instruction whose operand is a symbol: the symbol is looked up, or
      allocated, and its address is encoded. */
  function SymbolicAInstruction(g: Fields, command: string, sym: string): Result<Fields, Fatal>
    requires |command| > 0
  {
    var h := Allocated(g, sym);
    var k := h.(symbol := SymbolAfter(command, h.symbol), dest := "", comp := "", jump := "");
    match BinaryStringToByteArray(Itoa(AddressOf(g, sym)))
    case Err(e) => Err(e)
    case Ok(b) => Ok(k.(binaryCode := b))
  }

  /** The C-instruction case of `parseNextOnPhase2`. */
  function CInstruction(code: CodeTables, g: Fields, command: string): Result<Fields, Fatal>
  {
    var m := SplitInstruction(command);
    var h := g.(symbol := "", dest := m.dest, comp := m.comp, jump := m.jump);
    match CCode(code, m, h.phase)
    case Err(e) => Err(e)
    case Ok(b) => Ok(h.(binaryCode := b))
  }

  /** `parseNextOnPhase2`: the binary word of an A or C instruction; labels
      and skipped lines leave an empty binary code. */
  function Phase2(code: CodeTables, f: Fields, line: string): Result<Fields, Fatal>
  {
    if Skipped(line) then Ok(f.(symbol := "", binaryCode := ""))
    else Phase2Command(code, f, CommandText(line))
  }

  function Phase2Command(code: CodeTables, f: Fields, command: string): Result<Fields, Fatal>
    requires |command| > 0
  {
    var g := f.(commandType := CommandTypeOf(command));
    match g.commandType
    case A_COMMAND => AInstruction(g, command)
    case L_COMMAND =>
      Ok(g.(symbol := SymbolAfter(command, g.symbol), dest := "", comp := "", jump := "", binaryCode := ""))
    case C_COMMAND => CInstruction(code, g, command)
    case NoCommand => Ok(g)
  }

  /** `Advance`: the step of the current phase; any other phase does nothing. */
  function Step(code: CodeTables, f: Fields, line: string): Result<Fields, Fatal>
  {
    if f.phase == 1 then Phase1(f, line)
    else if f.phase == 2 then Phase2(code, f, line)
    else Ok(f)
  }

  /** The accessors `Symbol`, `Dest`, `Comp` and `Jump`. */
  function SymbolOf(f: Fields): Result<string, AccessError>
  {
    if f.commandType == A_COMMAND || f.commandType == L_COMMAND then Ok(f.symbol)
    else Err(InvalidCommandType("Symbol", f.commandType))
  }

  function DestOf(f: Fields): Result<string, AccessError>
  {
    if f.commandType == C_COMMAND then Ok(f.dest) else Err(InvalidCommandType("Dest", f.commandType))
  }

  function CompOf(f: Fields): Result<string, AccessError>
  {
    if f.commandType == C_COMMAND then Ok(f.comp) else Err(InvalidCommandType("Comp", f.commandType))
  }

  function JumpOf(f: Fields): Result<string, AccessError>
  {
    if f.commandType == C_COMMAND then Ok(f.jump) else Err(InvalidCommandType("Jump", f.commandType))
  }

  // ---------------------------------------------------------------------------
  // What a line is

  /** The command type of a line; `NoCommand` for a skipped line. */
  function KindOf(line: string): CommandKind
  {
    if Skipped(line) then NoCommand else CommandTypeOf(CommandText(line))
  }

  /** A and C instructions are the lines that occupy an instruction address. */
  predicate IsInstruction(line: string) {
    KindOf(line) == A_COMMAND || KindOf(line) == C_COMMAND
  }

  /** The symbol of an A instruction or of a label declaration. */
  function SymbolOfLine(line: string): Option<string>
  {
    if KindOf(line) == A_COMMAND || KindOf(line) == L_COMMAND then Some(ParseSymbol(CommandText(line)).value)
    else None
  }

  /** The label a line declares, if it is a label declaration. */
  function LabelOf(line: string): Option<string>
  {
    if KindOf(line) == L_COMMAND then SymbolOfLine(line) else None
  }

  /** How many instruction addresses the lines occupy. */
  function Instructions(lines: seq<string>): nat
  {
    if lines == [] then 0
    else Instructions(lines[..|lines| - 1]) + (if IsInstruction(lines[|lines| - 1]) then 1 else 0)
  }

  // ---------------------------------------------------------------------------
  // Properties of one step

  /** A skipped line changes only the symbol and the binary code, in both phases. */
  lemma SkippedLine(code: CodeTables, f: Fields, line: string)
    requires Skipped(line)
    ensures Phase1(f, line) == Ok(f.(symbol := "", binaryCode := ""))
    ensures Phase2(code, f, line) == Ok(f.(symbol := "", binaryCode := ""))
  {
  }

  /** Phase 1 never fails on a command. It advances the instruction counter
      except on a label declaration, which binds the label to the counter. */
  lemma Phase1CommandEffect(f: Fields, command: string)
    requires |command| > 0
    ensures Phase1Command(f, command).Ok?
    ensures var g := Phase1Command(f, command).value;
      var t := CommandTypeOf(command);
      g.lineCounter == f.lineCounter + (if t == L_COMMAND then 0 else 1)
      && g.symbolTable == (if t == L_COMMAND then f.symbolTable[ParseSymbol(command).value := f.lineCounter] else f.symbolTable)
      && g.addressCounter == f.addressCounter && g.phase == f.phase && g.binaryCode == f.binaryCode
  {
    match CommandTypeOf(command)
    case A_COMMAND =>
    case L_COMMAND =>
    case C_COMMAND =>
  }

  /** Phase 1 never fails. It advances the instruction counter exactly on an
      A or C instruction and changes the symbol table exactly on a label
      declaration, binding the label to the current counter. */
  lemma Phase1Effect(f: Fields, line: string)
    ensures Phase1(f, line).Ok?
    ensures var g := Phase1(f, line).value;
      g.lineCounter == f.lineCounter + (if IsInstruction(line) then 1 else 0)
      && g.symbolTable == (if LabelOf(line).Some? then f.symbolTable[LabelOf(line).value := f.lineCounter] else f.symbolTable)
      && g.addressCounter == f.addressCounter && g.phase == f.phase
      && g.binaryCode == (if Skipped(line) then "" else f.binaryCode)
  {
    if !Skipped(line) {
      Phase1CommandEffect(f, CommandText(line));
      LineKind(line);
    }
  }

  /** Whether a command line is an instruction or a label follows from the
      type of its command. */
  lemma LineKind(line: string)
    requires !Skipped(line)
    ensures var command := CommandText(line);
      var t := CommandTypeOf(command);
      (IsInstruction(line) <==> t != L_COMMAND)
      && (LabelOf(line).Some? <==> t == L_COMMAND)
      && (LabelOf(line).Some? ==> LabelOf(line).value == ParseSymbol(command).value)
  {
  }

  /** After phase 1 reads a line, the accessors report that line's parts. */
  lemma Phase1Accessors(f: Fields, line: string)
    requires !Skipped(line)
    ensures var g := Phase1(f, line).value;
      g.commandType == KindOf(line)
      && (SymbolOf(g).Ok? <==> SymbolOfLine(line).Some?)
      && (SymbolOfLine(line).Some? ==> SymbolOf(g).value == SymbolOfLine(line).value)
      && (KindOf(line) == C_COMMAND ==>
          var m := SplitInstruction(CommandText(line));
          DestOf(g) == Ok(m.dest) && CompOf(g) == Ok(m.comp) && JumpOf(g) == Ok(m.jump))
      && (KindOf(line) != C_COMMAND ==> DestOf(g).Err? && CompOf(g).Err? && JumpOf(g).Err?)
  {
    Phase1Effect(f, line);
  }

  /** A numeric operand is encoded directly. The symbol, dest, comp and jump
      fields keep the values of the previous command, and the symbol table
      and the variable counter are untouched. */
  lemma NumericOperand(code: CodeTables, f: Fields, line: string, operand: string)
    requires SymbolOfLine(line) == Some(operand) && KindOf(line) == A_COMMAND
    requires Atoi(operand).Some?
    ensures Phase2(code, f, line) == Ok(f.(commandType := A_COMMAND, binaryCode := FormatBinary16(Atoi(operand).value)))
  {
    var command := CommandText(line);
    assert command[1..] == operand;
  }

  /** A symbolic operand is encoded by its address. A symbol already in the
      table keeps its address; a new one is bound to the variable counter,
      which then advances by one. */
  lemma SymbolicOperand(code: CodeTables, f: Fields, line: string, name: string)
    requires SymbolOfLine(line) == Some(name) && KindOf(line) == A_COMMAND
    requires Atoi(name).None?
    requires var address := if name in f.symbolTable then f.symbolTable[name] else f.addressCounter;
      MinInt64 <= address <= MaxInt64
    ensures Phase2(code, f, line).Ok?
    ensures var g := Phase2(code, f, line).value;
      var address := if name in f.symbolTable then f.symbolTable[name] else f.addressCounter;
      g.symbolTable == f.symbolTable[name := address]
      && g.addressCounter == f.addressCounter + (if name in f.symbolTable then 0 else 1)
      && g.binaryCode == FormatBinary16(address)
      && g.symbol == name && g.commandType == A_COMMAND
  {
    var address := if name in f.symbolTable then f.symbolTable[name] else f.addressCounter;
    AtoiItoa(address);
    if name in f.symbolTable {
      assert f.symbolTable[name := address] == f.symbolTable;
    }
  }

  /** An A instruction keeps every binding of the table and leaves a word. */
  lemma AInstructionEffect(g: Fields, command: string)
    requires |command| > 0 && CommandTypeOf(command) == A_COMMAND
    requires AInstruction(g, command).Ok?
    ensures var h := AInstruction(g, command).value;
      h.phase == g.phase && h.lineCounter == g.lineCounter && h.commandType == g.commandType
      && (forall s :: s in g.symbolTable ==> s in h.symbolTable && h.symbolTable[s] == g.symbolTable[s])
      && h.binaryCode != ""
  {
  }

  lemma Phase2CommandEffect(code: CodeTables, f: Fields, command: string)
    requires |command| > 0
    requires Phase2Command(code, f, command).Ok?
    ensures var g := Phase2Command(code, f, command).value;
      g.phase == f.phase && g.lineCounter == f.lineCounter
      && (forall s :: s in f.symbolTable ==> s in g.symbolTable && g.symbolTable[s] == f.symbolTable[s])
      && (g.binaryCode != "" <==> CommandTypeOf(command) != L_COMMAND)
  {
    var g := f.(commandType := CommandTypeOf(command));
    match CommandTypeOf(command)
    case A_COMMAND => AInstructionEffect(g, command);
    case L_COMMAND =>
    case C_COMMAND =>
  }

  /** Phase 2 keeps the phase and the instruction counter, never rebinds a
      symbol, and leaves a binary code exactly for an A or C instruction. */
  lemma Phase2Effect(code: CodeTables, f: Fields, line: string)
    requires Phase2(code, f, line).Ok?
    ensures var g := Phase2(code, f, line).value;
      g.phase == f.phase && g.lineCounter == f.lineCounter
      && (forall s :: s in f.symbolTable ==> s in g.symbolTable && g.symbolTable[s] == f.symbolTable[s])
      && (g.binaryCode != "" <==> IsInstruction(line))
  {
    if !Skipped(line) {
      Phase2CommandEffect(code, f, CommandText(line));
    }
  }

  // ---------------------------------------------------------------------------
  // The two passes of the assembler's driver

  /** The phase-1 loop: `Advance` on every line while the parser is in
      phase 1. */
  function Run1(f: Fields, lines: seq<string>): Fields
  {
    if lines == [] then f
    else
      var g := Run1(f, lines[..|lines| - 1]);
      Phase1Effect(g, lines[|lines| - 1]);
      Phase1(g, lines[|lines| - 1]).value
  }

  /** The state after a pass and the words it collected. */
  datatype Emission = Emission(fields: Fields, words: seq<string>)

  /** The phase-2 loop: `Advance` on every line, collecting each non-empty
      binary code. The first fatal error ends the run. */
  function Emitted(code: CodeTables, f: Fields, lines: seq<string>): Result<Emission, Fatal>
  {
    if lines == [] then Ok(Emission(f, []))
    else
      match Emitted(code, f, lines[..|lines| - 1])
      case Err(e) => Err(e)
      case Ok(p) =>
        match Step(code, p.fields, lines[|lines| - 1])
        case Err(e) => Err(e)
        case Ok(g) => Ok(Emission(g, if g.binaryCode != "" then p.words + [g.binaryCode] else p.words))
  }

  /** The state phase 2 starts from: phase 1 over all lines from a new
      parser, then `Rewind`. */
  function Rewound(predefined: map<string, int>, lines: seq<string>): Fields
  {
    Run1(Initial(predefined), lines).(phase := 2)
  }

  /** The whole assembler: phase 1, `Rewind`, phase 2, keeping the words. */
  function Assemble(code: CodeTables, predefined: map<string, int>, lines: seq<string>): Result<seq<string>, Fatal>
  {
    match Emitted(code, Rewound(predefined, lines), lines)
    case Err(e) => Err(e)
    case Ok(p) => Ok(p.words)
  }

  lemma {:induction false} Run1Append(f: Fields, a: seq<string>, b: seq<string>)
    ensures Run1(f, a + b) == Run1(Run1(f, a), b)
    decreases |b|
  {
    if b != [] {
      assert (a + b)[..|a + b| - 1] == a + b[..|b| - 1];
      Run1Append(f, a, b[..|b| - 1]);
    } else {
      assert a + b == a;
    }
  }

  /** Phase 1 counts the instructions and leaves the variable counter. */
  lemma {:induction false} Run1Counts(f: Fields, lines: seq<string>)
    ensures Run1(f, lines).lineCounter == f.lineCounter + Instructions(lines)
    ensures Run1(f, lines).addressCounter == f.addressCounter
  {
    if lines != [] {
      Run1Counts(f, lines[..|lines| - 1]);
      Phase1Effect(Run1(f, lines[..|lines| - 1]), lines[|lines| - 1]);
    }
  }

  /** Lines that do not declare a label leave its entry alone. */
  lemma {:induction false} Run1KeepsLabel(f: Fields, lines: seq<string>, x: string)
    requires forall i :: 0 <= i < |lines| ==> LabelOf(lines[i]) != Some(x)
    ensures x in Run1(f, lines).symbolTable <==> x in f.symbolTable
    ensures x in f.symbolTable ==> Run1(f, lines).symbolTable[x] == f.symbolTable[x]
  {
    if lines != [] {
      Run1KeepsLabel(f, lines[..|lines| - 1], x);
      Phase1Effect(Run1(f, lines[..|lines| - 1]), lines[|lines| - 1]);
    }
  }

  /** After phase 1, the address of a label is the number of instructions
      before its last declaration. */
  lemma LabelAddress(f: Fields, before: seq<string>, line: string, after: seq<string>, x: string)
    requires LabelOf(line) == Some(x)
    requires forall i :: 0 <= i < |after| ==> LabelOf(after[i]) != Some(x)
    ensures x in Run1(f, before + [line] + after).symbolTable
    ensures Run1(f, before + [line] + after).symbolTable[x] == f.lineCounter + Instructions(before)
  {
    Run1Append(f, before + [line], after);
    assert (before + [line])[..|before + [line]| - 1] == before;
    Run1Counts(f, before);
    Phase1Effect(Run1(f, before), line);
    Run1KeepsLabel(Run1(f, before + [line]), after, x);
  }

  lemma {:induction false} EmittedPrefix(code: CodeTables, f: Fields, a: seq<string>, b: seq<string>)
    requires Emitted(code, f, a + b).Ok?
    ensures Emitted(code, f, a).Ok?
    ensures Emitted(code, f, a).value.words <= Emitted(code, f, a + b).value.words
    decreases |b|
  {
    if b == [] {
      assert a + b == a;
    } else {
      assert (a + b)[..|a + b| - 1] == a + b[..|b| - 1];
      EmittedPrefix(code, f, a, b[..|b| - 1]);
    }
  }

  /** Phase 2 emits one word per instruction, stays in phase 2 and never
      rebinds a symbol. */
  lemma {:induction false} EmittedCount(code: CodeTables, f: Fields, lines: seq<string>)
    requires f.phase == 2
    requires Emitted(code, f, lines).Ok?
    ensures |Emitted(code, f, lines).value.words| == Instructions(lines)
    ensures Emitted(code, f, lines).value.fields.phase == 2
    ensures forall s :: s in f.symbolTable ==>
      s in Emitted(code, f, lines).value.fields.symbolTable
      && Emitted(code, f, lines).value.fields.symbolTable[s] == f.symbolTable[s]
  {
    if lines != [] {
      EmittedCount(code, f, lines[..|lines| - 1]);
      var p := Emitted(code, f, lines[..|lines| - 1]).value;
      Phase2Effect(code, p.fields, lines[|lines| - 1]);
    }
  }

  /** After phase 1 and `Rewind`, a label is bound to the number of
      instructions before its last declaration. */
  lemma RewoundLabel(predefined: map<string, int>, before: seq<string>, line: string, after: seq<string>, x: string)
    requires LabelOf(line) == Some(x)
    requires forall i :: 0 <= i < |after| ==> LabelOf(after[i]) != Some(x)
    ensures var rewound := Rewound(predefined, before + [line] + after);
      x in rewound.symbolTable && rewound.symbolTable[x] == Instructions(before)
  {
    LabelAddress(Initial(predefined), before, line, after, x);
  }

  /** When phase 2 gets through all lines, it gets through the lines before
      a given one, having emitted one word per instruction there. */
  lemma EmittedBefore(code: CodeTables, f: Fields, before: seq<string>, line: string, after: seq<string>)
    requires f.phase == 2
    requires Emitted(code, f, before + [line] + after).Ok?
    ensures Emitted(code, f, before).Ok?
    ensures Instructions(before) == |Emitted(code, f, before).value.words|
    ensures Emitted(code, f, before).value.words <= Emitted(code, f, before + [line] + after).value.words
  {
    assert before + [line] + after == before + ([line] + after);
    EmittedPrefix(code, f, before, [line] + after);
    EmittedCount(code, f, before);
  }

  /** The two passes agree: the address phase 1 gives a label is the index
      of the word phase 2 emits for the first instruction after it, and that
      address stays bound through phase 2. */
  lemma LabelIsWordIndex(code: CodeTables, predefined: map<string, int>,
                         before: seq<string>, line: string, after: seq<string>, x: string)
    requires LabelOf(line) == Some(x)
    requires forall i :: 0 <= i < |after| ==> LabelOf(after[i]) != Some(x)
    requires Emitted(code, Rewound(predefined, before + [line] + after), before + [line] + after).Ok?
    ensures var rewound := Rewound(predefined, before + [line] + after);
      x in rewound.symbolTable
      && Emitted(code, rewound, before).Ok?
      && rewound.symbolTable[x] == |Emitted(code, rewound, before).value.words|
      && Emitted(code, rewound, before).value.words <= Emitted(code, rewound, before + [line] + after).value.words
    ensures var rewound := Rewound(predefined, before + [line] + after);
      var g := Emitted(code, rewound, before + [line] + after).value.fields;
      x in g.symbolTable && g.symbolTable[x] == rewound.symbolTable[x]
  {
    var rewound := Rewound(predefined, before + [line] + after);
    RewoundLabel(predefined, before, line, after, x);
    EmittedBefore(code, rewound, before, line, after);
    EmittedCount(code, rewound, before + [line] + after);
  }

  /** The table `t` with `names` bound, in order, to consecutive addresses
      from `base`. */
  function Bound(t: map<string, int>, names: seq<string>, base: int): map<string, int>
  {
    if names == [] then t
    else Bound(t, names[..|names| - 1], base)[names[|names| - 1] := base + |names| - 1]
  }

  /** Binding names adds no key besides the names. */
  lemma {:induction false} BoundKeys(t: map<string, int>, names: seq<string>, base: int)
    ensures forall s :: s in Bound(t, names, base) ==> s in t || s in names
  {
    if names != [] {
      var n := |names| - 1;
      BoundKeys(t, names[..n], base);
      forall s | s in Bound(t, names, base)
        ensures s in t || s in names
      {
        if s != names[n] {
          assert s in t || s in names[..n];
        }
      }
    }
  }

  /** With distinct names, each one is found at its own address. */
  lemma {:induction false} BoundLookup(t: map<string, int>, names: seq<string>, base: int)
    requires forall i, j :: 0 <= i < j < |names| ==> names[i] != names[j]
    ensures forall i :: 0 <= i < |names| ==> names[i] in Bound(t, names, base) && Bound(t, names, base)[names[i]] == base + i
  {
    if names != [] {
      BoundLookup(t, names[..|names| - 1], base);
    }
  }

  /** Distinct names, none numeric and none in the table: each becomes a new
      variable. */
  predicate NewVariables(t: map<string, int>, names: seq<string>)
  {
    names != [] ==>
      NewVariables(t, names[..|names| - 1])
      && Atoi(names[|names| - 1]).None? && names[|names| - 1] !in t && names[|names| - 1] !in names[..|names| - 1]
  }

  lemma {:induction false} NewVariablesDistinct(t: map<string, int>, names: seq<string>)
    requires NewVariables(t, names)
    ensures forall i, j :: 0 <= i < j < |names| ==> names[i] != names[j]
  {
    if names != [] {
      var n := |names| - 1;
      NewVariablesDistinct(t, names[..n]);
      forall i, j | 0 <= i < j < |names|
        ensures names[i] != names[j]
      {
        if j == n {
          assert names[i] == names[..n][i];
        } else {
          assert names[i] == names[..n][i] && names[j] == names[..n][j];
        }
      }
    }
  }

  /** The words of the addresses `base`, `base + 1`, ..., `base + n - 1`. */
  function AddressWords(base: int, n: nat): (r: seq<string>)
    ensures |r| == n
  {
    if n == 0 then [] else AddressWords(base, n - 1) + [FormatBinary16(base + n - 1)]
  }

  /** After the phase-2 pass `e` over A instructions naming `names`, starting
      from `f`: the names are bound to consecutive addresses from the
      variable counter, and those addresses are the words emitted. */
  predicate Consecutive(f: Fields, e: Emission, names: seq<string>) {
    e.fields.phase == 2
    && e.fields.addressCounter == f.addressCounter + |names|
    && e.fields.symbolTable == Bound(f.symbolTable, names, f.addressCounter)
    && e.words == AddressWords(f.addressCounter, |names|)
  }

  /** Phase 2 on an A instruction naming a new variable. */
  lemma FreshVariableStep(code: CodeTables, g: Fields, line: string, name: string)
    requires g.phase == 2
    requires KindOf(line) == A_COMMAND && SymbolOfLine(line) == Some(name)
    requires Atoi(name).None? && name !in g.symbolTable
    requires MinInt64 <= g.addressCounter <= MaxInt64
    ensures Step(code, g, line).Ok?
    ensures var h := Step(code, g, line).value;
      h.binaryCode == FormatBinary16(g.addressCounter) && h.symbolTable == g.symbolTable[name := g.addressCounter]
      && h.addressCounter == g.addressCounter + 1 && h.phase == 2
  {
    SymbolicOperand(code, g, line, name);
    Phase2Effect(code, g, line);
  }

  /** One more new variable, bound at the next address, extends a
      consecutive allocation. */
  lemma VariableStep(f: Fields, e: Emission, names: seq<string>, name: string, h: Fields)
    requires Consecutive(f, e, names)
    requires h.phase == 2 && h.addressCounter == e.fields.addressCounter + 1
    requires h.symbolTable == e.fields.symbolTable[name := e.fields.addressCounter]
    requires h.binaryCode == FormatBinary16(e.fields.addressCounter)
    ensures Consecutive(f, Emission(h, e.words + [h.binaryCode]), names + [name])
  {
    assert (names + [name])[..|names|] == names;
  }

  /** Each line is an A instruction whose operand is the matching name. */
  predicate VariableLines(lines: seq<string>, names: seq<string>)
  {
    |lines| == |names|
    && (lines != [] ==>
      VariableLines(lines[..|lines| - 1], names[..|names| - 1])
      && KindOf(lines[|lines| - 1]) == A_COMMAND && SymbolOfLine(lines[|lines| - 1]) == Some(names[|names| - 1]))
  }

  /** One more step of phase 2 that emits a word. */
  lemma EmittedSnoc(code: CodeTables, f: Fields, lines: seq<string>, e: Emission, h: Fields)
    requires lines != []
    requires Emitted(code, f, lines[..|lines| - 1]) == Ok(e)
    requires Step(code, e.fields, lines[|lines| - 1]) == Ok(h) && h.binaryCode != ""
    ensures Emitted(code, f, lines) == Ok(Emission(h, e.words + [h.binaryCode]))
  {
  }

  lemma ConsecutiveSnoc(code: CodeTables, f: Fields, lines: seq<string>, e: Emission, front: seq<string>, name: string)
    requires lines != [] && Emitted(code, f, lines[..|lines| - 1]) == Ok(e)
    requires Consecutive(f, e, front)
    requires KindOf(lines[|lines| - 1]) == A_COMMAND && SymbolOfLine(lines[|lines| - 1]) == Some(name)
    requires Atoi(name).None? && name !in e.fields.symbolTable
    requires MinInt64 <= f.addressCounter && f.addressCounter + |front| + 1 <= MaxInt64
    ensures Emitted(code, f, lines).Ok?
    ensures Consecutive(f, Emitted(code, f, lines).value, front + [name])
  {
    var line := lines[|lines| - 1];
    FreshVariableStep(code, e.fields, line, name);
    var h := Step(code, e.fields, line).value;
    VariableStep(f, e, front, name, h);
    EmittedSnoc(code, f, lines, e, h);
  }

  lemma FrontAndLast<T>(s: seq<T>)
    requires |s| > 0
    ensures s[..|s| - 1] + [s[|s| - 1]] == s
  {
  }

  lemma {:induction false} ConsecutiveRun(code: CodeTables, f: Fields, lines: seq<string>, names: seq<string>)
    requires f.phase == 2 && VariableLines(lines, names) && NewVariables(f.symbolTable, names)
    requires MinInt64 <= f.addressCounter && f.addressCounter + |names| <= MaxInt64
    ensures Emitted(code, f, lines).Ok?
    ensures Consecutive(f, Emitted(code, f, lines).value, names)
  {
    if lines != [] {
      var n := |lines| - 1;
      FrontAndLast(names);
      ConsecutiveRun(code, f, lines[..n], names[..n]);
      BoundKeys(f.symbolTable, names[..n], f.addressCounter);
      ConsecutiveSnoc(code, f, lines, Emitted(code, f, lines[..n]).value, names[..n], names[n]);
    }
  }

  /** The A instructions of lines naming distinct new variables, in order,
      bind them to consecutive addresses from the variable counter (16 after
      a fresh start) and emit those addresses. */
  lemma ConsecutiveVariables(code: CodeTables, f: Fields, lines: seq<string>, names: seq<string>)
    requires f.phase == 2 && VariableLines(lines, names) && NewVariables(f.symbolTable, names)
    requires MinInt64 <= f.addressCounter && f.addressCounter + |names| <= MaxInt64
    ensures Emitted(code, f, lines).Ok?
    ensures var e := Emitted(code, f, lines).value;
      e.fields.addressCounter == f.addressCounter + |names|
      && (forall i :: 0 <= i < |names| ==> names[i] in e.fields.symbolTable && e.fields.symbolTable[names[i]] == f.addressCounter + i)
      && e.words == AddressWords(f.addressCounter, |names|)
  {
    ConsecutiveRun(code, f, lines, names);
    NewVariablesDistinct(f.symbolTable, names);
    BoundLookup(f.symbolTable, names, f.addressCounter);
  }

  // ---------------------------------------------------------------------------
  // The parser object

  /** The parser. The scanner over the assembly file is the sequence `lines`
      with a cursor; `text` is the line it last delivered. */
  class Parser {
    const code: CodeTables
    const lines: seq<string>
    var cursor: nat
    var text: string

    var commandType: CommandKind
    var symbol: string
    var dest: string
    var comp: string
    var jump: string
    var addressCounter: int
    var lineCounter: int
    var symbolTable: map<string, int>
    var phase: int
    var binaryCode: string

    function State(): Fields
      reads this
    {
      Fields(commandType, symbol, dest, comp, jump, addressCounter, lineCounter, symbolTable, phase, binaryCode)
    }

    /** Where the scanner stands. */
    function Input(): (nat, string)
      reads this
    {
      (cursor, text)
    }

    /** `New`: `predefined` is the symbol table the `symbol` package starts with. */
    constructor (lines: seq<string>, code: CodeTables, predefined: map<string, int>)
      ensures this.lines == lines && this.code == code && Input() == (0, "")
      ensures State() == Initial(predefined)
    {
      this.lines := lines;
      this.code := code;
      cursor, text := 0, "";
      commandType, symbol, dest, comp, jump := NoCommand, "", "", "", "";
      addressCounter, lineCounter, symbolTable, phase := 16, 0, predefined, 1;
      binaryCode := "";
    }

    /** `HasMoreCommands`: scans the next line, if there is one. */
    method HasMoreCommands() returns (more: bool)
      modifies this
      ensures more <==> old(cursor) < |lines|
      ensures more ==> Input() == (old(cursor) + 1, lines[old(cursor)])
      ensures !more ==> Input() == (old(cursor), "")
      ensures State() == old(State())
    {
      more := cursor < |lines|;
      if more {
        text := lines[cursor];
        cursor := cursor + 1;
      } else {
        text := "";
      }
    }

    /** `Advance`: one step of the current phase on the scanned line. On a
        fatal error the run ends, so the state after a failure is not described. */
    method Advance() returns (r: Outcome<Fatal>)
      modifies this
      ensures var s := Step(code, old(State()), text);
        (r.Pass? <==> s.Ok?) && (s.Ok? ==> State() == s.value)
      ensures Input() == old(Input())
    {
      r := Pass;
      if phase == 1 {
        r := ParseNextOnPhase1();
      } else if phase == 2 {
        r := ParseNextOnPhase2();
      }
    }

    method CommandType() returns (t: CommandKind)
      ensures t == commandType
    {
      t := commandType;
    }

    method Symbol() returns (r: Result<string, AccessError>)
      ensures r == SymbolOf(State())
    {
      if commandType == A_COMMAND {
        return Ok(symbol);
      }
      if commandType == L_COMMAND {
        return Ok(symbol);
      }
      r := Err(InvalidCommandType("Symbol", commandType));
    }

    method Dest() returns (r: Result<string, AccessError>)
      ensures r == DestOf(State())
    {
      if commandType == C_COMMAND {
        return Ok(dest);
      }
      r := Err(InvalidCommandType("Dest", commandType));
    }

    method Comp() returns (r: Result<string, AccessError>)
      ensures r == CompOf(State())
    {
      if commandType == C_COMMAND {
        return Ok(comp);
      }
      r := Err(InvalidCommandType("Comp", commandType));
    }

    method Jump() returns (r: Result<string, AccessError>)
      ensures r == JumpOf(State())
    {
      if commandType == C_COMMAND {
        return Ok(jump);
      }
      r := Err(InvalidCommandType("Jump", commandType));
    }

    method BinaryCode() returns (b: string)
      ensures b == binaryCode
    {
      b := binaryCode;
    }

    /** `Rewind`: back to the first line, in phase 2. */
    method Rewind()
      modifies this
      ensures Input() == (0, "")
      ensures State() == old(State()).(phase := 2)
    {
      cursor, text := 0, "";
      phase := 2;
    }

    method ParseNextOnPhase1() returns (r: Outcome<Fatal>)
      modifies this
      ensures var s := Phase1(old(State()), text);
        (r.Pass? <==> s.Ok?) && (s.Ok? ==> State() == s.value)
      ensures Input() == old(Input())
    {
      var command := TrimSpace(text);
      if Tokenizer.IsAbleToSkip(command) {
        symbol := "";
        binaryCode := "";
        return Pass;
      }
      Tokenizer.TrimCommentKeepsFirst(command);
      command := Tokenizer.TrimComment(command);
      r := ParseCommandOnPhase1(command);
    }

    /** The part of `parseNextOnPhase1` after the comment is cut off. */
    method ParseCommandOnPhase1(command: string) returns (r: Outcome<Fatal>)
      requires |command| > 0
      modifies this
      ensures var s := Phase1Command(old(State()), command);
        (r.Pass? <==> s.Ok?) && (s.Ok? ==> State() == s.value)
      ensures Input() == old(Input())
    {
      r := Pass;
      SetCommandType(command);
      if commandType == A_COMMAND {
        SetSymbol(command);
        dest, comp, jump := "", "", "";
        lineCounter := lineCounter + 1;
      } else if commandType == L_COMMAND {
        r := DeclareLabel(command);
      } else if commandType == C_COMMAND {
        symbol := "";
        SetDestCompJump(command);
        lineCounter := lineCounter + 1;
      }
    }

    /** The label-declaration branch of `parseNextOnPhase1`. */
    method DeclareLabel(command: string) returns (r: Outcome<Fatal>)
      requires |command| > 0
      modifies this
      ensures var s := LabelDeclared(old(State()), command);
        (r.Pass? <==> s.Ok?) && (s.Ok? ==> State() == s.value)
      ensures Input() == old(Input())
    {
      SetSymbol(command);
      dest, comp, jump := "", "", "";
      var sym := ParseSymbol(command);
      if sym.Err? {
        return Fail(CantParseSymbol(command));
      }
      symbolTable := symbolTable[sym.value := lineCounter];
      r := Pass;
    }

    method ParseNextOnPhase2() returns (r: Outcome<Fatal>)
      modifies this
      ensures var s := Phase2(code, old(State()), text);
        (r.Pass? <==> s.Ok?) && (s.Ok? ==> State() == s.value)
      ensures Input() == old(Input())
    {
      var command := TrimSpace(text);
      if Tokenizer.IsAbleToSkip(command) {
        symbol := "";
        binaryCode := "";
        return Pass;
      }
      Tokenizer.TrimCommentKeepsFirst(command);
      command := Tokenizer.TrimComment(command);
      r := ParseCommandOnPhase2(command);
    }

    /** The part of `parseNextOnPhase2` after the comment is cut off. */
    method ParseCommandOnPhase2(command: string) returns (r: Outcome<Fatal>)
      requires |command| > 0
      modifies this
      ensures var s := Phase2Command(code, old(State()), command);
        (r.Pass? <==> s.Ok?) && (s.Ok? ==> State() == s.value)
      ensures Input() == old(Input())
    {
      r := Pass;
      SetCommandType(command);
      if commandType == A_COMMAND {
        r := WriteAInstruction(command);
      } else if commandType == L_COMMAND {
        SetSymbol(command);
        dest, comp, jump := "", "", "";
        binaryCode := "";
      } else if commandType == C_COMMAND {
        r := WriteCInstruction(command);
      }
    }

    /** The A-instruction branch of `parseNextOnPhase2`. */
    method WriteAInstruction(command: string) returns (r: Outcome<Fatal>)
      requires |command| > 0
      modifies this
      ensures var s := AInstruction(old(State()), command);
        (r.Pass? <==> s.Ok?) && (s.Ok? ==> State() == s.value)
      ensures Input() == old(Input())
    {
      var sym := ParseSymbol(command);
      if sym.Err? {
        return Fail(CantParseSymbol(command));
      }
      if Atoi(sym.value).Some? {
        r := SetBinaryCodeWhenAInstruction(command);
        return;
      }
      r := WriteSymbolicAddress(command, sym.value);
    }

    /** The symbolic-operand part of the A-instruction branch. */
    method WriteSymbolicAddress(command: string, sym: string) returns (r: Outcome<Fatal>)
      requires |command| > 0
      modifies this
      ensures var s := SymbolicAInstruction(old(State()), command, sym);
        (r.Pass? <==> s.Ok?) && (s.Ok? ==> State() == s.value)
      ensures Input() == old(Input())
    {
      var address := LookUpOrAllocate(sym);
      SetSymbol(command);
      dest, comp, jump := "", "", "";
      var b := BinaryStringToByteArray(Itoa(address));
      if b.Err? {
        return Fail(b.error);
      }
      binaryCode := b.value;
      r := Pass;
    }

    /** The symbol-table step of the A-instruction branch. */
    method LookUpOrAllocate(sym: string) returns (address: int)
      modifies this
      ensures address == AddressOf(old(State()), sym)
      ensures State() == Allocated(old(State()), sym)
      ensures Input() == old(Input())
    {
      if sym in symbolTable {
        address := symbolTable[sym];
      } else {
        address := addressCounter;
        symbolTable := symbolTable[sym := address];
        addressCounter := addressCounter + 1;
      }
    }

    /** The C-instruction branch of `parseNextOnPhase2`. */
    method WriteCInstruction(command: string) returns (r: Outcome<Fatal>)
      modifies this
      ensures var s := CInstruction(code, old(State()), command);
        (r.Pass? <==> s.Ok?) && (s.Ok? ==> State() == s.value)
      ensures Input() == old(Input())
    {
      symbol := "";
      SetDestCompJump(command);
      r := SetBinaryCodeWhenCInstruction();
    }

    method SetCommandType(command: string)
      requires |command| > 0
      modifies this
      ensures State() == old(State()).(commandType := CommandTypeOf(command))
      ensures Input() == old(Input())
    {
      if command[0] == '@' {
        commandType := A_COMMAND;
      } else if command[0] == '(' && command[|command| - 1] == ')' {
        commandType := L_COMMAND;
        return;
      } else {
        commandType := C_COMMAND;
      }
    }

    method SetSymbol(command: string)
      requires |command| > 0
      modifies this
      ensures State() == old(State()).(symbol := SymbolAfter(command, old(symbol)))
      ensures Input() == old(Input())
    {
      if command[0] == '@' {
        symbol := command[1..];
      }
      if command[0] == '(' && command[|command| - 1] == ')' {
        symbol := command[1..|command| - 1];
      }
    }

    method SetBinaryCodeWhenAInstruction(command: string) returns (r: Outcome<Fatal>)
      requires |command| > 0
      modifies this
      ensures var b := BinaryStringToByteArray(command[1..]);
        (r.Pass? <==> b.Ok?) && (b.Ok? ==> State() == old(State()).(binaryCode := b.value))
      ensures Input() == old(Input())
    {
      var b := BinaryStringToByteArray(command[1..]);
      if b.Err? {
        return Fail(b.error);
      }
      binaryCode := b.value;
      r := Pass;
    }

    method SetDestCompJump(command: string)
      modifies this
      ensures var m := SplitInstruction(command);
        State() == old(State()).(dest := m.dest, comp := m.comp, jump := m.jump)
      ensures Input() == old(Input())
    {
      var destMnemonic, compMnemonic, jumpMnemonic := "", "", "";
      var rest := command;
      if '=' in rest {
        SplitAtSeparator(rest, '=');
        var s := Split(rest, '=');
        destMnemonic := s[0];
        rest := s[1];
      }
      if ';' in rest {
        SplitAtSeparator(rest, ';');
        var s := Split(rest, ';');
        compMnemonic := s[0];
        jumpMnemonic := s[1];
      } else {
        compMnemonic := rest;
      }
      dest, comp, jump := destMnemonic, compMnemonic, jumpMnemonic;
    }

    method SetBinaryCodeWhenCInstruction() returns (r: Outcome<Fatal>)
      modifies this
      ensures var c := CCode(code, Mnemonics(old(dest), old(comp), old(jump)), old(phase));
        (r.Pass? <==> c.Ok?) && (c.Ok? ==> State() == old(State()).(binaryCode := c.value))
      ensures Input() == old(Input())
    {
      var destCode: string;
      if dest in code.dest {
        destCode := code.dest[dest];
      } else if dest != "" {
        return Fail(UnknownDest(dest));
      } else {
        destCode := Find(code.dest, "null0");
      }
      var compCode := Find(code.comp, comp);
      if comp !in code.comp && comp != "" {
        return Fail(UnknownComp(comp, phase));
      }
      var jumpCode: string;
      if jump in code.jump {
        jumpCode := code.jump[jump];
      } else if jump != "" {
        return Fail(UnknownJump(jump));
      } else {
        jumpCode := Find(code.jump, "null");
      }
      binaryCode := "111" + compCode + destCode + jumpCode;
      r := Pass;
    }
  }
}
