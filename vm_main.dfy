/** The command line of the VM translator (project 07): the checks on its
    two options, the choice of the .vm files in a directory and the names of
    the assembly files it writes. Opening, reading and writing files are not
    modelled; the path separator of the platform is a parameter. */
module VmMain {
  import opened Outcomes
  import opened GoStrings

  /** The reasons the translator stops before it reads any file. */
  datatype UsageError =
    | BothEmpty
    | BothSet
    | WrongFormat(name: string, format: string)

  /** An entry of a directory listing: its name and whether it is a directory. */
  datatype Entry = Entry(name: string, isDir: bool)

  predicate HasSuffix(s: string, suffix: string) {
    |suffix| <= |s| && s[|s| - |suffix|..] == suffix
  }

  predicate IsSeparator(c: char) {
    c == '/' || c == '\\'
  }

  // ---------------------------------------------------------------------------
  // Extensions
  // ---------------------------------------------------------------------------

  /** checkFileFormat: the text after the last dot is the format. */
  function CheckFileFormat(fileName: string, format: string): bool {
    Last(Split(fileName, '.')) == format
  }

  /** A name has the format exactly when it ends with the format, the format
      holds no dot, and the format is the whole name or follows a dot. So a
      file named "vm" without any dot also has the format "vm". */
  lemma CheckFileFormatIff(fileName: string, format: string)
    ensures CheckFileFormat(fileName, format) <==>
      '.' !in format && HasSuffix(fileName, format) &&
      (|format| == |fileName| || fileName[|fileName| - |format| - 1] == '.')
  {
    SplitLast(fileName, '.');
  }

  /** validateFileFormat: a fatal error unless the name has the format. */
  function ValidateFileFormat(name: string, format: string): (r: Outcome<UsageError>)
    ensures r.Pass? <==> CheckFileFormat(name, format)
    ensures r.Fail? ==> r.error == WrongFormat(name, format)
  {
    var temp := Split(name, '.');
    if temp[|temp| - 1] != format then Fail(WrongFormat(name, format)) else Pass
  }

  /** init: exactly one of the two options is given, and a single file must be
      a .vm file. */
  function ValidateOptions(dirLoc: string, fileLoc: string): (r: Outcome<UsageError>)
    ensures r.Pass? <==>
      (dirLoc == "") != (fileLoc == "") &&
      (fileLoc != "" ==> CheckFileFormat(fileLoc, "vm"))
    ensures dirLoc == "" && fileLoc == "" ==> r == Fail(BothEmpty)
    ensures dirLoc != "" && fileLoc != "" ==> r == Fail(BothSet)
  {
    if dirLoc == "" && fileLoc == "" then Fail(BothEmpty)
    else if dirLoc != "" && fileLoc != "" then Fail(BothSet)
    else if fileLoc != "" then ValidateFileFormat(fileLoc, "vm")
    else Pass
  }

  // ---------------------------------------------------------------------------
  // Names of the assembly files
  // ---------------------------------------------------------------------------

  /** The file part of createAssemblyFileName: every piece but the text after
      the last dot, glued together without the dots, and ".asm". */
  function AssemblyBaseName(vmFileName: string): string {
    var s := Split(vmFileName, '.');
    Join(s[..|s| - 1], "") + ".asm"
  }

  /** createAssemblyFileName */
  function CreateAssemblyFileName(dir: string, vmFileName: string, separator: char): string {
    dir + [separator] + AssemblyBaseName(vmFileName)
  }

  /** For a name made of dot-free pieces, the last piece is dropped and the
      others are kept in order with their dots removed. */
  lemma AssemblyNameOfPieces(dir: string, pieces: seq<string>, separator: char)
    requires |pieces| >= 1
    requires forall i :: 0 <= i < |pieces| ==> '.' !in pieces[i]
    ensures CreateAssemblyFileName(dir, Join(pieces, "."), separator) ==
      dir + [separator] + Join(pieces[..|pieces| - 1], "") + ".asm"
  {
    SplitJoin(pieces, '.');
  }

  /** A file "stem.vm" becomes "stem.asm" in the given directory. */
  lemma AssemblyNameOfVmFile(dir: string, stem: string, separator: char)
    requires '.' !in stem
    ensures AssemblyBaseName(stem + ".vm") == stem + ".asm"
    ensures CreateAssemblyFileName(dir, stem + ".vm", separator) == dir + [separator] + stem + ".asm"
  {
    assert stem + ".vm" == stem + ['.'] + "vm";
    SplitSnoc(stem, '.', "vm");
    SplitWithoutSeparator(stem, '.');
  }

  /** A name without a dot loses all its text: only ".asm" is left. */
  lemma AssemblyNameWithoutDot(dir: string, vmFileName: string, separator: char)
    requires '.' !in vmFileName
    ensures CreateAssemblyFileName(dir, vmFileName, separator) == dir + [separator] + ".asm"
  {
    SplitWithoutSeparator(vmFileName, '.');
  }

  /** getDirFromFileLoc: everything before the last '/'. */
  function GetDirFromFileLoc(fileLoc: string): string {
    var s := Split(fileLoc, '/');
    Join(s[..|s| - 1], "/")
  }

  /** getFileNameFromFileLoc: everything after the last '/'. */
  function GetFileNameFromFileLoc(fileLoc: string): string {
    var s := Split(fileLoc, '/');
    s[|s| - 1]
  }

  /** The directory and the file name put back together give the location;
      without any '/', the directory is empty. */
  lemma FileLocRoundTrip(fileLoc: string)
    ensures '/' !in GetFileNameFromFileLoc(fileLoc)
    ensures '/' in fileLoc ==>
      GetDirFromFileLoc(fileLoc) + "/" + GetFileNameFromFileLoc(fileLoc) == fileLoc
    ensures '/' !in fileLoc ==>
      GetDirFromFileLoc(fileLoc) == "" && GetFileNameFromFileLoc(fileLoc) == fileLoc
  {
    SplitLast(fileLoc, '/');
    if '/' in fileLoc {
      SplitAtSeparator(fileLoc, '/');
      JoinSnoc(Split(fileLoc, '/'), "/");
      JoinSplit(fileLoc, '/');
    } else {
      SplitWithoutSeparator(fileLoc, '/');
    }
  }

  /** The location of the assembly file in file mode (main, lines 85-88). */
  function AssemblyFileFor(fileLoc: string, separator: char): string {
    CreateAssemblyFileName(GetDirFromFileLoc(fileLoc), GetFileNameFromFileLoc(fileLoc), separator)
  }

  /** A .vm file inside a directory gets its assembly file next to it. */
  lemma FileModeInDirectory(dir: string, stem: string)
    requires '/' !in stem && '.' !in stem
    ensures AssemblyFileFor(dir + "/" + stem + ".vm", '/') == dir + "/" + stem + ".asm"
  {
    var name := stem + ".vm";
    assert '/' !in name;
    assert dir + "/" + stem + ".vm" == dir + ['/'] + name;
    SplitSnoc(dir, '/', name);
    JoinSplit(dir, '/');
    AssemblyNameOfVmFile(GetDirFromFileLoc(dir + ['/'] + name), stem, '/');
  }

  /** A location without any '/' gets an empty directory, so the assembly file
      is placed at the root of the file system. */
  lemma FileModeBareName(stem: string, separator: char)
    requires '/' !in stem && '.' !in stem
    ensures AssemblyFileFor(stem + ".vm", separator) == [separator] + stem + ".asm"
  {
    assert '/' !in stem + ".vm";
    FileLocRoundTrip(stem + ".vm");
    AssemblyNameOfVmFile("", stem, separator);
  }

  /** The input that shows it: "Prog.vm" is translated into "/Prog.asm". */
  lemma BareNameWritesToRoot()
    ensures AssemblyFileFor("Prog.vm", '/') == "/Prog.asm"
  {
    var stem := "Prog";
    assert '/' !in stem && '.' !in stem;
    FileModeBareName(stem, '/');
    assert stem + ".vm" == "Prog.vm";
    assert ['/'] + stem + ".asm" == "/Prog.asm";
  }

  /** The file-mode name with the directory kept only when the location has
      one, so that the assembly file is always written next to the .vm file. */
  function IntendedAssemblyFileFor(fileLoc: string, separator: char): string {
    if '/' in fileLoc then AssemblyFileFor(fileLoc, separator)
    else AssemblyBaseName(fileLoc)
  }

  /** Whatever precedes the file name, ".vm" is replaced by ".asm" in place. */
  lemma IntendedNextToInput(prefix: string, stem: string)
    requires prefix == "" || prefix[|prefix| - 1] == '/'
    requires '/' !in stem && '.' !in stem
    ensures IntendedAssemblyFileFor(prefix + stem + ".vm", '/') == prefix + stem + ".asm"
  {
    if prefix == "" {
      assert prefix + stem + ".vm" == stem + ".vm";
      assert '/' !in stem + ".vm";
      AssemblyNameOfVmFile("", stem, '/');
    } else {
      var dir := prefix[..|prefix| - 1];
      assert prefix == dir + "/";
      assert '/' in prefix + stem + ".vm" by {
        assert (prefix + stem + ".vm")[|prefix| - 1] == '/';
      }
      assert prefix + stem + ".vm" == dir + "/" + stem + ".vm";
      FileModeInDirectory(dir, stem);
    }
  }

  // ---------------------------------------------------------------------------
  // Directory mode
  // ---------------------------------------------------------------------------

  /** The directory option with one trailing separator removed (lines 45-48). */
  function TrimDirSeparator(dirLoc: string): string
    requires |dirLoc| > 0
  {
    if dirLoc[|dirLoc| - 1] == '\\' || dirLoc[|dirLoc| - 1] == '/' then dirLoc[..|dirLoc| - 1]
    else dirLoc
  }

  /** A directory written with or without a trailing separator names the same
      files; only one separator is removed. */
  lemma TrailingSeparatorIgnored(dir: string, c: char)
    requires IsSeparator(c)
    ensures TrimDirSeparator(dir + [c]) == dir
    ensures |dir| > 0 && !IsSeparator(dir[|dir| - 1]) ==> TrimDirSeparator(dir) == dir
  {
    assert (dir + [c])[..|dir|] == dir;
  }

  /** `a` is `b` with some entries left out and the others kept in order. */
  predicate Subsequence(a: seq<Entry>, b: seq<Entry>)
    decreases |b|
  {
    if b == [] then a == []
    else
      Subsequence(a, b[..|b| - 1])
      || (a != [] && a[|a| - 1] == b[|b| - 1] && Subsequence(a[..|a| - 1], b[..|b| - 1]))
  }

  /** The entries the loop translates: files, not directories, whose names
      have the format "vm", in the order of the listing. */
  function VmFiles(entries: seq<Entry>): (r: seq<Entry>)
    ensures forall e :: e in r <==> e in entries && !e.isDir && CheckFileFormat(e.name, "vm")
    ensures |r| <= |entries|
    ensures Subsequence(r, entries)
  {
    if |entries| == 0 then []
    else
      var rest := VmFiles(entries[..|entries| - 1]);
      var e := entries[|entries| - 1];
      if !e.isDir && CheckFileFormat(e.name, "vm") then
        assert (rest + [e])[..|rest|] == rest;
        rest + [e]
      else rest
  }

  /** The .vm file opened for an entry (line 52). */
  function VmFilePath(dirLoc: string, name: string, separator: char): string
    requires |dirLoc| > 0
  {
    TrimDirSeparator(dirLoc) + [separator] + name
  }

  /** The assembly file written for an entry (line 58). */
  function DirModeAssemblyFile(dirLoc: string, name: string, separator: char): string
    requires |dirLoc| > 0
  {
    CreateAssemblyFileName(TrimDirSeparator(dirLoc), name, separator)
  }

  /** In directory mode each "stem.vm" is read from, and "stem.asm" written
      to, the same directory. */
  lemma DirModePairsFiles(dirLoc: string, stem: string, separator: char)
    requires |dirLoc| > 0 && '.' !in stem
    ensures var dir := TrimDirSeparator(dirLoc);
      VmFilePath(dirLoc, stem + ".vm", separator) == dir + [separator] + stem + ".vm" &&
      DirModeAssemblyFile(dirLoc, stem + ".vm", separator) == dir + [separator] + stem + ".asm"
  {
    AssemblyNameOfVmFile(TrimDirSeparator(dirLoc), stem, separator);
  }
}
