/** The buffered output file of the code writer. Each `writeString` call of
    the code writer writes one "\n"-terminated line; the model records that
    line without its "\n". */
module FileWriting {
  import opened GoStrings

  /** The stem `newFileWriter` keeps: the text before the first '.', with any
      directories still in it. */
  function Stem(name: string): (r: string)
    ensures |r| <= |name| && r == name[..|r|] && '.' !in r
    ensures |r| < |name| ==> name[|r|] == '.'
  {
    SplitHead(name, '.');
    Split(name, '.')[0]
  }

  /** A name without a dot is its own stem; a name with one loses the text
      from its first dot on, so a relative path such as "./x/F.asm" has the
      empty stem. */
  lemma StemCases(name: string)
    ensures Stem(name) == name <==> '.' !in name
    ensures Stem("./x/F.asm") == ""
  {
    if '.' in name && Stem(name) == name {
      assert false;
    }
    if Stem(name) != name {
      assert name[|Stem(name)|] == '.';
    }
  }

  /** The `bufio.Writer`: the lines written through it and not flushed yet. */
  class Buffer {
    var lines: seq<string>

    constructor ()
      ensures lines == []
    {
      lines := [];
    }

    /** `WriteString` of one line: appended verbatim. */
    method WriteString(line: string)
      modifies this
      ensures lines == old(lines) + [line]
    {
      lines := lines + [line];
    }

    /** `Flush`: hands the lines over and empties the buffer. */
    method Flush() returns (flushed: seq<string>)
      modifies this
      ensures flushed == old(lines) && lines == []
    {
      flushed := lines;
      lines := [];
    }
  }

  /** `fileWriter`: the file it writes to, the stem used for static labels,
      the buffered writer, and what has reached each file it created. */
  class FileWriter {
    var file: string
    var fileName: string
    var writer: Buffer
    var files: map<string, seq<string>>

    /** The current file is one the writer created. */
    predicate Valid()
      reads this
    {
      file in files
    }

    /** `newFileWriter`: opens the file, remembers the stem of its name and
        starts an empty buffer. */
    constructor (name: string)
      ensures Valid() && fresh(writer)
      ensures file == name && fileName == Stem(name) && writer.lines == [] && files == map[name := []]
    {
      file := name;
      fileName := Split(name, '.')[0];
      writer := new Buffer();
      files := map[name := []];
    }

    /** `changeFile`: creates (and so empties) the new file and starts a new
        buffer; the stem stays that of the first file, and lines still in the
        old buffer are dropped without reaching any file. */
    method ChangeFile(name: string)
      modifies this
      ensures Valid() && fresh(writer)
      ensures file == name && fileName == old(fileName) && writer.lines == [] && files == old(files)[name := []]
    {
      file := name;
      writer := new Buffer();
      files := files[name := []];
    }

    /** `writeString`: the line is appended verbatim; nothing else changes. */
    method WriteString(line: string)
      modifies writer
      ensures writer.lines == old(writer.lines) + [line]
    {
      writer.WriteString(line);
    }

    /** `fileNameWithoutExtension`. */
    method FileNameWithoutExtension() returns (r: string)
      ensures r == fileName
    {
      r := fileName;
    }

    /** `close`: flushes the buffer into the current file. */
    method Close()
      requires Valid()
      modifies this, writer
      ensures Valid() && writer == old(writer) && writer.lines == []
      ensures file == old(file) && fileName == old(fileName)
      ensures files == old(files)[file := old(files)[file] + old(writer.lines)]
    {
      var flushed := writer.Flush();
      files := files[file := files[file] + flushed];
    }
  }
}
