/** The line tokenizer of the VM translator: one scanned line becomes a queue
    of tokens, which the parser takes from the front. */
module Tokenizer {
  import opened GoStrings

  /** A trimmed line is skipped when it is empty or a whole-line comment. */
  predicate IsAbleToSkip(command: string) {
    |command| == 0 || HasPrefix(command, "//")
  }

  /** The text before the first "//", trimmed. */
  function TrimComment(command: string): string {
    TrimSpace(BeforeComment(command))
  }

  /** What `ReadNextCommand` leaves in the token queue for one line: nothing
      for a skipped line, otherwise the comment-free line split at every
      single space. */
  function Tokenize(line: string): seq<string> {
    var command := TrimSpace(line);
    if IsAbleToSkip(command) then [] else Split(TrimComment(command), ' ')
  }

  /** After trimming, a line that is not skipped keeps its first character
      through the comment cut and the second trim. */
  lemma {:induction false} TrimCommentKeepsFirst(command: string)
    requires !IsAbleToSkip(command)
    requires !IsSpace(command[0])
    ensures |TrimComment(command)| > 0 && TrimComment(command)[0] == command[0]
  {
    var b := BeforeComment(command);
    assert |b| > 0 && b[0] == command[0] by {
      if |command| >= 2 {
        assert !(command[0] == '/' && command[1] == '/') by {
          assert command[..2] != "//";
        }
      }
    }
    var l := TrimLeft(b);
    assert l == b;
    var r := TrimRight(l);
    assert |r| > 0;
  }

  /** A line yields no token exactly when it is skipped. */
  lemma TokenizeEmptyIffSkipped(line: string)
    ensures Tokenize(line) == [] <==> IsAbleToSkip(TrimSpace(line))
  {
  }

  /** A line that is not skipped always yields a non-empty first token: the
      first non-space character of the line. */
  lemma FirstTokenNonEmpty(line: string)
    requires !IsAbleToSkip(TrimSpace(line))
    ensures |Tokenize(line)| >= 1 && |Tokenize(line)[0]| > 0
    ensures Tokenize(line)[0][0] == TrimSpace(line)[0]
  {
    var command := TrimSpace(line);
    TrimCommentKeepsFirst(command);
    SplitFirstPiece(TrimComment(command), ' ');
  }

  /** Joining the tokens of a line that is not skipped with single spaces
      gives back the trimmed, comment-stripped line; no token holds a space. */
  lemma TokensJoinBack(line: string)
    requires !IsAbleToSkip(TrimSpace(line))
    ensures Join(Tokenize(line), " ") == TrimComment(TrimSpace(line))
    ensures forall i :: 0 <= i < |Tokenize(line)| ==> ' ' !in Tokenize(line)[i]
  {
    JoinSplit(TrimComment(TrimSpace(line)), ' ');
    SplitPiecesAvoidSeparator(TrimComment(TrimSpace(line)), ' ');
  }

  /** Separators are single spaces: two adjacent spaces leave an empty token
      between them. */
  lemma {:induction false} AdjacentSpacesGiveEmptyToken(a: string, b: string)
    requires ' ' !in a && ' ' !in b
    ensures Split(a + "  " + b, ' ') == [a, "", b]
  {
    assert a + "  " + b == Join([a, "", b], [' ']) by {
      assert Join([a, "", b], [' ']) == a + [' '] + Join(["", b], [' ']);
      assert Join(["", b], [' ']) == "" + [' '] + Join([b], [' ']);
    }
    SplitJoin([a, "", b], ' ');
  }

  /** Words free of spaces and slashes, whose joined text neither starts nor
      ends with white space, are given back by the tokenizer unchanged. */
  lemma TokenizeJoined(words: seq<string>)
    requires |words| >= 1
    requires forall i :: 0 <= i < |words| ==> ' ' !in words[i] && '/' !in words[i]
    requires |words[0]| > 0 && !IsSpace(words[0][0])
    requires |words[|words| - 1]| > 0 && !IsSpace(Last(words)[|Last(words)| - 1])
    ensures Tokenize(Join(words, " ")) == words
  {
    JoinedWordsShape(words);
    LineIsCommand(Join(words, " "));
    SplitJoin(words, ' ');
  }

  /** A line without slashes that neither starts nor ends with white space is
      neither trimmed, nor cut, nor skipped. */
  lemma LineIsCommand(line: string)
    requires |line| > 0 && !IsSpace(line[0]) && !IsSpace(line[|line| - 1])
    requires '/' !in line
    ensures TrimSpace(line) == line && !IsAbleToSkip(line) && TrimComment(line) == line
  {
    TrimSpaceUnchanged(line);
    BeforeCommentWithoutSlash(line);
    assert line[0] != '/';
  }

  /** The join of such words starts with the first word's first character,
      ends with the last word's last character and holds no slash. */
  lemma {:induction false} JoinedWordsShape(words: seq<string>)
    requires |words| >= 1 && |Last(words)| > 0
    requires forall i :: 0 <= i < |words| ==> '/' !in words[i]
    ensures var line := Join(words, " ");
      |line| > 0 && line[|line| - 1] == Last(words)[|Last(words)| - 1] && '/' !in line
    ensures |words[0]| > 0 ==> Join(words, " ")[0] == words[0][0]
  {
    if |words| > 1 {
      JoinedWordsShape(words[1..]);
      assert Join(words, " ") == words[0] + " " + Join(words[1..], " ");
    }
  }

  lemma TrimSpaceUnchanged(s: string)
    requires |s| > 0 && !IsSpace(s[0]) && !IsSpace(s[|s| - 1])
    ensures TrimSpace(s) == s
  {
  }

  lemma {:induction false} BeforeCommentWithoutSlash(s: string)
    requires '/' !in s
    ensures BeforeComment(s) == s
  {
    if |s| >= 2 {
      BeforeCommentWithoutSlash(s[1..]);
      assert s == [s[0]] + s[1..];
    }
  }

  /** A tab does not separate tokens: it stays inside the token it is in. */
  lemma TabDoesNotSeparate(a: string, b: string, c: string)
    requires ' ' !in a + b + c && '/' !in a + b + c
    requires |a| > 0 && !IsSpace(a[0]) && |c| > 0 && !IsSpace(c[|c| - 1])
    ensures Tokenize(a + "\t" + b + " " + c) == [a + "\t" + b, c]
  {
    var w := a + "\t" + b;
    assert ' ' !in w && '/' !in w by {
      assert forall x :: x in w ==> x in a + b + c || x == '\t';
    }
    assert ' ' !in c && '/' !in c by {
      assert forall x :: x in c ==> x in a + b + c;
    }
    assert Join([w, c], " ") == w + " " + c;
    TokenizeJoined([w, c]);
  }

  /** The token queue of the tokenizer. The scanner that feeds it lines is not
      modelled: the scanned text is the argument of ReadNextCommand. */
  class Tokenizer {
    var tokens: seq<string>

    constructor ()
      ensures tokens == []
    {
      tokens := [];
    }

    /** Replaces the queue with the tokens of the scanned line. */
    method ReadNextCommand(text: string)
      modifies this
      ensures tokens == Tokenize(text)
    {
      var command := TrimSpace(text);
      if IsAbleToSkip(command) {
        tokens := [];
        return;
      }
      command := TrimComment(command);
      tokens := Split(command, ' ');
    }

    method HasMoreTokens() returns (more: bool)
      ensures more <==> |tokens| > 0
    {
      more := |tokens| > 0;
    }

    /** Takes the front token; on an empty queue returns ("", false) and
      changes nothing. */
    method NextToken() returns (next: string, ok: bool)
      modifies this
      ensures ok <==> old(tokens) != []
      ensures ok ==> next == old(tokens)[0] && tokens == old(tokens)[1..]
      ensures !ok ==> next == "" && tokens == old(tokens)
    {
      var more := HasMoreTokens();
      if !more {
        return "", false;
      }
      next := tokens[0];
      tokens := tokens[1..];
      ok := true;
    }
  }
}
