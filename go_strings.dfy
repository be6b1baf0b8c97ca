/** Option and Result values: how the model reports a missing value and a
    fatal error (the translator's log.Fatalf calls). */
module Outcomes {

  datatype Option<T> = None | Some(value: T)

  datatype Result<T, E> = Ok(value: T) | Err(error: E)

  /** A step that either passes or fails with an error, returning nothing. */
  datatype Outcome<E> = Pass | Fail(error: E)
}

/** The parts of Go's `strings` and `strconv` packages that the translator
    relies on, written out over `string` = `seq<char>`. */
module GoStrings {
  import opened Outcomes

  const MinInt64: int := -0x8000_0000_0000_0000
  const MaxInt64: int := 0x7FFF_FFFF_FFFF_FFFF

  /** Go's `int16` range. */
  type Int16 = x: int | -0x8000 <= x < 0x8000

  /** Go's conversion `int16(x)`: keeps the low 16 bits, two's complement. */
  function ToInt16(x: int): (r: Int16)
    ensures (r - x) % 0x1_0000 == 0
    ensures -0x8000 <= x < 0x8000 ==> r == x
  {
    (x + 0x8000) % 0x1_0000 - 0x8000
  }

  // ---------------------------------------------------------------------------
  // strings.TrimSpace

  /** `unicode.IsSpace`, the test `strings.TrimSpace` uses. */
  predicate IsSpace(c: char) {
    c == ' ' || c == '\t' || c == '\n' || c == '\U{000B}' || c == '\U{000C}' || c == '\r'
    || c == '\U{0085}' || c == '\U{00A0}' || c == '\U{1680}' || ('\U{2000}' <= c <= '\U{200A}')
    || c == '\U{2028}' || c == '\U{2029}' || c == '\U{202F}' || c == '\U{205F}' || c == '\U{3000}'
  }

  function TrimLeft(s: string): (r: string)
    ensures |r| <= |s| && r == s[|s| - |r|..]
    ensures r == [] || !IsSpace(r[0])
    ensures forall i :: 0 <= i < |s| - |r| ==> IsSpace(s[i])
  {
    if |s| > 0 && IsSpace(s[0]) then TrimLeft(s[1..]) else s
  }

  function TrimRight(s: string): (r: string)
    ensures |r| <= |s| && r == s[..|r|]
    ensures r == [] || !IsSpace(r[|r| - 1])
    ensures forall i :: |r| <= i < |s| ==> IsSpace(s[i])
  {
    if |s| > 0 && IsSpace(s[|s| - 1]) then TrimRight(s[..|s| - 1]) else s
  }

  /** `strings.TrimSpace`: the result is the infix of `s` left after removing
      every leading and trailing white-space character. */
  function TrimSpace(s: string): (r: string)
    ensures LeadingSpaces(s) + |r| <= |s| && r == s[LeadingSpaces(s)..LeadingSpaces(s) + |r|]
    ensures r == [] || (!IsSpace(r[0]) && !IsSpace(r[|r| - 1]))
  {
    var l := TrimLeft(s);
    var r := TrimRight(l);
    assert r == s[|s| - |l|..][..|r|] == s[|s| - |l|..|s| - |l| + |r|];
    r
  }

  /** How many white-space characters `strings.TrimSpace` removes in front. */
  function LeadingSpaces(s: string): nat
  {
    |s| - |TrimLeft(s)|
  }

  /** `strings.HasPrefix`. */
  predicate HasPrefix(s: string, prefix: string) {
    |prefix| <= |s| && s[..|prefix|] == prefix
  }

  // ---------------------------------------------------------------------------
  // strings.Split and strings.Join with a one-character separator

  /** `strings.Split(s, string(c))`: the pieces between the occurrences of `c`;
      there is always one more piece than there are occurrences. */
  function Split(s: string, c: char): (r: seq<string>)
    ensures |r| >= 1
    decreases |s|
  {
    if |s| == 0 then [""]
    else if s[0] == c then [""] + Split(s[1..], c)
    else
      var t := Split(s[1..], c);
      [[s[0]] + t[0]] + t[1..]
  }

  /** `strings.Join(pieces, sep)`. */
  function Join(pieces: seq<string>, sep: string): string
  {
    if |pieces| == 0 then ""
    else if |pieces| == 1 then pieces[0]
    else pieces[0] + sep + Join(pieces[1..], sep)
  }

  /** Joining the pieces again with the separator gives back the text. */
  lemma {:induction false} JoinSplit(s: string, c: char)
    ensures Join(Split(s, c), [c]) == s
    decreases |s|
  {
    if |s| > 0 {
      JoinSplit(s[1..], c);
      if s[0] == c {
        JoinSplitAtSeparator(s, c);
      } else {
        JoinSplitInPiece(s, c);
      }
    }
  }

  lemma JoinSplitAtSeparator(s: string, c: char)
    requires |s| > 0 && s[0] == c && Join(Split(s[1..], c), [c]) == s[1..]
    ensures Join(Split(s, c), [c]) == s
  {
    var t := Split(s[1..], c);
    assert Split(s, c) == [""] + t;
    assert Join([""] + t, [c]) == "" + [c] + Join(t, [c]);
    assert s == [c] + s[1..];
  }

  lemma JoinSplitInPiece(s: string, c: char)
    requires |s| > 0 && s[0] != c && Join(Split(s[1..], c), [c]) == s[1..]
    ensures Join(Split(s, c), [c]) == s
  {
    var t := Split(s[1..], c);
    JoinConsHead(s[0], t, [c]);
    assert s == [s[0]] + s[1..];
  }

  /** Putting a character in front of the first piece puts it in front of
      the join. */
  lemma JoinConsHead(x: char, t: seq<string>, sep: string)
    requires |t| >= 1
    ensures Join([[x] + t[0]] + t[1..], sep) == [x] + Join(t, sep)
  {
    var h := [x] + t[0];
    if |t| == 1 {
      assert [h] + t[1..] == [h];
    } else {
      assert ([h] + t[1..])[1..] == t[1..];
    }
  }

  /** No piece of a split contains the separator. */
  lemma {:induction false} SplitPiecesAvoidSeparator(s: string, c: char)
    ensures forall i :: 0 <= i < |Split(s, c)| ==> c !in Split(s, c)[i]
    decreases |s|
  {
    if |s| > 0 {
      SplitPiecesAvoidSeparator(s[1..], c);
    }
  }

  /** The other direction of the round trip: pieces free of the separator come
      back unchanged from a split of their join. */
  lemma {:induction false} SplitJoin(pieces: seq<string>, c: char)
    requires |pieces| >= 1
    requires forall i :: 0 <= i < |pieces| ==> c !in pieces[i]
    ensures Split(Join(pieces, [c]), c) == pieces
    decreases |pieces|, |pieces[0]|
  {
    var p := pieces[0];
    if |p| == 0 {
      if |pieces| > 1 {
        SplitJoin(pieces[1..], c);
        SplitJoinEmptyHead(pieces, c);
      }
    } else {
      assert c !in p[1..] by { assert forall x :: x in p[1..] ==> x in p; }
      SplitJoin([p[1..]] + pieces[1..], c);
      SplitJoinConsHead(pieces, c);
    }
  }

  lemma SplitJoinEmptyHead(pieces: seq<string>, c: char)
    requires |pieces| >= 2 && pieces[0] == ""
    requires Split(Join(pieces[1..], [c]), c) == pieces[1..]
    ensures Split(Join(pieces, [c]), c) == pieces
  {
    var s := Join(pieces, [c]);
    assert s == [c] + Join(pieces[1..], [c]);
    assert s[1..] == Join(pieces[1..], [c]);
    assert pieces == [""] + pieces[1..];
  }

  lemma SplitJoinConsHead(pieces: seq<string>, c: char)
    requires |pieces| >= 1 && |pieces[0]| > 0 && pieces[0][0] != c
    requires var tail := [pieces[0][1..]] + pieces[1..];
      Split(Join(tail, [c]), c) == tail
    ensures Split(Join(pieces, [c]), c) == pieces
  {
    var p := pieces[0];
    var tail := [p[1..]] + pieces[1..];
    JoinConsHead(p[0], tail, [c]);
    assert [[p[0]] + tail[0]] + tail[1..] == pieces by {
      assert [p[0]] + p[1..] == p;
      assert tail[1..] == pieces[1..];
    }
    var s := Join(pieces, [c]);
    assert s[1..] == Join(tail, [c]);
  }

  /** A split yields one piece more than the separator occurs in the text, so
      two adjacent separators produce an empty piece between them. */
  lemma {:induction false} SplitCount(s: string, c: char)
    ensures |Split(s, c)| == Occurrences(s, c) + 1
    decreases |s|
  {
    if |s| > 0 {
      SplitCount(s[1..], c);
    }
  }

  function Occurrences(s: string, c: char): nat
  {
    if |s| == 0 then 0 else (if s[0] == c then 1 else 0) + Occurrences(s[1..], c)
  }

  /** A text that contains the separator splits into at least two pieces. */
  lemma {:induction false} SplitAtSeparator(s: string, c: char)
    requires c in s
    ensures |Split(s, c)| >= 2
  {
    OccurrencesOfMember(s, c);
    SplitCount(s, c);
  }

  lemma {:induction false} OccurrencesOfMember(s: string, c: char)
    requires c in s
    ensures Occurrences(s, c) > 0
    decreases |s|
  {
    if s[0] != c {
      assert c in s[1..] by {
        var i :| 0 <= i < |s| && s[i] == c;
        assert s[1..][i - 1] == c;
      }
      OccurrencesOfMember(s[1..], c);
    }
  }

  /** When the text does not start with the separator, the first piece starts
      with the text's first character. */
  lemma {:induction false} SplitFirstPiece(s: string, c: char)
    requires |s| > 0 && s[0] != c
    ensures |Split(s, c)[0]| > 0 && Split(s, c)[0][0] == s[0]
  {
  }

  /** The first piece of a split is the text before the first separator (all
      of the text when there is none). */
  lemma {:induction false} SplitHead(s: string, c: char)
    ensures var h := Split(s, c)[0];
      |h| <= |s| && h == s[..|h|] && c !in h && (|h| < |s| ==> s[|h|] == c)
    decreases |s|
  {
    if |s| > 0 && s[0] != c {
      SplitHead(s[1..], c);
    }
  }

  /** The last piece of a split: the text after the last separator. */
  function Last(pieces: seq<string>): string
    requires |pieces| >= 1
  {
    pieces[|pieces| - 1]
  }

  /** The last piece of a split is the text after the last separator (all
      of the text when there is none). */
  lemma {:induction false} SplitLast(s: string, c: char)
    ensures var l := Last(Split(s, c));
      |l| <= |s| && s[|s| - |l|..] == l && c !in l && (|l| < |s| ==> s[|s| - |l| - 1] == c)
    decreases |s|
  {
    if |s| > 0 {
      SplitLast(s[1..], c);
      SplitLastStep(s, c);
    }
  }

  /** `l` is a suffix of `s`, free of `c`, and preceded by `c` unless it is
      the whole of `s`. */
  predicate IsLastPiece(s: string, l: string, c: char) {
    |l| <= |s| && s[|s| - |l|..] == l && c !in l && (|l| < |s| ==> s[|s| - |l| - 1] == c)
  }

  lemma SplitLastStep(s: string, c: char)
    requires |s| > 0 && IsLastPiece(s[1..], Last(Split(s[1..], c)), c)
    ensures IsLastPiece(s, Last(Split(s, c)), c)
  {
    if s[0] == c || c in s[1..] {
      LastPieceOfTail(s, c);
      SuffixOfTail(s, Last(Split(s[1..], c)), c);
    } else {
      SplitWithoutSeparator(s[1..], c);
      assert s == [s[0]] + s[1..];
    }
  }

  /** Once a separator is left in the text, dropping the first character
      keeps the last piece. */
  lemma LastPieceOfTail(s: string, c: char)
    requires |s| > 0 && (s[0] == c || c in s[1..])
    ensures Last(Split(s, c)) == Last(Split(s[1..], c))
  {
    if s[0] != c {
      SplitAtSeparator(s[1..], c);
    }
  }

  /** A suffix of the tail of a text, preceded there by `c`, is a suffix of
      the text preceded by `c`. */
  lemma SuffixOfTail(s: string, l: string, c: char)
    requires |s| > 0 && IsLastPiece(s[1..], l, c)
    requires |l| == |s| - 1 ==> s[0] == c
    ensures IsLastPiece(s, l, c)
  {
    assert s[|s| - |l|..] == s[1..][|s| - 1 - |l|..];
  }

  /** A text without the separator is a single piece. */
  lemma {:induction false} SplitWithoutSeparator(s: string, c: char)
    requires c !in s
    ensures Split(s, c) == [s]
    decreases |s|
  {
    if |s| > 0 {
      assert c !in s[1..] by { assert forall x :: x in s[1..] ==> x in s; }
      SplitWithoutSeparator(s[1..], c);
      assert s == [s[0]] + s[1..];
    }
  }

  /** Appending a separator and a piece free of it appends that piece. */
  lemma {:induction false} SplitSnoc(a: string, c: char, b: string)
    requires c !in b
    ensures Split(a + [c] + b, c) == Split(a, c) + [b]
    decreases |a|
  {
    var s := a + [c] + b;
    if |a| == 0 {
      assert s == [c] + b;
      assert s[1..] == b;
      SplitWithoutSeparator(b, c);
    } else {
      assert s[1..] == a[1..] + [c] + b;
      SplitSnoc(a[1..], c, b);
    }
  }

  /** Joining pieces is joining all but the last, the separator and the last. */
  lemma {:induction false} JoinSnoc(pieces: seq<string>, sep: string)
    requires |pieces| >= 2
    ensures Join(pieces, sep) == Join(pieces[..|pieces| - 1], sep) + sep + Last(pieces)
    decreases |pieces|
  {
    if |pieces| > 2 {
      JoinSnoc(pieces[1..], sep);
      assert pieces[1..][..|pieces| - 2] == pieces[..|pieces| - 1][1..];
    }
  }

  // ---------------------------------------------------------------------------
  // strings.Split(s, "//")[0]

  /** The text before the first occurrence of "//" (all of `s` if there is none). */
  function BeforeComment(s: string): (r: string)
    ensures |r| <= |s| && r == s[..|r|]
  {
    if |s| < 2 then s
    else if s[0] == '/' && s[1] == '/' then ""
    else [s[0]] + BeforeComment(s[1..])
  }

  /** Nothing before the cut starts a comment marker, and the cut is either the
      whole text or followed by "//". */
  lemma {:induction false} BeforeCommentCutsAtFirstMarker(s: string)
    ensures forall i :: 0 <= i < |BeforeComment(s)| && i + 1 < |s| ==> !(s[i] == '/' && s[i + 1] == '/')
    ensures BeforeComment(s) == s || HasPrefix(s[|BeforeComment(s)|..], "//")
  {
    if |s| >= 2 && !(s[0] == '/' && s[1] == '/') {
      BeforeCommentCutsAtFirstMarker(s[1..]);
      var r := BeforeComment(s[1..]);
      assert BeforeComment(s) == [s[0]] + r;
      assert s[|r| + 1..] == s[1..][|r|..];
      forall i | 0 <= i < |r| + 1 && i + 1 < |s|
        ensures !(s[i] == '/' && s[i + 1] == '/')
      {
        if i > 0 {
          assert s[i] == s[1..][i - 1] && s[i + 1] == s[1..][i];
        }
      }
    }
  }

  // ---------------------------------------------------------------------------
  // strconv.Itoa and strconv.Atoi

  predicate IsDigit(c: char) {
    '0' <= c <= '9'
  }

  predicate AllDigits(s: string) {
    forall i :: 0 <= i < |s| ==> IsDigit(s[i])
  }

  function DigitChar(d: nat): (c: char)
    requires d < 10
    ensures IsDigit(c) && c as int - '0' as int == d
  {
    ('0' as int + d) as char
  }

  /** The decimal digits of a natural number, without leading zeros. */
  function NatToString(n: nat): (r: string)
    ensures |r| > 0 && AllDigits(r)
    ensures r[0] == '0' ==> n == 0
    decreases n
  {
    if n < 10 then [DigitChar(n)] else NatToString(n / 10) + [DigitChar(n % 10)]
  }

  /** The value of a string of decimal digits. */
  function DigitsValue(s: string): nat
    requires AllDigits(s)
  {
    if |s| == 0 then 0
    else DigitsValue(s[..|s| - 1]) * 10 + (s[|s| - 1] as int - '0' as int)
  }

  /** Reading back the digits of `n` gives `n`. */
  lemma {:induction false} DigitsValueOfNatToString(n: nat)
    ensures DigitsValue(NatToString(n)) == n
    decreases n
  {
    if n >= 10 {
      DigitsValueOfNatToString(n / 10);
      var s := NatToString(n);
      assert s[..|s| - 1] == NatToString(n / 10);
    }
  }

  /** Distinct numbers have distinct decimal texts. */
  lemma NatToStringInjective(a: nat, b: nat)
    ensures NatToString(a) == NatToString(b) ==> a == b
  {
    DigitsValueOfNatToString(a);
    DigitsValueOfNatToString(b);
  }

  /** `strconv.Itoa`: decimal text, with a leading '-' for a negative number. */
  function Itoa(n: int): (r: string)
  {
    if n < 0 then "-" + NatToString(-n) else NatToString(n)
  }

  /** `strconv.Atoi` (base 10, 64-bit `int`): an optional sign, then at least
      one decimal digit, with the value inside the 64-bit range. */
  function Atoi(s: string): (r: Option<int>)
    ensures r.Some? ==> MinInt64 <= r.value <= MaxInt64
  {
    var signed := |s| > 0 && (s[0] == '-' || s[0] == '+');
    var digits := if signed then s[1..] else s;
    if |digits| == 0 || !AllDigits(digits) then None
    else
      var v: int := if signed && s[0] == '-' then -(DigitsValue(digits) as int) else DigitsValue(digits);
      if MinInt64 <= v <= MaxInt64 then Some(v) else None
  }

  /** Atoi accepts exactly an optional sign followed by one or more digits
      (when the value is in range), and rejects the empty string. */
  lemma AtoiRejectsNonNumbers(s: string)
    ensures s == "" ==> Atoi(s) == None
    ensures (exists i :: 0 <= i < |s| && !IsDigit(s[i]) && !(i == 0 && (s[0] == '-' || s[0] == '+'))) ==> Atoi(s) == None
  {
    if exists i :: 0 <= i < |s| && !IsDigit(s[i]) && !(i == 0 && (s[0] == '-' || s[0] == '+')) {
      var i :| 0 <= i < |s| && !IsDigit(s[i]) && !(i == 0 && (s[0] == '-' || s[0] == '+'));
      var signed := |s| > 0 && (s[0] == '-' || s[0] == '+');
      if signed {
        assert !IsDigit(s[1..][i - 1]);
      }
    }
  }

  /** Itoa and Atoi form a round trip on the 64-bit range. */
  lemma AtoiItoa(n: int)
    requires MinInt64 <= n <= MaxInt64
    ensures Atoi(Itoa(n)) == Some(n)
  {
    if n < 0 {
      DigitsValueOfNatToString(-n);
      assert Itoa(n)[1..] == NatToString(-n);
    } else {
      DigitsValueOfNatToString(n);
      var s := NatToString(n);
      assert IsDigit(s[0]);
    }
  }

  /** Itoa is injective on all integers. */
  lemma ItoaInjective(a: int, b: int)
    ensures Itoa(a) == Itoa(b) ==> a == b
  {
    if Itoa(a) == Itoa(b) {
      if a < 0 && b < 0 {
        assert Itoa(a)[1..] == NatToString(-a) && Itoa(b)[1..] == NatToString(-b);
        NatToStringInjective(-a, -b);
      } else if a >= 0 && b >= 0 {
        NatToStringInjective(a, b);
      }
    }
  }

  /** The decimal text of a number holds only digits and possibly a leading '-'. */
  lemma ItoaCharacters(n: int)
    ensures |Itoa(n)| > 0
    ensures forall i :: 0 <= i < |Itoa(n)| ==> IsDigit(Itoa(n)[i]) || (i == 0 && Itoa(n)[i] == '-')
  {
  }
}
