/**
 * The parts of Go's `strings` package that the panel relies on: `TrimSpace`
 * and `Split`/`Join` around a one-character separator. Strings are sequences
 * of Unicode scalar values, so Go's handling of invalid UTF-8 is not modelled.
 */
module GoStrings {

  /** unicode.IsSpace: exactly the characters with the Unicode White_Space property. */
  predicate IsSpace(c: char) {
    || ('\t' <= c <= '\r')
    || c == ' '
    || c == '\U{0085}'
    || c == '\U{00A0}'
    || c == '\U{1680}'
    || ('\U{2000}' <= c <= '\U{200A}')
    || c == '\U{2028}'
    || c == '\U{2029}'
    || c == '\U{202F}'
    || c == '\U{205F}'
    || c == '\U{3000}'
  }

  predicate AllSpace(s: string) {
    forall i :: 0 <= i < |s| ==> IsSpace(s[i])
  }

  /** How many white-space characters s starts with. */
  function Leading(s: string): (k: nat)
    ensures k <= |s|
    ensures forall i :: 0 <= i < k ==> IsSpace(s[i])
    ensures k < |s| ==> !IsSpace(s[k])
  {
    if s == [] || !IsSpace(s[0]) then 0 else 1 + Leading(s[1..])
  }

  /** How many white-space characters s ends with. */
  function Trailing(s: string): (k: nat)
    ensures k <= |s|
    ensures forall i :: |s| - k <= i < |s| ==> IsSpace(s[i])
    ensures k < |s| ==> !IsSpace(s[|s| - 1 - k])
  {
    if s == [] || !IsSpace(s[|s| - 1]) then 0 else 1 + Trailing(s[..|s| - 1])
  }

  /**
   * strings.TrimSpace: s with white space dropped at both ends. The result is
   * empty exactly when s is all white space; otherwise it is the segment of s
   * between its leading and its trailing white space, and it starts and ends
   * with a character that is not white space.
   */
  function TrimSpace(s: string): (r: string)
    ensures r == [] <==> AllSpace(s)
    ensures r != [] ==>
      && Leading(s) + Trailing(s) < |s|
      && r == s[Leading(s)..|s| - Trailing(s)]
      && !IsSpace(r[0]) && !IsSpace(r[|r| - 1])
  {
    var lo := Leading(s);
    if lo == |s| then ""
    else
      assert !IsSpace(s[lo]);
      s[lo..|s| - Trailing(s)]
  }

  /** Trimming a string that is already trimmed changes nothing. */
  lemma TrimSpaceIdempotent(s: string)
    ensures TrimSpace(TrimSpace(s)) == TrimSpace(s)
  {
    var t := TrimSpace(s);
    if t != [] {
      assert Leading(t) == 0;
      assert Trailing(t) == 0;
    }
  }

  /** The number of occurrences of c in s. */
  function Occurrences(s: string, c: char): nat
  {
    if s == [] then 0 else (if s[0] == c then 1 else 0) + Occurrences(s[1..], c)
  }

  /**
   * strings.Split(s, string(sep)): the pieces of s between the occurrences of
   * sep. There is one more piece than there are separators, so the result is
   * never empty, and no piece contains the separator.
   */
  function Split(s: string, sep: char): (parts: seq<string>)
    ensures |parts| == Occurrences(s, sep) + 1
    ensures forall i :: 0 <= i < |parts| ==> sep !in parts[i]
    decreases |s|
  {
    if s == [] then [""]
    else
      var rest := Split(s[1..], sep);
      if s[0] == sep then [""] + rest
      else [[s[0]] + rest[0]] + rest[1..]
  }

  /** strings.Join(parts, string(sep)). */
  function Join(parts: seq<string>, sep: char): string
  {
    if |parts| == 0 then ""
    else if |parts| == 1 then parts[0]
    else parts[0] + [sep] + Join(parts[1..], sep)
  }

  /** Joining the pieces of a split gives back the string. */
  lemma {:induction false} JoinSplit(s: string, sep: char)
    ensures Join(Split(s, sep), sep) == s
    decreases |s|
  {
    if s != [] {
      var rest := Split(s[1..], sep);
      JoinSplit(s[1..], sep);
      if s[0] == sep {
        assert Split(s, sep) == [""] + rest;
        assert ([""] + rest)[1..] == rest;
        assert s == [s[0]] + s[1..];
      } else if |rest| == 1 {
        assert Split(s, sep) == [[s[0]] + rest[0]];
        assert s == [s[0]] + s[1..];
      } else {
        var parts := Split(s, sep);
        assert parts == [[s[0]] + rest[0]] + rest[1..];
        assert parts[1..] == rest[1..];
        assert Join(rest, sep) == rest[0] + [sep] + Join(rest[1..], sep);
        assert s == [s[0]] + s[1..];
      }
    }
  }

  /** A string free of the separator is a single piece. */
  lemma {:induction false} SplitWithoutSeparator(s: string, sep: char)
    requires sep !in s
    ensures Split(s, sep) == [s]
    decreases |s|
  {
    if s != [] {
      assert sep !in s[1..] by {
        forall i | 0 <= i < |s[1..]| ensures s[1..][i] != sep { assert s[1..][i] == s[i + 1]; }
      }
      SplitWithoutSeparator(s[1..], sep);
      assert [s[0]] + s[1..] == s;
    }
  }

  /** Splitting a separator-free piece followed by the separator peels that piece off. */
  lemma {:induction false} SplitAfterPiece(a: string, t: string, sep: char)
    requires sep !in a
    ensures Split(a + [sep] + t, sep) == [a] + Split(t, sep)
    decreases |a|
  {
    var s := a + [sep] + t;
    if a == [] {
      assert s[0] == sep && s[1..] == t;
    } else {
      var a' := a[1..];
      assert sep !in a' by {
        forall i | 0 <= i < |a'| ensures a'[i] != sep { assert a'[i] == a[i + 1]; }
      }
      SplitAfterPiece(a', t, sep);
      assert s[0] == a[0] && s[0] != sep;
      assert s[1..] == a' + [sep] + t;
      assert [a[0]] + a' == a;
    }
  }

  /** Splitting a join of separator-free pieces gives back the pieces. */
  lemma {:induction false} SplitJoin(parts: seq<string>, sep: char)
    requires |parts| >= 1
    requires forall i :: 0 <= i < |parts| ==> sep !in parts[i]
    ensures Split(Join(parts, sep), sep) == parts
    decreases |parts|
  {
    if |parts| == 1 {
      SplitWithoutSeparator(parts[0], sep);
    } else {
      SplitJoin(parts[1..], sep);
      SplitAfterPiece(parts[0], Join(parts[1..], sep), sep);
      assert [parts[0]] + parts[1..] == parts;
    }
  }

  /** A join of two or more pieces ends with the separator and the last piece. */
  lemma {:induction false} JoinLast(parts: seq<string>, sep: char)
    requires |parts| >= 2
    ensures Join(parts, sep) == Join(parts[..|parts| - 1], sep) + [sep] + parts[|parts| - 1]
    decreases |parts|
  {
    if |parts| > 2 {
      JoinLast(parts[1..], sep);
      assert parts[1..][..|parts| - 2] == parts[..|parts| - 1][1..];
    }
  }

  /** The first piece of a split starts the string; it is empty only if s is empty or starts with sep. */
  lemma SplitFirst(s: string, sep: char)
    ensures var p := Split(s, sep)[0];
      |p| <= |s| && p == s[..|p|] && (p == [] ==> s == [] || s[0] == sep)
  {
    JoinSplit(s, sep);
  }

  /** The last piece of a split ends the string; it is empty only if s is empty or ends with sep. */
  lemma SplitLast(s: string, sep: char)
    ensures var parts := Split(s, sep); var p := parts[|parts| - 1];
      |p| <= |s| && p == s[|s| - |p|..] && (p == [] ==> s == [] || s[|s| - 1] == sep)
  {
    var parts := Split(s, sep);
    JoinSplit(s, sep);
    if |parts| >= 2 {
      JoinLast(parts, sep);
    }
  }

  /**
   * Cutting a trimmed string into lines: a string of white space alone gives
   * the single empty line, and any other string gives a first line that is
   * not empty and does not start with white space, and a last line that is
   * not empty and does not end with it.
   */
  lemma TrimmedLines(s: string)
    ensures var lines := Split(TrimSpace(s), '\n');
      && (lines == [""] <==> AllSpace(s))
      && (!AllSpace(s) ==>
            && lines[0] != [] && !IsSpace(lines[0][0])
            && lines[|lines| - 1] != [] && !IsSpace(lines[|lines| - 1][|lines[|lines| - 1]| - 1]))
  {
    var t := TrimSpace(s);
    TrimmedFirstLine(t);
    TrimmedLastLine(t);
    SingleEmptyLine(t);
  }

  lemma SingleEmptyLine(t: string)
    ensures Split(t, '\n') == [""] <==> t == []
  {
    if Split(t, '\n') == [""] {
      JoinSplit(t, '\n');
    }
  }

  lemma TrimmedFirstLine(t: string)
    requires t == [] || !IsSpace(t[0])
    ensures var p := Split(t, '\n')[0]; (p == [] <==> t == []) && (p == [] || !IsSpace(p[0]))
  {
    assert IsSpace('\n');
    SplitFirst(t, '\n');
    var p := Split(t, '\n')[0];
    if p != [] {
      assert p[0] == t[0];
    }
  }

  lemma TrimmedLastLine(t: string)
    requires t == [] || !IsSpace(t[|t| - 1])
    ensures var lines := Split(t, '\n'); var p := lines[|lines| - 1];
      (p == [] <==> t == []) && (p == [] || !IsSpace(p[|p| - 1]))
  {
    assert IsSpace('\n');
    SplitLast(t, '\n');
    var lines := Split(t, '\n');
    var p := lines[|lines| - 1];
    if p != [] {
      assert p[|p| - 1] == t[|t| - 1];
    }
  }
}
