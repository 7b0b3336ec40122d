/**
 * The few pieces of Python's `str` and `os.path` behaviour that pbrx relies on:
 * `strip`, `split(sep)`, `sep.join`, `replace` of one character, `startswith`,
 * `readlines` and `os.path.join`. Strings are sequences of characters; byte
 * strings are modelled as strings whose characters stand for the bytes.
 */
module Text {

  /** `str.isspace()` for one character (the Unicode whitespace Python strips). */
  predicate IsSpace(c: char)
  {
    c == ' ' || c == '\t' || c == '\n' || c == '\r' || c == '\U{0B}' || c == '\U{0C}'
    || ('\U{1C}' <= c <= '\U{1F}') || c == '\U{85}' || c == '\U{A0}' || c == '\U{1680}'
    || ('\U{2000}' <= c <= '\U{200A}') || c == '\U{2028}' || c == '\U{2029}'
    || c == '\U{202F}' || c == '\U{205F}' || c == '\U{3000}'
  }

  /** `bytes.isspace()` for one byte: ASCII whitespace only. */
  predicate IsAsciiSpace(c: char)
  {
    c == ' ' || c == '\t' || c == '\n' || c == '\r' || c == '\U{0B}' || c == '\U{0C}'
  }

  /** The number of leading characters that satisfy `space`. */
  function LeadingCount(s: string, space: char -> bool): (k: nat)
    ensures k <= |s|
    decreases |s|
  {
    if s != [] && space(s[0]) then 1 + LeadingCount(s[1..], space) else 0
  }

  /** The number of trailing characters that satisfy `space`. */
  function TrailingCount(s: string, space: char -> bool): (k: nat)
    ensures k <= |s|
    decreases |s|
  {
    if s != [] && space(s[|s| - 1]) then 1 + TrailingCount(s[..|s| - 1], space) else 0
  }

  /** The leading run counted is all `space`, and the character after it is not. */
  lemma {:induction false} LeadingCountSpec(s: string, space: char -> bool)
    ensures forall k :: 0 <= k < LeadingCount(s, space) ==> space(s[k])
    ensures LeadingCount(s, space) < |s| ==> !space(s[LeadingCount(s, space)])
    decreases |s|
  {
    if s != [] && space(s[0]) {
      LeadingCountSpec(s[1..], space);
      forall k | 1 <= k < LeadingCount(s, space) ensures space(s[k]) {
        assert s[k] == s[1..][k - 1];
      }
    }
  }

  /** The trailing run counted is all `space`, and the character before it is not. */
  lemma {:induction false} TrailingCountSpec(s: string, space: char -> bool)
    ensures forall k :: |s| - TrailingCount(s, space) <= k < |s| ==> space(s[k])
    ensures TrailingCount(s, space) < |s| ==> !space(s[|s| - 1 - TrailingCount(s, space)])
    decreases |s|
  {
    if s != [] && space(s[|s| - 1]) {
      TrailingCountSpec(s[..|s| - 1], space);
    }
  }

  /** `s.rstrip(chars)`: drops the trailing characters that satisfy `space`. */
  function TrimRight(s: string, space: char -> bool): string
  {
    s[..|s| - TrailingCount(s, space)]
  }

  /** Strips with a given notion of whitespace: the leading run, then the trailing run of the rest. */
  function StripWith(s: string, space: char -> bool): string
  {
    var i := LeadingCount(s, space);
    s[i..|s| - TrailingCount(s[i..], space)]
  }

  /** `str.strip()`. */
  function Strip(s: string): string
  {
    StripWith(s, IsSpace)
  }

  /** `bytes.strip()`: as `Strip`, for ASCII whitespace. */
  function StripBytes(s: string): string
  {
    StripWith(s, IsAsciiSpace)
  }

  /** Stripping keeps the longest infix that neither starts nor ends with whitespace: what it
    * drops on either side is whitespace. */
  lemma StripWithSpec(s: string, space: char -> bool)
    ensures var r := StripWith(s, space);
            var i := LeadingCount(s, space);
            && i + |r| <= |s| && r == s[i..i + |r|]
            && (r == [] || (!space(r[0]) && !space(r[|r| - 1])))
            && (forall k :: 0 <= k < i ==> space(s[k]))
            && (forall k :: i + |r| <= k < |s| ==> space(s[k]))
  {
    var i := LeadingCount(s, space);
    var t := s[i..];
    var j := TrailingCount(t, space);
    LeadingCountSpec(s, space);
    TrailingCountSpec(t, space);
    assert StripWith(s, space) == s[i..i + (|t| - j)];
    forall k | i + (|t| - j) <= k < |s| ensures space(s[k]) {
      assert s[k] == t[k - i];
    }
  }

  /** `str.strip()` drops Unicode whitespace from both ends, and only that. */
  lemma StripSpec(s: string)
    ensures var r := Strip(s);
            var i := LeadingCount(s, IsSpace);
            && i + |r| <= |s| && r == s[i..i + |r|]
            && (r == [] || (!IsSpace(r[0]) && !IsSpace(r[|r| - 1])))
            && (forall k :: 0 <= k < i ==> IsSpace(s[k]))
            && (forall k :: i + |r| <= k < |s| ==> IsSpace(s[k]))
  {
    StripWithSpec(s, IsSpace);
  }

  /** `bytes.strip()` drops ASCII whitespace from both ends, and only that. */
  lemma StripBytesSpec(s: string)
    ensures var r := StripBytes(s);
            var i := LeadingCount(s, IsAsciiSpace);
            && i + |r| <= |s| && r == s[i..i + |r|]
            && (r == [] || (!IsAsciiSpace(r[0]) && !IsAsciiSpace(r[|r| - 1])))
            && (forall k :: 0 <= k < i ==> IsAsciiSpace(s[k]))
            && (forall k :: i + |r| <= k < |s| ==> IsAsciiSpace(s[k]))
  {
    StripWithSpec(s, IsAsciiSpace);
  }

  /** A text with no whitespace at either end is its own strip. */
  lemma StripIdempotent(s: string)
    ensures Strip(Strip(s)) == Strip(s)
  {
    StripSpec(s);
    var r := Strip(s);
    if r != [] {
      assert LeadingCount(r, IsSpace) == 0;
      assert TrailingCount(r, IsSpace) == 0;
      assert r[0..|r|] == r;
    }
  }

  /** `s.startswith(p)`. */
  predicate StartsWith(s: string, p: string)
  {
    |p| <= |s| && s[..|p|] == p
  }

  /** Number of occurrences of `c` in `s`. */
  function Count(s: string, c: char): nat
  {
    if s == [] then 0 else (if s[0] == c then 1 else 0) + Count(s[1..], c)
  }

  /** `s.split(sep)` for a non-empty separator: the pieces between the
    * non-overlapping occurrences of `sep`, found from the left. */
  function Split(s: string, sep: string): (r: seq<string>)
    requires sep != []
    ensures |r| >= 1
    decreases |s|
  {
    if |s| < |sep| then [s]
    else if s[..|sep|] == sep then [[]] + Split(s[|sep|..], sep)
    else
      var rest := Split(s[1..], sep);
      [[s[0]] + rest[0]] + rest[1..]
  }

  /** `sep.join(parts)`. */
  function Join(parts: seq<string>, sep: string): string
  {
    if |parts| == 0 then []
    else if |parts| == 1 then parts[0]
    else parts[0] + sep + Join(parts[1..], sep)
  }

  /** Joining the pieces of a split with the same separator gives the text back. */
  lemma {:induction false} JoinSplit(s: string, sep: string)
    requires sep != []
    ensures Join(Split(s, sep), sep) == s
    decreases |s|
  {
    if |s| < |sep| {
    } else if s[..|sep|] == sep {
      JoinSplit(s[|sep|..], sep);
      JoinEmptyHead(Split(s[|sep|..], sep), sep);
      assert s[..|sep|] + s[|sep|..] == s;
    } else {
      JoinSplit(s[1..], sep);
      JoinConsHead(s[0], Split(s[1..], sep), sep);
      assert [s[0]] + s[1..] == s;
    }
  }

  /** An empty first piece contributes only the separator after it. */
  lemma JoinEmptyHead(rest: seq<string>, sep: string)
    requires |rest| >= 1
    ensures Join([[]] + rest, sep) == sep + Join(rest, sep)
  {
    assert ([[]] + rest)[1..] == rest;
  }

  /** A character put in front of the first piece lands in front of the joined text. */
  lemma JoinConsHead(c: char, rest: seq<string>, sep: string)
    requires |rest| >= 1
    ensures Join([[c] + rest[0]] + rest[1..], sep) == [c] + Join(rest, sep)
  {
    var r := [[c] + rest[0]] + rest[1..];
    if |rest| > 1 {
      assert r[1..] == rest[1..];
    }
  }

  /** Splitting on one character gives one more piece than there are occurrences of it. */
  lemma {:induction false} SplitCharCount(s: string, c: char)
    ensures |Split(s, [c])| == Count(s, c) + 1
    decreases |s|
  {
    if s != [] {
      SplitCharCount(s[1..], c);
      assert s[..1] == [s[0]];
    }
  }

  /** `s.replace(a, b)` for single characters `a` and `b`. */
  function ReplaceChar(s: string, a: char, b: char): (r: string)
    ensures |r| == |s|
    ensures forall i :: 0 <= i < |s| ==> r[i] == (if s[i] == a then b else s[i])
  {
    if s == [] then [] else [if s[0] == a then b else s[0]] + ReplaceChar(s[1..], a, b)
  }

  /** Replacing a character commutes with concatenation. */
  lemma ReplaceCharConcat(s: string, t: string, a: char, b: char)
    ensures ReplaceChar(s + t, a, b) == ReplaceChar(s, a, b) + ReplaceChar(t, a, b)
  {
    assert forall i :: 0 <= i < |s| + |t| ==> (s + t)[i] == if i < |s| then s[i] else t[i - |s|];
  }

  /** Replacing a character that does not occur in the separator commutes with `join`. */
  lemma {:induction false} ReplaceCharJoin(parts: seq<string>, sep: string, a: char, b: char)
    requires a !in sep
    ensures ReplaceChar(Join(parts, sep), a, b)
         == Join(seq(|parts|, i requires 0 <= i < |parts| => ReplaceChar(parts[i], a, b)), sep)
    decreases |parts|
  {
    var mapped := seq(|parts|, i requires 0 <= i < |parts| => ReplaceChar(parts[i], a, b));
    if |parts| > 1 {
      ReplaceCharJoin(parts[1..], sep, a, b);
      var tail := seq(|parts| - 1, i requires 0 <= i < |parts| - 1 => ReplaceChar(parts[1..][i], a, b));
      assert mapped[1..] == tail;
      assert ReplaceChar(sep, a, b) == sep;
      ReplaceCharConcat(parts[0] + sep, Join(parts[1..], sep), a, b);
      ReplaceCharConcat(parts[0], sep, a, b);
    }
  }

  /** Concatenation of a sequence of strings. */
  function Concat(parts: seq<string>): string
  {
    if parts == [] then [] else parts[0] + Concat(parts[1..])
  }

  lemma {:induction false} ConcatAppend(parts: seq<string>, last: string)
    ensures Concat(parts + [last]) == Concat(parts) + last
    decreases |parts|
  {
    if parts != [] {
      assert (parts + [last])[1..] == parts[1..] + [last];
      ConcatAppend(parts[1..], last);
    }
  }

  /** `io.readlines()`: the lines of a text, each keeping its terminating newline;
    * a last line without a newline is kept as it is. */
  function ReadLines(s: string): (r: seq<string>)
    ensures forall i :: 0 <= i < |r| ==> r[i] != []
    decreases |s|
  {
    if s == [] then []
    else
      var rest := ReadLines(s[1..]);
      if s[0] == '\n' || rest == [] then [[s[0]]] + rest
      else [[s[0]] + rest[0]] + rest[1..]
  }

  /** Reading the lines of a text loses nothing: writing them back gives the text. */
  lemma {:induction false} ConcatReadLines(s: string)
    ensures Concat(ReadLines(s)) == s
    decreases |s|
  {
    if s != [] {
      var rest := ReadLines(s[1..]);
      ConcatReadLines(s[1..]);
      if s[0] == '\n' || rest == [] {
        assert ([[s[0]]] + rest)[1..] == rest;
      } else {
        var r := [[s[0]] + rest[0]] + rest[1..];
        assert r[1..] == rest[1..];
        assert Concat(rest) == rest[0] + Concat(rest[1..]);
      }
      assert [s[0]] + s[1..] == s;
    }
  }

  /** The lines of a text end at its newlines: every line but the last ends with `\n`, and no
    * line holds a `\n` anywhere before its last character. */
  lemma {:induction false} ReadLinesSplit(s: string)
    ensures forall i :: 0 <= i < |ReadLines(s)| - 1 ==> ReadLines(s)[i][|ReadLines(s)[i]| - 1] == '\n'
    ensures forall i, j :: 0 <= i < |ReadLines(s)| && 0 <= j < |ReadLines(s)[i]| - 1 ==> ReadLines(s)[i][j] != '\n'
    decreases |s|
  {
    if s != [] {
      var rest := ReadLines(s[1..]);
      ReadLinesSplit(s[1..]);
      var r := ReadLines(s);
      if s[0] == '\n' || rest == [] {
        assert r == [[s[0]]] + rest;
        forall i | 0 <= i < |r| - 1 ensures r[i][|r[i]| - 1] == '\n' {
          if i > 0 {
            assert r[i] == rest[i - 1];
            assert rest[i - 1][|rest[i - 1]| - 1] == '\n';
          }
        }
        forall i, j | 0 <= i < |r| && 0 <= j < |r[i]| - 1 ensures r[i][j] != '\n' {
          assert i > 0 && r[i] == rest[i - 1];
          assert rest[i - 1][j] != '\n';
        }
      } else {
        var line := [s[0]] + rest[0];
        assert r == [line] + rest[1..];
        forall i | 0 <= i < |r| - 1 ensures r[i][|r[i]| - 1] == '\n' {
          if i == 0 {
            assert line[|line| - 1] == rest[0][|rest[0]| - 1];
            assert rest[0][|rest[0]| - 1] == '\n';
          } else {
            assert r[i] == rest[i];
            assert rest[i][|rest[i]| - 1] == '\n';
          }
        }
        forall i, j | 0 <= i < |r| && 0 <= j < |r[i]| - 1 ensures r[i][j] != '\n' {
          if i == 0 {
            if j > 0 {
              assert line[j] == rest[0][j - 1];
              assert rest[0][j - 1] != '\n';
            }
          } else {
            assert r[i] == rest[i];
            assert rest[i][j] != '\n';
          }
        }
      }
    }
  }

  /** The text a file reads as in Python's text mode (universal newlines): `\r\n` and a lone
    * `\r` each become `\n`. */
  function Universal(s: string): (r: string)
    ensures '\r' !in r
    ensures |r| <= |s|
    decreases |s|
  {
    if s == [] then []
    else if s[0] == '\r' then "\n" + Universal(if |s| > 1 && s[1] == '\n' then s[2..] else s[1..])
    else [s[0]] + Universal(s[1..])
  }

  /** A text without carriage returns reads back as it is. */
  lemma {:induction false} UniversalPlain(s: string)
    requires '\r' !in s
    ensures Universal(s) == s
    decreases |s|
  {
    if s != [] {
      assert s[0] != '\r' && '\r' !in s[1..];
      UniversalPlain(s[1..]);
      assert [s[0]] + s[1..] == s;
    }
  }

  /** Reading a text that was written after being read changes nothing. */
  lemma UniversalIdempotent(s: string)
    ensures Universal(Universal(s)) == Universal(s)
  {
    UniversalPlain(Universal(s));
  }

  /** `os.path.join(a, b)` for two components. */
  function PathJoin(a: string, b: string): (r: string)
    ensures StartsWith(b, "/") ==> r == b
    ensures !StartsWith(b, "/") ==> r == a + b || r == a + "/" + b
    ensures !StartsWith(b, "/") ==> (r == a + b <==> a == [] || a[|a| - 1] == '/')
  {
    if StartsWith(b, "/") then b
    else if a == [] || a[|a| - 1] == '/' then a + b
    else a + "/" + b
  }

  lemma AppendAssoc<T>(a: seq<T>, b: seq<T>, c: seq<T>)
    ensures a + b + c == a + (b + c)
  {
  }
}
