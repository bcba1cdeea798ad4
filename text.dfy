/**
  The string operations of Python that the modelled code relies on:
  `startswith`/`endswith`, `in` on strings, `str.split(sep)` with a
  one-character separator, `sep.join`, `strip()`/`lstrip(c)`, ASCII
  `lower()`, and `str(n)` / `int(digits)` for natural numbers.
*/
module Text {

  predicate StartsWith(s: string, p: string) {
    |p| <= |s| && s[..|p|] == p
  }

  predicate EndsWith(s: string, p: string) {
    |p| <= |s| && s[|s| - |p|..] == p
  }

  /** Python's `sub in s`. */
  predicate Contains(s: string, sub: string)
    decreases |s|
  {
    StartsWith(s, sub) || (|s| > 0 && Contains(s[1..], sub))
  }

  lemma {:induction false} ContainsAt(s: string, sub: string, i: nat)
    requires i + |sub| <= |s| && s[i..i + |sub|] == sub
    ensures Contains(s, sub)
    decreases i
  {
    if i > 0 {
      assert s[1..][i - 1..i - 1 + |sub|] == s[i..i + |sub|];
      ContainsAt(s[1..], sub, i - 1);
    }
  }

  /** A string contains each of the pieces it is glued from. */
  lemma ContainsMiddle(a: string, b: string, c: string)
    ensures Contains(a + b + c, b)
  {
    var s := a + b + c;
    assert s[|a|..|a| + |b|] == b;
    ContainsAt(s, b, |a|);
  }

  lemma AppendRegroup(x: string, y: string, z: string, w: string)
    ensures x + (y + z) + w == x + y + (z + w)
  {
  }

  lemma EndsWithAppend(a: string, b: string)
    ensures EndsWith(a + b, b)
  {
    assert (a + b)[|a + b| - |b|..] == b;
  }

  lemma StartsWithAppend(a: string, b: string)
    ensures StartsWith(a + b, a)
  {
    assert (a + b)[..|a|] == a;
  }

  lemma {:induction false} ContainsInLeft(a: string, b: string, sub: string)
    requires Contains(a, sub)
    ensures Contains(a + b, sub)
    decreases |a|
  {
    if StartsWith(a, sub) {
      assert (a + b)[..|sub|] == a[..|sub|];
    } else {
      assert (a + b)[1..] == a[1..] + b;
      ContainsInLeft(a[1..], b, sub);
    }
  }

  lemma {:induction false} ContainsInRight(a: string, b: string, sub: string)
    requires Contains(b, sub)
    ensures Contains(a + b, sub)
    decreases |a|
  {
    if |a| > 0 {
      assert (a + b)[1..] == a[1..] + b;
      ContainsInRight(a[1..], b, sub);
    } else {
      assert a + b == b;
    }
  }

  /** Number of occurrences of `c` in `s`. */
  function Count(s: string, c: char): nat {
    if |s| == 0 then 0 else (if s[0] == c then 1 else 0) + Count(s[1..], c)
  }

  /**
    Python's `s.split(sep)` for a one-character `sep`: the pieces between
    the separators, always at least one (`"".split(";") == [""]`).
  */
  function Split(s: string, sep: char): (pieces: seq<string>)
    ensures |pieces| >= 1
  {
    if |s| == 0 then [""]
    else
      var rest := Split(s[1..], sep);
      if s[0] == sep then [""] + rest else [[s[0]] + rest[0]] + rest[1..]
  }

  /** Python's `sep.join(parts)`. */
  function Join(parts: seq<string>, sep: string): string {
    if |parts| == 0 then ""
    else if |parts| == 1 then parts[0]
    else parts[0] + sep + Join(parts[1..], sep)
  }

  lemma {:induction false} SplitPiecesHaveNoSeparator(s: string, sep: char)
    ensures forall p :: p in Split(s, sep) ==> sep !in p
  {
    if |s| > 0 {
      SplitPiecesHaveNoSeparator(s[1..], sep);
    }
  }

  lemma {:induction false} SplitLength(s: string, sep: char)
    ensures |Split(s, sep)| == Count(s, sep) + 1
  {
    if |s| > 0 {
      SplitLength(s[1..], sep);
    }
  }

  /** A joined string contains each of its parts. */
  lemma {:induction false} JoinContainsParts(parts: seq<string>, sep: string)
    ensures forall k :: 0 <= k < |parts| ==> Contains(Join(parts, sep), parts[k])
  {
    if |parts| == 1 {
      assert Contains(parts[0] + "" + "", parts[0]) by { ContainsMiddle("", parts[0], ""); }
      assert parts[0] + "" + "" == Join(parts, sep);
    } else if |parts| > 1 {
      var rest := Join(parts[1..], sep);
      JoinContainsParts(parts[1..], sep);
      ContainsMiddle("", parts[0], sep + rest);
      assert "" + parts[0] + (sep + rest) == Join(parts, sep);
      forall k | 1 <= k < |parts| ensures Contains(Join(parts, sep), parts[k]) {
        assert parts[1..][k - 1] == parts[k];
        ContainsInRight(parts[0] + sep, rest, parts[k]);
      }
    }
  }

  lemma JoinCons(head: string, rest: seq<string>, sep: string)
    requires |rest| >= 1
    ensures Join([head] + rest, sep) == head + sep + Join(rest, sep)
  {
    assert ([head] + rest)[1..] == rest;
  }

  lemma JoinGrowHead(c: char, parts: seq<string>, sep: string)
    requires |parts| >= 1
    ensures Join([[c] + parts[0]] + parts[1..], sep) == [c] + Join(parts, sep)
  {
    if |parts| > 1 {
      JoinCons([c] + parts[0], parts[1..], sep);
    }
  }

  /** Joining the pieces with the separator gives back the original text. */
  lemma {:induction false} JoinSplit(s: string, sep: char)
    ensures Join(Split(s, sep), [sep]) == s
  {
    if |s| > 0 {
      var rest := Split(s[1..], sep);
      JoinSplit(s[1..], sep);
      if s[0] == sep {
        JoinCons("", rest, [sep]);
      } else {
        JoinGrowHead(s[0], rest, [sep]);
      }
    }
  }

  lemma {:induction false} SplitWithoutSeparator(s: string, sep: char)
    requires sep !in s
    ensures Split(s, sep) == [s]
  {
    if |s| > 0 {
      assert sep !in s[1..] by {
        forall k | 0 <= k < |s[1..]| ensures s[1..][k] != sep {
          assert s[1..][k] == s[k + 1];
        }
      }
      SplitWithoutSeparator(s[1..], sep);
      assert [s[0]] + s[1..] == s;
    }
  }

  lemma {:induction false} SplitAfterPiece(x: string, sep: char, y: string)
    requires sep !in x
    ensures Split(x + [sep] + y, sep) == [x] + Split(y, sep)
  {
    if |x| == 0 {
      assert x + [sep] + y == [sep] + y;
      assert ([sep] + y)[1..] == y;
    } else {
      assert (x + [sep] + y)[1..] == x[1..] + [sep] + y;
      SplitAfterPiece(x[1..], sep, y);
      assert [x[0]] + x[1..] == x;
    }
  }

  /** Splitting a join of separator-free pieces gives the pieces back. */
  lemma {:induction false} SplitJoin(parts: seq<string>, sep: char)
    requires |parts| >= 1
    requires forall p :: p in parts ==> sep !in p
    ensures Split(Join(parts, [sep]), sep) == parts
  {
    if |parts| == 1 {
      SplitWithoutSeparator(parts[0], sep);
    } else {
      SplitJoin(parts[1..], sep);
      assert parts[0] in parts;
      SplitAfterPiece(parts[0], sep, Join(parts[1..], [sep]));
    }
  }

  /** The white-space characters of Python's `str.isspace()`. */
  predicate IsSpace(c: char) {
    ('\U{9}' <= c <= '\U{D}') || ('\U{1C}' <= c <= ' ') || c == '\U{85}' || c == '\U{A0}'
    || c == '\U{1680}' || ('\U{2000}' <= c <= '\U{200A}') || c == '\U{2028}' || c == '\U{2029}'
    || c == '\U{202F}' || c == '\U{205F}' || c == '\U{3000}'
  }

  /** Python's `lstrip()`: a suffix of `s` that does not start with white space. */
  function LStrip(s: string): (r: string)
    ensures |r| <= |s| && r == s[|s| - |r|..]
    ensures |r| == 0 || !IsSpace(r[0])
  {
    if |s| > 0 && IsSpace(s[0]) then LStrip(s[1..]) else s
  }

  /** Python's `rstrip()`: a prefix of `s` that does not end with white space. */
  function RStrip(s: string): (r: string)
    ensures |r| <= |s| && r == s[..|r|]
    ensures |r| == 0 || !IsSpace(r[|r| - 1])
  {
    if |s| > 0 && IsSpace(s[|s| - 1]) then RStrip(s[..|s| - 1]) else s
  }

  /** Python's `strip()`. */
  function Strip(s: string): string {
    RStrip(LStrip(s))
  }

  /** `strip()` cuts a slice out of `s`, starting after the leading white space. */
  lemma StripIsSlice(s: string)
    ensures var i := |s| - |LStrip(s)|;
      i + |Strip(s)| <= |s| && Strip(s) == s[i..i + |Strip(s)|]
  {
    var l := LStrip(s);
    var i := |s| - |l|;
    var r := RStrip(l);
    calc {
      r;
      l[..|r|];
      s[i..][..|r|];
      s[i..i + |r|];
    }
  }

  /** Neither end of the stripped text is white space. */
  lemma StripEndsAreNotSpace(s: string)
    ensures |Strip(s)| == 0 || (!IsSpace(Strip(s)[0]) && !IsSpace(Strip(s)[|Strip(s)| - 1]))
  {
    var l := LStrip(s);
    var r := RStrip(l);
    if |r| > 0 {
      assert r[0] == l[0];
    }
  }

  /** Stripping twice is stripping once. */
  lemma StripIdempotent(s: string)
    ensures Strip(Strip(s)) == Strip(s)
  {
    var t := Strip(s);
    StripEndsAreNotSpace(s);
    assert LStrip(t) == t;
    assert RStrip(t) == t;
  }

  /** Python's `lstrip(c)` for a single character `c`. */
  function LStripChar(s: string, c: char): (r: string)
    ensures |r| <= |s| && r == s[|s| - |r|..]
    ensures |r| == 0 || r[0] != c
    ensures forall k :: 0 <= k < |s| - |r| ==> s[k] == c
  {
    if |s| > 0 && s[0] == c then LStripChar(s[1..], c) else s
  }

  /** Python's `lower()` on the ASCII letters. */
  function LowerChar(c: char): char {
    if 'A' <= c <= 'Z' then (c as int + 32) as char else c
  }

  function Lower(s: string): (r: string)
    ensures |r| == |s|
    ensures forall k :: 0 <= k < |s| ==> r[k] == LowerChar(s[k])
  {
    if |s| == 0 then "" else [LowerChar(s[0])] + Lower(s[1..])
  }

  predicate IsDigit(c: char) {
    '0' <= c <= '9'
  }

  predicate AllDigits(s: string) {
    forall k :: 0 <= k < |s| ==> IsDigit(s[k])
  }

  function DigitChar(d: nat): char
    requires d < 10
  {
    ('0' as int + d) as char
  }

  function DigitValue(c: char): nat
    requires IsDigit(c)
  {
    c as int - '0' as int
  }

  /** Python's `str(n)` for a natural number. */
  function NatToString(n: nat): (r: string)
    ensures |r| >= 1 && AllDigits(r)
    ensures r[0] == '0' ==> n == 0
  {
    if n < 10 then [DigitChar(n)] else NatToString(n / 10) + [DigitChar(n % 10)]
  }

  /** Python's `str(n)` for any integer. */
  function IntToString(n: int): (r: string)
    ensures |r| >= 1
  {
    if n < 0 then "-" + NatToString(-n) else NatToString(n)
  }

  /** Python's `int(digits)` for a non-empty run of ASCII digits. */
  function ParseDigits(s: string): nat
    requires AllDigits(s)
  {
    if |s| == 0 then 0 else ParseDigits(s[..|s| - 1]) * 10 + DigitValue(s[|s| - 1])
  }

  /** `int(str(n)) == n`. */
  lemma {:induction false} ParseNatToString(n: nat)
    ensures ParseDigits(NatToString(n)) == n
  {
    if n >= 10 {
      var s := NatToString(n);
      assert s[..|s| - 1] == NatToString(n / 10);
      ParseNatToString(n / 10);
    }
  }

  /**
    The lines `"1. a\n2. b\n..."` that the agents write for numbered lists,
    counting from `first`.
  */
  function NumberedLines(items: seq<string>, first: nat): string {
    if |items| == 0 then ""
    else NatToString(first) + ". " + items[0] + "\n" + NumberedLines(items[1..], first + 1)
  }

  function NumberedLine(item: string, n: nat): string {
    NatToString(n) + ". " + item + "\n"
  }

  /** Appending one more item appends one more numbered line. */
  lemma {:induction false} NumberedLinesSnoc(items: seq<string>, item: string, first: nat)
    ensures NumberedLines(items + [item], first)
         == NumberedLines(items, first) + NumberedLine(item, first + |items|)
  {
    if |items| > 0 {
      assert (items + [item])[1..] == items[1..] + [item];
      NumberedLinesSnoc(items[1..], item, first + 1);
    } else {
      assert (items + [item])[1..] == [];
    }
  }

  /** The concatenation of all parts. */
  function Concat(parts: seq<string>): string {
    if |parts| == 0 then "" else parts[0] + Concat(parts[1..])
  }

  /** Line k of a numbered list is item k numbered `first + k`. */
  lemma {:induction false} NumberedLinesConcat(items: seq<string>, first: nat)
    ensures NumberedLines(items, first)
         == Concat(seq(|items|, k requires 0 <= k < |items| => NumberedLine(items[k], first + k)))
  {
    var lines := seq(|items|, k requires 0 <= k < |items| => NumberedLine(items[k], first + k));
    if |items| > 0 {
      NumberedLinesConcat(items[1..], first + 1);
      assert lines[1..] == seq(|items[1..]|, k requires 0 <= k < |items[1..]| => NumberedLine(items[1..][k], first + 1 + k));
    }
  }

  /** The items `"1. a"`, `"2. b"`, ... of a list numbered from `first`, without line ends. */
  function NumberedItems(items: seq<string>, first: nat): (r: seq<string>)
    ensures |r| == |items|
    ensures forall k :: 0 <= k < |items| ==> r[k] == NatToString(first + k) + ". " + items[k]
  {
    seq(|items|, k requires 0 <= k < |items| => NatToString(first + k) + ". " + items[k])
  }
}
