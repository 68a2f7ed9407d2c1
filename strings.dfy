/**
 * The JavaScript string operations the core relies on, over `seq<char>`:
 * `split` and `join` on one separator character, `trim`, `startsWith`,
 * `padStart`, and `Number.prototype.toString(radix)` for integers.
 */
module Strings {

  // ---------------------------------------------------------------------
  // split / join
  // ---------------------------------------------------------------------

  /** `s.split(sep)` for a one-character separator: never empty, `"".split(sep) == [""]`. */
  function Split(s: string, sep: char): (parts: seq<string>)
    ensures |parts| >= 1
    ensures forall i :: 0 <= i < |parts| ==> sep !in parts[i]
    ensures sep !in s ==> parts == [s]
    decreases |s|
  {
    if |s| == 0 then [""]
    else
      var rest := Split(s[1..], sep);
      assert s == [s[0]] + s[1..];
      if s[0] == sep then [""] + rest
      else [[s[0]] + rest[0]] + rest[1..]
  }

  /** `parts.join(sep)`. */
  function Join(parts: seq<string>, sep: char): string
    decreases |parts|
  {
    if |parts| == 0 then ""
    else if |parts| == 1 then parts[0]
    else parts[0] + [sep] + Join(parts[1..], sep)
  }

  /** Joining the pieces of a split with the same separator gives back the string. */
  lemma {:induction false} JoinSplit(s: string, sep: char)
    ensures Join(Split(s, sep), sep) == s
    decreases |s|
  {
    if |s| > 0 {
      JoinSplit(s[1..], sep);
      var rest := Split(s[1..], sep);
      if s[0] == sep {
        assert s == [sep] + s[1..];
      } else {
        assert s == [s[0]] + s[1..];
        if |rest| > 1 {
          assert Join(rest, sep) == rest[0] + [sep] + Join(rest[1..], sep);
          var parts := [[s[0]] + rest[0]] + rest[1..];
          assert parts[1..] == rest[1..];
        }
      }
    }
  }

  /** Splitting `a + sep + b` where `a` has no separator yields `a` followed by the pieces of `b`. */
  lemma {:induction false} SplitAfter(a: string, sep: char, b: string)
    requires sep !in a
    ensures Split(a + [sep] + b, sep) == [a] + Split(b, sep)
    decreases |a|
  {
    if |a| == 0 {
      assert a + [sep] + b == [sep] + b;
      assert ([sep] + b)[1..] == b;
    } else {
      assert (a + [sep] + b)[1..] == a[1..] + [sep] + b;
      SplitAfter(a[1..], sep, b);
      assert [a[0]] + a[1..] == a;
    }
  }

  /** The first piece of a split is the text before the first separator, and
      there is more than one piece exactly when the separator occurs. */
  lemma {:induction false} SplitFirst(s: string, sep: char)
    ensures |Split(s, sep)| > 1 <==> sep in s
    ensures |Split(s, sep)| > 1 ==> s == Split(s, sep)[0] + [sep] + Join(Split(s, sep)[1..], sep)
  {
    JoinSplit(s, sep);
    var parts := Split(s, sep);
    if |parts| > 1 {
      assert Join(parts, sep) == parts[0] + [sep] + Join(parts[1..], sep);
      assert s[|parts[0]|] == sep;
    }
  }

  /** A string splits at its first separator in only one way. */
  lemma FirstSeparatorUnique(a: string, b: string, c: string, d: string, sep: char)
    requires sep !in a && sep !in c
    requires a + [sep] + b == c + [sep] + d
    ensures a == c && b == d
  {
    var s := a + [sep] + b;
    assert s[|a|] == sep && s[|c|] == sep;
    assert forall i :: 0 <= i < |a| ==> s[i] == a[i] && a[i] in a;
    assert forall i :: 0 <= i < |c| ==> s[i] == c[i] && c[i] in c;
    assert a == s[..|a|] && c == s[..|c|];
    assert b == s[|a| + 1..] && d == s[|c| + 1..];
  }

  // ---------------------------------------------------------------------
  // trim
  // ---------------------------------------------------------------------

  /** ECMAScript WhiteSpace and LineTerminator code points, which `trim` removes. */
  predicate IsWhitespace(c: char) {
    c == '\t' || c == '\n' || c == '\U{000B}' || c == '\U{000C}' || c == '\r' || c == ' '
    || c == '\U{00A0}' || c == '\U{1680}' || ('\U{2000}' <= c <= '\U{200A}')
    || c == '\U{2028}' || c == '\U{2029}' || c == '\U{202F}' || c == '\U{205F}'
    || c == '\U{3000}' || c == '\U{FEFF}'
  }

  function TrimStart(s: string): (r: string)
    ensures |r| <= |s| && r == s[|s| - |r|..]
    ensures r == [] || !IsWhitespace(r[0])
    decreases |s|
  {
    if |s| > 0 && IsWhitespace(s[0]) then TrimStart(s[1..]) else s
  }

  function TrimEnd(s: string): (r: string)
    ensures |r| <= |s| && r == s[..|r|]
    ensures r == [] || !IsWhitespace(r[|r| - 1])
    decreases |s|
  {
    if |s| > 0 && IsWhitespace(s[|s| - 1]) then TrimEnd(s[..|s| - 1]) else s
  }

  /** Trimming the end never removes a non-whitespace character or anything before it. */
  lemma {:induction false} TrimEndKeeps(s: string, i: nat)
    requires i < |s| && !IsWhitespace(s[i])
    ensures |TrimEnd(s)| > i
    decreases |s|
  {
    if IsWhitespace(s[|s| - 1]) {
      TrimEndKeeps(s[..|s| - 1], i);
    }
  }

  /** `s.trim()`. */
  function Trim(s: string): string {
    TrimEnd(TrimStart(s))
  }

  /** A string that neither starts nor ends with whitespace. */
  predicate Trimmed(s: string) {
    s == [] || (!IsWhitespace(s[0]) && !IsWhitespace(s[|s| - 1]))
  }

  /** Trimming removes leading spaces and leaves an already trimmed core alone. */
  lemma {:induction false} TrimSpaces(n: nat, s: string)
    requires Trimmed(s)
    ensures Trim(seq(n, _ => ' ') + s) == s
    decreases n
  {
    if n == 0 {
      assert seq(n, _ => ' ') + s == s;
    } else {
      var t := seq(n, _ => ' ') + s;
      assert t[1..] == seq(n - 1, _ => ' ') + s;
      TrimSpaces(n - 1, s);
    }
  }

  // ---------------------------------------------------------------------
  // startsWith, padStart
  // ---------------------------------------------------------------------

  predicate StartsWith(s: string, prefix: string) {
    |prefix| <= |s| && s[..|prefix|] == prefix
  }

  /** `s.padStart(len, fill)` with a one-character fill. */
  function PadStart(s: string, len: nat, fill: char): (r: string)
    ensures |r| == if |s| >= len then |s| else len
    ensures r[|r| - |s|..] == s
    ensures forall i :: 0 <= i < |r| - |s| ==> r[i] == fill
  {
    if |s| >= len then s else seq(len - |s|, _ => fill) + s
  }

  // ---------------------------------------------------------------------
  // Number.prototype.toString(radix) on integers, and its inverse
  // ---------------------------------------------------------------------

  type Radix = b: int | 2 <= b <= 36 witness 10

  /** The digit character for `d`: `0`-`9`, then `a`-`z`. */
  function DigitChar(d: nat): (c: char)
    requires d < 36
    ensures IsDigitChar(c)
  {
    if d < 10 then ('0' as int + d) as char else ('a' as int + d - 10) as char
  }

  predicate IsDigitChar(c: char) {
    ('0' <= c <= '9') || ('a' <= c <= 'z')
  }

  function DigitValue(c: char): nat {
    if '0' <= c <= '9' then c as int - '0' as int
    else if 'a' <= c <= 'z' then c as int - 'a' as int + 10
    else 0
  }

  /** The digits of `n` in base `b`, most significant first. */
  function NatToString(n: nat, b: Radix): (s: string)
    ensures |s| >= 1
    ensures forall i :: 0 <= i < |s| ==> IsDigitChar(s[i])
    decreases n
  {
    if n < b then [DigitChar(n)]
    else
      DivMod(n, b);
      NatToString(n / b, b) + [DigitChar(n % b)]
  }

  lemma DivMod(n: nat, b: Radix)
    requires n >= b
    ensures 1 <= n / b < n && 0 <= n % b < b && n == n / b * b + n % b
  {
  }

  lemma DigitRoundTrip(d: nat)
    requires d < 36
    ensures DigitValue(DigitChar(d)) == d
  {
  }

  /** `n.toString(b)` for an integer `n`: a minus sign, then the digits of `|n|`. */
  function IntToString(n: int, b: Radix): (s: string)
    ensures |s| >= 1
    ensures s[0] == '-' <==> n < 0
  {
    if n < 0 then "-" + NatToString(-n, b) else NatToString(n, b)
  }

  /** The value of a digit string in base `b` (an independent reading of the digits). */
  function ParseNat(s: string, b: Radix): nat
    decreases |s|
  {
    if |s| == 0 then 0 else ParseNat(s[..|s| - 1], b) * b + DigitValue(s[|s| - 1])
  }

  /** The value of a signed digit string in base `b`. */
  function ParseInt(s: string, b: Radix): int {
    if |s| > 0 && s[0] == '-' then 0 - ParseNat(s[1..], b) else ParseNat(s, b)
  }

  /** Reading the rendered digits back gives the number. */
  lemma {:induction false} ParseNatToString(n: nat, b: Radix)
    ensures ParseNat(NatToString(n, b), b) == n
    decreases n
  {
    if n < b {
      DigitRoundTrip(n);
    } else {
      DivMod(n, b);
      ParseNatToString(n / b, b);
      DigitRoundTrip(n % b);
      var s := NatToString(n, b);
      assert s[..|s| - 1] == NatToString(n / b, b);
      assert ParseNat(s, b) == ParseNat(NatToString(n / b, b), b) * b + DigitValue(DigitChar(n % b));
    }
  }

  /** `toString(b)` on integers is inverted by reading the sign and the digits. */
  lemma ParseIntToString(n: int, b: Radix)
    ensures ParseInt(IntToString(n, b), b) == n
  {
    if n < 0 {
      ParseNatToString(-n, b);
      assert IntToString(n, b)[1..] == NatToString(-n, b);
    } else {
      ParseNatToString(n, b);
    }
  }

  /** Hence rendering is injective. */
  lemma IntToStringInjective(m: int, n: int, b: Radix)
    requires IntToString(m, b) == IntToString(n, b)
    ensures m == n
  {
    ParseIntToString(m, b);
    ParseIntToString(n, b);
  }
}
