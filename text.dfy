/**
 * The pieces of Python's string behaviour that the recipe format relies on:
 * `str.strip`, `str.split(sep)`, `sep.join`, `readlines`/`writelines`,
 * ASCII `lower`/`upper`, decimal formatting of integers and digit parsing.
 */
module Text {

  // ---------------------------------------------------------------------------
  // Characters

  /** The characters `str.isspace` accepts, i.e. what `str.strip()` removes. */
  predicate IsSpace(c: char) {
    var n := c as int;
    (9 <= n <= 13) || (28 <= n <= 32) || n == 0x85 || n == 0xA0 || n == 0x1680
    || (0x2000 <= n <= 0x200A) || n == 0x2028 || n == 0x2029 || n == 0x202F
    || n == 0x205F || n == 0x3000
  }

  predicate AllSpaces(s: string) {
    forall i :: 0 <= i < |s| ==> IsSpace(s[i])
  }

  predicate IsDigit(c: char) {
    '0' <= c <= '9'
  }

  predicate AllDigits(s: string) {
    forall i :: 0 <= i < |s| ==> IsDigit(s[i])
  }

  function DigitValue(c: char): (d: nat)
    requires IsDigit(c)
    ensures d < 10
  {
    c as int - '0' as int
  }

  function DigitChar(d: nat): (c: char)
    requires d < 10
    ensures IsDigit(c) && DigitValue(c) == d
  {
    ('0' as int + d) as char
  }

  /** Neither '\n' nor '\r' occurs in `s`: `s` is one line without its terminator. */
  predicate NoLineBreak(s: string) {
    forall i :: 0 <= i < |s| ==> s[i] != '\n' && s[i] != '\r'
  }

  lemma NoLineBreakAppend(a: string, b: string)
    requires NoLineBreak(a) && NoLineBreak(b)
    ensures NoLineBreak(a + b)
  {
    forall i | 0 <= i < |a + b| ensures (a + b)[i] != '\n' && (a + b)[i] != '\r' {
      if i >= |a| { assert (a + b)[i] == b[i - |a|]; }
    }
  }

  /** What `input()` returns: one line of console text, without its terminator. */
  type LineText = s: string | NoLineBreak(s) witness ""

  // ---------------------------------------------------------------------------
  // Decimal numbers

  /** The first decimal digit of `n`, the only digit a one-character read recovers. */
  function LeadingDigit(n: nat): (d: nat)
    ensures d < 10
    ensures n < 10 ==> d == n
    ensures n > 0 ==> d > 0
  {
    if n < 10 then n else LeadingDigit(n / 10)
  }

  /** Python's `str(n)` (and `f'{n}'`, `f'{n:d}'`) for a non-negative integer. */
  function NatToString(n: nat): (s: string)
    ensures |s| >= 1 && AllDigits(s)
    ensures s[0] == DigitChar(LeadingDigit(n))
  {
    if n < 10 then [DigitChar(n)] else NatToString(n / 10) + [DigitChar(n % 10)]
  }

  /** Only digits and minus signs: no separator, blank or line break of the recipe format. */
  predicate IsNumeral(s: string) {
    forall i :: 0 <= i < |s| ==> IsDigit(s[i]) || s[i] == '-'
  }

  lemma NumeralWithout(s: string, c: char)
    requires IsNumeral(s) && !IsDigit(c) && c != '-'
    ensures c !in s
  {
  }

  lemma DigitsWithout(s: string, c: char)
    requires AllDigits(s) && !IsDigit(c)
    ensures c !in s
  {
  }

  /** Python's `str(i)` for any integer. */
  function IntToString(i: int): (s: string)
    ensures |s| >= 1 && NoLineBreak(s) && IsNumeral(s)
    ensures i >= 0 ==> AllDigits(s) && s[0] == DigitChar(LeadingDigit(i))
    ensures i < 0 ==> s[0] == '-'
  {
    if i < 0 then "-" + NatToString(-i) else NatToString(i)
  }

  /** The value of a string of decimal digits (the empty string is 0). */
  function DigitsValue(s: string): nat
    requires AllDigits(s)
  {
    if s == [] then 0 else DigitsValue(s[..|s| - 1]) * 10 + DigitValue(s[|s| - 1])
  }

  function Pow10(k: nat): (p: nat)
    ensures p >= 1
  {
    if k == 0 then 1 else 10 * Pow10(k - 1)
  }

  /** Reading back what `NatToString` wrote gives the number. */
  lemma {:induction false} NatToStringValue(n: nat)
    ensures DigitsValue(NatToString(n)) == n
  {
    if n >= 10 {
      NatToStringValue(n / 10);
      var s := NatToString(n);
      assert s[..|s| - 1] == NatToString(n / 10);
    }
  }

  // ---------------------------------------------------------------------------
  // Case

  function LowerChar(c: char): char {
    if 'A' <= c <= 'Z' then (c as int + 32) as char else c
  }

  function UpperChar(c: char): char {
    if 'a' <= c <= 'z' then (c as int - 32) as char else c
  }

  /** `str.lower()` restricted to ASCII letters. */
  function Lower(s: string): (r: string)
    ensures |r| == |s| && forall i :: 0 <= i < |s| ==> r[i] == LowerChar(s[i])
    ensures NoLineBreak(s) ==> NoLineBreak(r)
  {
    seq(|s|, i requires 0 <= i < |s| => LowerChar(s[i]))
  }

  /** `str.upper()` restricted to ASCII letters. */
  function Upper(s: string): (r: string)
    ensures |r| == |s| && forall i :: 0 <= i < |s| ==> r[i] == UpperChar(s[i])
  {
    seq(|s|, i requires 0 <= i < |s| => UpperChar(s[i]))
  }

  /** The console sentinel test `s.upper() == 'Q'`, stated on the line's one character. */
  predicate IsQuit(s: string) {
    |s| == 1 && UpperChar(s[0]) == 'Q'
  }

  /** The sentinel test agrees with upper-casing the whole line, and accepts exactly `q` and `Q`. */
  lemma QuitIsQ(s: string)
    ensures IsQuit(s) <==> Upper(s) == "Q"
    ensures IsQuit(s) <==> s == "q" || s == "Q"
  {
    if Upper(s) == "Q" {
      assert |s| == 1 && UpperChar(s[0]) == Upper(s)[0];
    }
    if IsQuit(s) {
      assert Upper(s) == [UpperChar(s[0])];
    }
  }

  // ---------------------------------------------------------------------------
  // strip

  function TrimStart(s: string): (r: string)
    ensures |r| <= |s|
    ensures r == [] || !IsSpace(r[0])
  {
    if s != [] && IsSpace(s[0]) then TrimStart(s[1..]) else s
  }

  function TrimEnd(s: string): (r: string)
    ensures |r| <= |s| && r == s[..|r|]
    ensures r == [] || !IsSpace(r[|r| - 1])
  {
    if s != [] && IsSpace(s[|s| - 1]) then TrimEnd(s[..|s| - 1]) else s
  }

  /** Python's `str.strip()`: drop leading and trailing whitespace. */
  function Strip(s: string): (r: string)
    ensures |r| <= |s|
    ensures r == [] || (!IsSpace(r[0]) && !IsSpace(r[|r| - 1]))
  {
    TrimEnd(TrimStart(s))
  }

  /** `lstrip()` drops only leading blanks: it leaves a suffix. */
  lemma {:induction false} TrimStartBorder(s: string)
    ensures var r := TrimStart(s);
            r == s[|s| - |r|..] && AllSpaces(s[..|s| - |r|])
  {
    if s != [] && IsSpace(s[0]) {
      TrimStartBorder(s[1..]);
      var r := TrimStart(s);
      assert s[..|s| - |r|] == [s[0]] + s[1..][..|s| - 1 - |r|];
    }
  }

  /** `rstrip()` drops only trailing blanks. */
  lemma {:induction false} TrimEndBorder(s: string)
    ensures AllSpaces(s[|TrimEnd(s)|..])
  {
    if s != [] && IsSpace(s[|s| - 1]) {
      var p := s[..|s| - 1];
      TrimEndBorder(p);
      var n := |TrimEnd(s)|;
      assert s[n..] == p[n..] + [s[|s| - 1]];
    }
  }

  /**
   * `strip()` keeps the middle of the string between blank borders, and it is
   * empty exactly when the string is all blanks, which is when `strip()[0]`
   * raises IndexError.
   */
  lemma StripMeaning(s: string)
    ensures var r := Strip(s);
            exists i :: 0 <= i <= |s| - |r| && r == s[i..i + |r|] && AllSpaces(s[..i]) && AllSpaces(s[i + |r|..])
    ensures Strip(s) == [] <==> AllSpaces(s)
  {
    var u := TrimStart(s);
    TrimStartBorder(s);
    TrimEndBorder(u);
    StripBorders(s, u, Strip(s));
  }

  lemma StripBorders(s: string, u: string, r: string)
    requires |u| <= |s| && u == s[|s| - |u|..] && AllSpaces(s[..|s| - |u|])
    requires |r| <= |u| && r == u[..|r|] && AllSpaces(u[|r|..])
    requires r == [] || !IsSpace(r[0])
    ensures var i := |s| - |u|;
            r == s[i..i + |r|] && AllSpaces(s[..i]) && AllSpaces(s[i + |r|..])
    ensures r == [] <==> AllSpaces(s)
  {
    var i := |s| - |u|;
    assert s[i + |r|..] == u[|r|..];
    if r == [] {
      forall k | 0 <= k < |s| ensures IsSpace(s[k]) {
        if k >= i { assert s[k] == u[k - i]; } else { assert s[k] == s[..i][k]; }
      }
    } else {
      assert s[i] == r[0];
    }
  }

  /** Trimming the end of a string that starts with a non-space keeps that first character. */
  lemma {:induction false} TrimEndKeepsHead(s: string)
    requires s != [] && !IsSpace(s[0])
    ensures TrimEnd(s) != [] && TrimEnd(s)[0] == s[0]
  {
    if IsSpace(s[|s| - 1]) {
      TrimEndKeepsHead(s[..|s| - 1]);
    }
  }

  /** After blanks only, the first non-blank character of a field is the first character of its strip. */
  lemma {:induction false} StripHead(s: string, k: nat)
    requires k < |s| && !IsSpace(s[k])
    requires forall i :: 0 <= i < k ==> IsSpace(s[i])
    ensures Strip(s) != [] && Strip(s)[0] == s[k]
  {
    if k == 0 {
      assert TrimStart(s) == s;
    } else {
      assert TrimStart(s) == TrimStart(s[1..]);
      StripHead(s[1..], k - 1);
    }
    TrimEndKeepsHead(TrimStart(s));
  }

  // ---------------------------------------------------------------------------
  // split / join

  /** Python's `s.split(c)`: the pieces between occurrences of `c`; never empty. */
  function Split(s: string, c: char): (parts: seq<string>)
    ensures |parts| >= 1
    ensures forall k :: 0 <= k < |parts| ==> c !in parts[k]
  {
    if s == [] then [""]
    else
      var rest := Split(s[1..], c);
      if s[0] == c then [""] + rest
      else [[s[0]] + rest[0]] + rest[1..]
  }

  /** Python's `c.join(parts)`. */
  function Join(parts: seq<string>, c: char): string {
    if parts == [] then ""
    else if |parts| == 1 then parts[0]
    else parts[0] + [c] + Join(parts[1..], c)
  }

  lemma {:induction false} SplitWithout(p: string, c: char)
    requires c !in p
    ensures Split(p, c) == [p]
  {
    if p != [] {
      SplitWithout(p[1..], c);
      assert [p[0]] + p[1..] == p;
    }
  }

  lemma {:induction false} SplitAfter(p: string, c: char, t: string)
    requires c !in p
    ensures Split(p + [c] + t, c) == [p] + Split(t, c)
  {
    var s := p + [c] + t;
    if p == [] {
      assert s[1..] == t;
    } else {
      assert s[1..] == p[1..] + [c] + t;
      SplitAfter(p[1..], c, t);
      assert [p[0]] + p[1..] == p;
    }
  }

  /** Splitting what `Join` produced gives back the pieces, when none of them holds the separator. */
  lemma {:induction false} SplitJoin(parts: seq<string>, c: char)
    requires |parts| >= 1
    requires forall k :: 0 <= k < |parts| ==> c !in parts[k]
    ensures Split(Join(parts, c), c) == parts
  {
    if |parts| == 1 {
      SplitWithout(parts[0], c);
    } else {
      SplitJoin(parts[1..], c);
      SplitAfter(parts[0], c, Join(parts[1..], c));
    }
  }

  /** Joining the pieces of a split gives back the string. */
  lemma {:induction false} JoinSplit(s: string, c: char)
    ensures Join(Split(s, c), c) == s
  {
    if s != [] {
      JoinSplit(s[1..], c);
      var rest := Split(s[1..], c);
      if s[0] == c {
        assert Split(s, c) == [""] + rest;
        assert s == [c] + s[1..];
      } else {
        if |rest| == 1 {
          assert s == [s[0]] + rest[0];
        } else {
          assert ([s[0]] + rest[0]) + [c] + Join(rest[1..], c) == [s[0]] + Join(rest, c);
          assert s == [s[0]] + s[1..];
        }
      }
    }
  }

  /** Text appended after a join lands in its last piece. */
  lemma {:induction false} JoinAppend(parts: seq<string>, c: char, tail: string)
    requires |parts| >= 1
    ensures Join(parts, c) + tail == Join(parts[..|parts| - 1] + [parts[|parts| - 1] + tail], c)
  {
    var q := parts[..|parts| - 1] + [parts[|parts| - 1] + tail];
    if |parts| > 1 {
      JoinAppend(parts[1..], c, tail);
      assert q[1..] == parts[1..][..|parts[1..]| - 1] + [parts[1..][|parts[1..]| - 1] + tail];
    }
  }

  // ---------------------------------------------------------------------------
  // readlines / writelines

  /** A line as `readline` returns it: text up to and including its one '\n'. */
  predicate IsLine(l: string) {
    |l| >= 1 && l[|l| - 1] == '\n' && '\n' !in l[..|l| - 1]
  }

  /** `f.readlines()` on a file holding `s` (lines split after each '\n'). */
  function SplitLines(s: string): (lines: seq<string>)
    ensures s == [] <==> lines == []
  {
    if s == [] then []
    else
      var rest := SplitLines(s[1..]);
      if s[0] == '\n' || rest == [] then [[s[0]]] + rest
      else [[s[0]] + rest[0]] + rest[1..]
  }

  /** `f.writelines(lines)`: the file holds the lines one after another. */
  function Concat(lines: seq<string>): string {
    if lines == [] then "" else lines[0] + Concat(lines[1..])
  }

  /** Writing the lines back reproduces the text that was read. */
  lemma {:induction false} ConcatSplitLines(s: string)
    ensures Concat(SplitLines(s)) == s
  {
    if s != [] {
      ConcatSplitLines(s[1..]);
      var rest := SplitLines(s[1..]);
      if s[0] == '\n' || rest == [] {
        assert s == [s[0]] + s[1..];
      } else {
        assert Concat(rest) == rest[0] + Concat(rest[1..]);
        assert s == [s[0]] + s[1..];
      }
    }
  }

  /** A text that starts with a complete line reads as that line followed by the rest. */
  lemma {:induction false} SplitLinesAfter(p: string, t: string)
    requires '\n' !in p
    ensures SplitLines(p + "\n" + t) == [p + "\n"] + SplitLines(t)
  {
    var s := p + "\n" + t;
    if p == [] {
      assert s[0] == '\n' && s[1..] == t && p + "\n" == [s[0]];
    } else {
      assert s[1..] == p[1..] + "\n" + t;
      SplitLinesAfter(p[1..], t);
      assert [p[0]] + (p[1..] + "\n") == p + "\n";
    }
  }

  /** Reading back complete lines written one after another gives those lines. */
  lemma {:induction false} SplitLinesConcat(lines: seq<string>)
    requires forall k :: 0 <= k < |lines| ==> IsLine(lines[k])
    ensures SplitLines(Concat(lines)) == lines
  {
    if lines != [] {
      var l := lines[0];
      SplitLinesConcat(lines[1..]);
      assert l == l[..|l| - 1] + "\n";
      SplitLinesAfter(l[..|l| - 1], Concat(lines[1..]));
    }
  }

  lemma {:induction false} ConcatAppend(a: seq<string>, b: seq<string>)
    ensures Concat(a + b) == Concat(a) + Concat(b)
  {
    if a == [] {
      assert a + b == b;
    } else {
      var ab := a + b;
      assert ab[1..] == a[1..] + b;
      ConcatAppend(a[1..], b);
      var x, y, z := a[0], Concat(a[1..]), Concat(b);
      assert Concat(ab) == x + (y + z);
      assert x + (y + z) == (x + y) + z;
    }
  }
}
