/** The few pieces of Python string behaviour the shell relies on: `str.strip()`,
    `str.lower()` on the exit keywords, `s[:n]`, the decimal rendering of an
    `int` inside an f-string, and whether `shlex.split` accepts a command line. */
module Text {

  /** Python's `str.isspace()` for a single character. */
  predicate IsSpace(c: char): (b: bool)
    ensures c == ' ' || c == '\t' || c == '\n' || c == '\r' ==> b
    ensures b ==> !('a' <= c <= 'z' || 'A' <= c <= 'Z' || '0' <= c <= '9')
  {
    c == ' ' || ('\t' <= c <= '\r') || ('\U{1c}' <= c <= '\U{1f}')
    || c == '\U{85}' || c == '\U{a0}' || c == '\U{1680}'
    || ('\U{2000}' <= c <= '\U{200a}') || c == '\U{2028}' || c == '\U{2029}'
    || c == '\U{202f}' || c == '\U{205f}' || c == '\U{3000}'
  }

  predicate AllSpace(s: string) {
    forall i | 0 <= i < |s| :: IsSpace(s[i])
  }

  /** `s.lstrip()`: the longest suffix of `s` that does not start with whitespace. */
  function TrimLeft(s: string): (r: string)
    ensures |r| <= |s| && r == s[|s| - |r|..]
    ensures AllSpace(s[..|s| - |r|])
    ensures r != [] ==> !IsSpace(r[0])
  {
    if s != [] && IsSpace(s[0]) then
      var r := TrimLeft(s[1..]);
      assert s[1..][..|s| - 1 - |r|] == s[1..|s| - |r|];
      r
    else s
  }

  /** `s.rstrip()`: the longest prefix of `s` that does not end with whitespace. */
  function TrimRight(s: string): (r: string)
    ensures |r| <= |s| && r == s[..|r|]
    ensures AllSpace(s[|r|..])
    ensures r != [] ==> !IsSpace(r[|r| - 1])
  {
    if s != [] && IsSpace(s[|s| - 1]) then
      var r := TrimRight(s[..|s| - 1]);
      assert s[..|s| - 1][|r|..] == s[|r|..|s| - 1];
      assert s[|r|..] == s[|r|..|s| - 1] + [s[|s| - 1]];
      r
    else s
  }

  /** `s.strip()`. */
  function Strip(s: string): (r: string)
    ensures r == [] || (!IsSpace(r[0]) && !IsSpace(r[|r| - 1]))
  {
    TrimRight(TrimLeft(s))
  }

  lemma {:induction false} TrimLeftPadding(pre: string, u: string)
    requires AllSpace(pre)
    requires u == [] || !IsSpace(u[0])
    ensures TrimLeft(pre + u) == u
  {
    if pre != [] {
      assert (pre + u)[1..] == pre[1..] + u;
      TrimLeftPadding(pre[1..], u);
    }
  }

  lemma {:induction false} TrimRightPadding(u: string, post: string)
    requires AllSpace(post)
    requires u == [] || !IsSpace(u[|u| - 1])
    ensures TrimRight(u + post) == u
  {
    if post != [] {
      assert (u + post)[..|u + post| - 1] == u + post[..|post| - 1];
      TrimRightPadding(u, post[..|post| - 1]);
    }
  }

  /** Stripping yields the empty string exactly when the input is all whitespace. */
  lemma StripBlank(s: string)
    ensures Strip(s) == [] <==> AllSpace(s)
  {
    var t := TrimLeft(s);
    if Strip(s) == [] {
      assert s == s[..|s| - |t|];
    }
  }

  /** `strip()` undoes any whitespace padding around a string that has none at its ends. */
  lemma StripPadding(pre: string, t: string, post: string)
    requires AllSpace(pre) && AllSpace(post)
    requires t == [] || (!IsSpace(t[0]) && !IsSpace(t[|t| - 1]))
    ensures Strip(pre + t + post) == t
  {
    if t == [] {
      assert pre + t + post == pre + post;
      StripBlank(pre + post);
    } else {
      assert pre + t + post == pre + (t + post);
      TrimLeftPadding(pre, t + post);
      TrimRightPadding(t, post);
    }
  }

  /** `c.lower()` for the ASCII letters; every other character is left alone. */
  function LowerChar(c: char): char {
    if 'A' <= c <= 'Z' then (c as int + 32) as char else c
  }

  function UpperChar(c: char): char {
    if 'a' <= c <= 'z' then (c as int - 32) as char else c
  }

  /** `s.lower()`, on ASCII letters. */
  function Lower(s: string): (r: string)
    ensures |r| == |s|
    ensures forall i | 0 <= i < |s| :: r[i] == LowerChar(s[i])
  {
    if s == [] then [] else [LowerChar(s[0])] + Lower(s[1..])
  }

  predicate IsLowerWord(w: string) {
    forall i | 0 <= i < |w| :: 'a' <= w[i] <= 'z'
  }

  /** `s` spells `w` letter for letter, each letter in either case. */
  predicate SpelledInAnyCase(s: string, w: string) {
    |s| == |w| && forall i | 0 <= i < |s| :: s[i] == w[i] || s[i] == UpperChar(w[i])
  }

  /** Comparing `s.lower()` with a lower-case word is a case-insensitive comparison. */
  lemma LowerMatchesAnyCase(s: string, w: string)
    requires IsLowerWord(w)
    ensures Lower(s) == w <==> SpelledInAnyCase(s, w)
  {
    if Lower(s) == w {
      forall i | 0 <= i < |s| ensures s[i] == w[i] || s[i] == UpperChar(w[i]) {
        assert LowerChar(s[i]) == w[i];
      }
    }
    if SpelledInAnyCase(s, w) {
      forall i | 0 <= i < |s| ensures Lower(s)[i] == w[i] {
        assert LowerChar(s[i]) == w[i];
      }
    }
  }

  /** Python's `s[:n]` for `n >= 0`. */
  function Take(s: string, n: nat): (r: string)
    ensures |r| == if |s| <= n then |s| else n
    ensures r <= s
  {
    if |s| <= n then s else s[..n]
  }

  /** The digit for `d` in bases up to 16, lower-case as Python prints hexadecimal. */
  function DigitChar(d: nat): char
    requires d < 16
  {
    if d < 10 then ('0' as int + d) as char else ('a' as int + d - 10) as char
  }

  function DigitValue(c: char): nat {
    if '0' <= c <= '9' then c as int - '0' as int else 0
  }

  predicate IsDecimalDigit(c: char) {
    '0' <= c <= '9'
  }

  lemma DivisionShrinks(n: nat, base: nat)
    requires 2 <= base <= n
    ensures n / base < n && n % base < base
  {
  }

  /** The numeral of `n` in the given base, most significant digit first, no leading zeros. */
  function Numeral(n: nat, base: nat): (r: string)
    requires 2 <= base <= 16
    ensures |r| >= 1
    ensures base == 10 ==> forall i | 0 <= i < |r| :: IsDecimalDigit(r[i])
    ensures r[0] == '0' <==> n == 0
    ensures |r| == 1 || r[0] != '0'
    decreases n
  {
    if n < base then [DigitChar(n)]
    else
      DivisionShrinks(n, base);
      var digits := Numeral(n / base, base) + [DigitChar(n % base)];
      assert base == 10 ==> IsDecimalDigit(digits[|digits| - 1]);
      digits
  }

  /** The value of a string of decimal digits. */
  function DecimalValue(s: string): nat {
    if s == [] then 0 else DecimalValue(s[..|s| - 1]) * 10 + DigitValue(s[|s| - 1])
  }

  lemma {:induction false} DecimalRoundTrip(n: nat)
    ensures DecimalValue(Numeral(n, 10)) == n
    decreases n
  {
    var r := Numeral(n, 10);
    if n >= 10 {
      DecimalRoundTrip(n / 10);
      assert r[..|r| - 1] == Numeral(n / 10, 10);
    }
  }

  /** How an `int` appears inside a Python f-string. */
  function IntText(i: int): (r: string)
    ensures |r| >= 1
    ensures r[0] == '0' <==> i == 0
    ensures r[0] == '-' <==> i < 0
    ensures i < 0 ==> |r| >= 2 && r[1] != '0'
  {
    if i < 0 then "-" + Numeral(-i, 10) else Numeral(i, 10)
  }

  /** Reads back a number written by IntText. */
  function ParseInt(s: string): int {
    if s != [] && s[0] == '-' then -(DecimalValue(s[1..]) as int) else DecimalValue(s)
  }

  /** The decimal text of an integer determines the integer. */
  lemma IntTextRoundTrip(i: int)
    ensures ParseInt(IntText(i)) == i
  {
    if i < 0 {
      assert IntText(i)[1..] == Numeral(-i, 10);
      DecimalRoundTrip(-i);
    } else {
      assert IsDecimalDigit(IntText(i)[0]);
      DecimalRoundTrip(i);
    }
  }

  /** Where `shlex.split` (POSIX mode, no comment characters) stands after reading
      part of a string: outside quotes, inside single or double quotes, or just after
      a backslash, returning to `resume` once the next character is consumed. Only
      double quotes honour a backslash inside them. */
  datatype QuoteState = Unquoted | InSingle | InDouble | AfterEscape(resume: QuoteState)

  function QuoteStep(q: QuoteState, c: char): QuoteState {
    match q
    case Unquoted =>
      if c == '\\' then AfterEscape(Unquoted)
      else if c == '\'' then InSingle
      else if c == '"' then InDouble
      else Unquoted
    case InSingle => if c == '\'' then Unquoted else InSingle
    case InDouble =>
      if c == '"' then Unquoted
      else if c == '\\' then AfterEscape(InDouble)
      else InDouble
    case AfterEscape(resume) => resume
  }

  /** The state after reading all of `s` from state `q`. */
  function Scan(q: QuoteState, s: string): QuoteState {
    if s == [] then q else QuoteStep(Scan(q, s[..|s| - 1]), s[|s| - 1])
  }

  /** `shlex.split(s)` returns, rather than raising, exactly when the whole string
      leaves it outside quotes and escapes. */
  predicate Splits(s: string) {
    Scan(Unquoted, s) == Unquoted
  }

  /** The message of the `ValueError` `shlex.split(s)` raises when it does not return. */
  function SplitErrorMessage(s: string): (r: string)
    ensures r != []
  {
    if Scan(Unquoted, s).AfterEscape? then "No escaped character" else "No closing quotation"
  }

  /** Reading a concatenation is reading its two parts one after the other. */
  lemma {:induction false} ScanAppend(q: QuoteState, a: string, b: string)
    ensures Scan(q, a + b) == Scan(Scan(q, a), b)
    decreases |b|
  {
    if b != [] {
      assert (a + b)[..|a + b| - 1] == a + b[..|b| - 1];
      assert (a + b)[|a + b| - 1] == b[|b| - 1];
      ScanAppend(q, a, b[..|b| - 1]);
    } else {
      assert a + b == a;
    }
  }

  predicate IsShellSpecial(c: char) {
    c == '\'' || c == '"' || c == '\\'
  }

  /** Text without quotes and backslashes leaves the scan where it was outside quotes,
      and text without a single quote leaves it inside single quotes. */
  lemma {:induction false} ScanStays(q: QuoteState, s: string)
    requires q == Unquoted || q == InSingle
    requires q == Unquoted ==> forall i | 0 <= i < |s| :: !IsShellSpecial(s[i])
    requires q == InSingle ==> forall i | 0 <= i < |s| :: s[i] != '\''
    ensures Scan(q, s) == q
    decreases |s|
  {
    if s != [] {
      ScanStays(q, s[..|s| - 1]);
    }
  }

  /** A command line without quotes or backslashes always splits. */
  lemma PlainTextSplits(s: string)
    requires forall i | 0 <= i < |s| :: !IsShellSpecial(s[i])
    ensures Splits(s)
  {
    ScanStays(Unquoted, s);
  }

  /** A single-quoted run of text between parts that split on their own splits. */
  lemma QuotedTextSplits(pre: string, w: string, post: string)
    requires Splits(pre) && Splits(post)
    requires forall i | 0 <= i < |w| :: w[i] != '\''
    ensures Splits(pre + "'" + w + "'" + post)
  {
    ScanAppend(Unquoted, pre, "'");
    ScanStays(InSingle, w);
    ScanAppend(Unquoted, pre + "'", w);
    ScanAppend(Unquoted, pre + "'" + w, "'");
    ScanAppend(Unquoted, pre + "'" + w + "'", post);
  }

  /** A single quote that is never closed makes `shlex.split` raise. */
  lemma UnclosedQuoteFails(pre: string, w: string)
    requires Splits(pre)
    requires forall i | 0 <= i < |w| :: w[i] != '\''
    ensures !Splits(pre + "'" + w) && SplitErrorMessage(pre + "'" + w) == "No closing quotation"
  {
    ScanAppend(Unquoted, pre, "'");
    ScanStays(InSingle, w);
    ScanAppend(Unquoted, pre + "'", w);
  }

  /** A trailing backslash outside quotes makes `shlex.split` raise. */
  lemma TrailingBackslashFails(pre: string)
    requires Splits(pre)
    ensures !Splits(pre + "\\") && SplitErrorMessage(pre + "\\") == "No escaped character"
  {
    ScanAppend(Unquoted, pre, "\\");
  }

  /** An apostrophe in an otherwise plain command line, as in `echo it's`, is an
      unclosed quote. */
  lemma ApostropheDoesNotSplit()
    ensures !Splits("echo it's") && SplitErrorMessage("echo it's") == "No closing quotation"
  {
    PlainTextSplits("echo it");
    UnclosedQuoteFails("echo it", "s");
    assert "echo it" + "'" + "s" == "echo it's";
  }
}
