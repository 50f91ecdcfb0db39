/**
 * The JavaScript string operations the app relies on (`includes`, `endsWith`,
 * `split`, `join`, `trim`, `Number.prototype.toString`), over `string` = `seq<char>`.
 */
module Text {

  /** `t` occurs in `s` starting at index `i`. */
  predicate OccursAt(s: string, t: string, i: nat) {
    i + |t| <= |s| && s[i..i + |t|] == t
  }

  /** `s.includes(t)`. */
  predicate Contains(s: string, t: string)
    decreases |s|
  {
    t <= s || (|s| > 0 && Contains(s[1..], t))
  }

  /** An occurrence anywhere is found by `Contains`. */
  lemma {:induction false} ContainsAt(s: string, t: string, i: nat)
    requires OccursAt(s, t, i)
    ensures Contains(s, t)
    decreases i
  {
    if i == 0 {
      assert s[..|t|] == t;
    } else {
      assert s[1..][i - 1..i - 1 + |t|] == s[i..i + |t|];
      ContainsAt(s[1..], t, i - 1);
    }
  }

  /** `Contains` is exactly "occurs at some index". */
  lemma {:induction false} ContainsIff(s: string, t: string)
    ensures Contains(s, t) <==> exists i: nat :: OccursAt(s, t, i)
    decreases |s|
  {
    if exists i: nat :: OccursAt(s, t, i) {
      var i: nat :| OccursAt(s, t, i);
      ContainsAt(s, t, i);
    }
    if Contains(s, t) {
      if t <= s {
        assert OccursAt(s, t, 0);
      } else {
        ContainsIff(s[1..], t);
        var i: nat :| OccursAt(s[1..], t, i);
        assert s[1..][i..i + |t|] == s[i + 1..i + 1 + |t|];
        assert OccursAt(s, t, i + 1);
      }
    }
  }

  /** `s.endsWith(t)`. */
  predicate EndsWith(s: string, t: string) {
    |t| <= |s| && s[|s| - |t|..] == t
  }

  /** The first index of `c` in `s` (`s.indexOf(c)` when it is not -1). */
  function IndexOf(s: string, c: char): (i: nat)
    requires c in s
    ensures i < |s| && s[i] == c && c !in s[..i]
  {
    if s[0] == c then 0
    else
      var j := IndexOf(s[1..], c);
      assert s[..j + 1] == [s[0]] + s[1..][..j];
      j + 1
  }

  /** Any first occurrence is the one `IndexOf` finds. */
  lemma {:induction false} IndexOfIs(s: string, c: char, i: nat)
    requires i < |s| && s[i] == c && c !in s[..i]
    ensures IndexOf(s, c) == i
    decreases i
  {
    if i > 0 {
      assert s[..i][0] == s[0];
      assert s[1..][..i - 1] == s[..i][1..];
      IndexOfIs(s[1..], c, i - 1);
    }
  }

  /** `xs.join(sep)` for a one-character separator; `[].join(sep)` is the empty string. */
  function Join(xs: seq<string>, sep: char): string
    decreases |xs|
  {
    if |xs| == 0 then ""
    else if |xs| == 1 then xs[0]
    else xs[0] + [sep] + Join(xs[1..], sep)
  }

  /**
   * `s.split(sep)` for a one-character separator: never empty, no part holds the
   * separator, and joining the parts back gives `s` (which, by SplitJoin, pins
   * the parts down uniquely).
   */
  function Split(s: string, sep: char): (parts: seq<string>)
    ensures |parts| >= 1
    ensures forall i :: 0 <= i < |parts| ==> sep !in parts[i]
    ensures Join(parts, sep) == s
    decreases |s|
  {
    if sep !in s then [s]
    else
      var i := IndexOf(s, sep);
      var rest := Split(s[i + 1..], sep);
      assert ([s[..i]] + rest)[1..] == rest;
      assert s[..i] + [sep] + s[i + 1..] == s;
      [s[..i]] + rest
  }

  /** The first part of `a + sep + rest` is `a` when `a` has no separator. */
  lemma SplitCons(a: string, rest: string, sep: char)
    requires sep !in a
    ensures Split(a + [sep] + rest, sep) == [a] + Split(rest, sep)
  {
    var s := a + [sep] + rest;
    assert s[|a|] == sep;
    assert s[..|a|] == a;
    assert IndexOf(s, sep) == |a|;
    assert s[|a| + 1..] == rest;
  }

  /** Splitting undoes joining, for separator-free parts. */
  lemma {:induction false} SplitJoin(xs: seq<string>, sep: char)
    requires |xs| >= 1
    requires forall i :: 0 <= i < |xs| ==> sep !in xs[i]
    ensures Split(Join(xs, sep), sep) == xs
    decreases |xs|
  {
    if |xs| > 1 {
      SplitJoin(xs[1..], sep);
      SplitCons(xs[0], Join(xs[1..], sep), sep);
      assert [xs[0]] + xs[1..] == xs;
    }
  }

  /** A string without the separator splits into itself alone. */
  lemma SplitWithoutSeparator(s: string, sep: char)
    requires sep !in s
    ensures Split(s, sep) == [s]
  {
  }

  /** The first part is everything before the first separator. */
  lemma SplitFirstPart(s: string, sep: char)
    requires sep in s
    ensures Split(s, sep)[0] == s[..IndexOf(s, sep)]
    ensures |Split(s, sep)| >= 2
  {
  }

  /** The characters `String.prototype.trim` removes: ECMAScript white space and line terminators. */
  predicate IsWhitespace(c: char) {
    c == ' ' || c == '\t' || c == '\n' || c == '\r' || c == '\U{000B}' || c == '\U{000C}'
    || c == '\U{00A0}' || c == '\U{1680}' || ('\U{2000}' <= c <= '\U{200A}')
    || c == '\U{2028}' || c == '\U{2029}' || c == '\U{202F}' || c == '\U{205F}'
    || c == '\U{3000}' || c == '\U{FEFF}'
  }

  /** Number of leading white-space characters. */
  function LeadingWhitespace(s: string): (k: nat)
    ensures k <= |s|
    ensures forall i :: 0 <= i < k ==> IsWhitespace(s[i])
    ensures k < |s| ==> !IsWhitespace(s[k])
  {
    if s == [] || !IsWhitespace(s[0]) then 0 else 1 + LeadingWhitespace(s[1..])
  }

  /** Index just past the last non-white-space character (0 when there is none). */
  function TrailingWhitespaceStart(s: string): (k: nat)
    ensures k <= |s|
    ensures forall i :: k <= i < |s| ==> IsWhitespace(s[i])
    ensures k > 0 ==> !IsWhitespace(s[k - 1])
  {
    if s == [] || !IsWhitespace(s[|s| - 1]) then |s| else TrailingWhitespaceStart(s[..|s| - 1])
  }

  /**
   * `s.trim()`: the block of `s` that starts at the first non-white-space character,
   * with only white space on either side of it in `s`, and no white space at its ends.
   */
  function Trim(s: string): (r: string)
    ensures OccursAt(s, r, LeadingWhitespace(s))
    ensures forall i :: 0 <= i < |s| && (i < LeadingWhitespace(s) || LeadingWhitespace(s) + |r| <= i)
              ==> IsWhitespace(s[i])
    ensures r == [] || (!IsWhitespace(r[0]) && !IsWhitespace(r[|r| - 1]))
  {
    var k := LeadingWhitespace(s);
    var t := s[k..];
    var r := t[..TrailingWhitespaceStart(t)];
    assert s[k..k + |r|] == r;
    r
  }

  /** `!s.trim()` holds exactly when `s` is all white space (the empty string included). */
  lemma TrimEmptyIff(s: string)
    ensures Trim(s) == [] <==> forall i :: 0 <= i < |s| ==> IsWhitespace(s[i])
  {
  }

  /** Trimming twice is trimming once. */
  lemma TrimIdempotent(s: string)
    ensures Trim(Trim(s)) == Trim(s)
  {
  }

  predicate IsDigit(c: char) {
    '0' <= c <= '9'
  }

  function DigitChar(d: nat): (c: char)
    requires d < 10
    ensures IsDigit(c)
  {
    ('0' as int + d) as char
  }

  function DigitValue(c: char): int {
    c as int - '0' as int
  }

  /** The decimal digits of `n`, with no leading zero. */
  function NatToString(n: nat): (s: string)
    ensures |s| >= 1
    ensures forall i :: 0 <= i < |s| ==> IsDigit(s[i])
    ensures |s| > 1 ==> s[0] != '0'
  {
    if n < 10 then [DigitChar(n)] else NatToString(n / 10) + [DigitChar(n % 10)]
  }

  /** `n.toString()` for an integral JavaScript number. */
  function IntToString(n: int): string {
    if n < 0 then "-" + NatToString(-n) else NatToString(n)
  }

  /** The value a string of decimal digits denotes: the reference reading of NatToString. */
  function DigitsValue(s: string): int
    decreases |s|
  {
    if s == [] then 0 else 10 * DigitsValue(s[..|s| - 1]) + DigitValue(s[|s| - 1])
  }

  /** The integer a decimal string denotes, with an optional leading minus sign. */
  function ParseInt(s: string): int {
    if |s| > 0 && s[0] == '-' then -DigitsValue(s[1..]) else DigitsValue(s)
  }

  lemma {:induction false} NatToStringRoundTrip(n: nat)
    ensures DigitsValue(NatToString(n)) == n
  {
    if n >= 10 {
      NatToStringRoundTrip(n / 10);
      var s := NatToString(n / 10) + [DigitChar(n % 10)];
      assert s[..|s| - 1] == NatToString(n / 10);
    }
  }

  /** Reading back the decimal string gives the number. */
  lemma IntToStringRoundTrip(n: int)
    ensures ParseInt(IntToString(n)) == n
  {
    if n < 0 {
      NatToStringRoundTrip(-n);
      assert IntToString(n)[1..] == NatToString(-n);
    } else {
      NatToStringRoundTrip(n);
      assert IsDigit(NatToString(n)[0]);
    }
  }

  /** Distinct numbers have distinct decimal strings. */
  lemma IntToStringInjective(a: int, b: int)
    ensures IntToString(a) == IntToString(b) <==> a == b
  {
    IntToStringRoundTrip(a);
    IntToStringRoundTrip(b);
  }
}
