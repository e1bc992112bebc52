/**
 * The handful of Python string operations the pipeline relies on: substring tests
 * (`k in s`), `upper()`/`lower()`, `strip()`, `str(n)` for counters, `int()` on a run of
 * digits, `sep.join(parts)` and `s.split(sep)`.
 */
module Text {

  /** Python's `str.isspace()`: the characters `strip()` removes and the regex `\s` matches. */
  predicate IsSpace(c: char) {
    c == ' ' || ('\t' <= c <= '\r') || ('\U{1C}' <= c <= '\U{1F}') || c == '\U{85}' || c == '\U{A0}'
    || c == '\U{1680}' || ('\U{2000}' <= c <= '\U{200A}') || c == '\U{2028}' || c == '\U{2029}'
    || c == '\U{202F}' || c == '\U{205F}' || c == '\U{3000}'
  }

  predicate IsDigit(c: char) { '0' <= c <= '9' }
  predicate IsUpperLetter(c: char) { 'A' <= c <= 'Z' }
  predicate IsLowerLetter(c: char) { 'a' <= c <= 'z' }

  predicate AllDigits(s: string) { forall i :: 0 <= i < |s| ==> IsDigit(s[i]) }

  // ---------------------------------------------------------------------------
  // Substring test
  // ---------------------------------------------------------------------------

  /** Python's `k in s` for strings: `k` occurs somewhere in `s` as a contiguous slice. */
  predicate Contains(s: string, k: string)
    decreases |s|
  {
    k <= s || (|s| > 0 && Contains(s[1..], k))
  }

  /** An occurrence of `k` at a known position is found by the substring test. */
  lemma {:induction false} ContainsAt(s: string, k: string, i: nat)
    requires i + |k| <= |s| && s[i..i + |k|] == k
    ensures Contains(s, k)
    decreases i
  {
    if i == 0 {
      assert k <= s;
    } else {
      assert s[1..][i - 1..i - 1 + |k|] == s[i..i + |k|];
      ContainsAt(s[1..], k, i - 1);
    }
  }

  /** Whoever contains a string contains each of its prefixes. */
  lemma {:induction false} ContainsPrefix(s: string, k: string, p: string)
    requires p <= k && Contains(s, k)
    ensures Contains(s, p)
    decreases |s|
  {
    if !(k <= s) {
      ContainsPrefix(s[1..], k, p);
    }
  }

  /** The substring test never finds a string longer than the text. */
  lemma {:induction false} ContainsShorter(s: string, k: string)
    requires Contains(s, k)
    ensures |k| <= |s|
    decreases |s|
  {
    if !(k <= s) {
      ContainsShorter(s[1..], k);
    }
  }

  /** Finding a string in `s` means finding it in `s` with anything appended. */
  lemma {:induction false} ContainsExtend(s: string, t: string, k: string)
    requires Contains(s, k)
    ensures Contains(s + t, k)
    decreases |s|
  {
    if k <= s {
      assert k <= s + t;
    } else {
      assert (s + t)[1..] == s[1..] + t;
      ContainsExtend(s[1..], t, k);
    }
  }

  /** A string with a character that occurs nowhere in `s` does not occur in it. */
  lemma {:induction false} NotContainsChar(s: string, k: string, j: nat)
    requires j < |k|
    requires forall i :: 0 <= i < |s| ==> s[i] != k[j]
    ensures !Contains(s, k)
    decreases |s|
  {
    if |s| > 0 {
      forall i | 0 <= i < |s[1..]| ensures s[1..][i] != k[j] {
        assert s[1..][i] == s[i + 1];
      }
      NotContainsChar(s[1..], k, j);
      if |k| <= |s| {
        assert s[j] != k[j];
      }
    }
  }

  /** A string with two neighbouring characters that never stand side by side in `s` does not occur in it. */
  lemma {:induction false} NotContainsPair(s: string, k: string, j: nat)
    requires j + 1 < |k|
    requires forall i :: 0 <= i < |s| - 1 ==> !(s[i] == k[j] && s[i + 1] == k[j + 1])
    ensures !Contains(s, k)
    decreases |s|
  {
    if |s| > 0 {
      forall i | 0 <= i < |s[1..]| - 1 ensures !(s[1..][i] == k[j] && s[1..][i + 1] == k[j + 1]) {
        assert s[1..][i] == s[i + 1] && s[1..][i + 1] == s[i + 2];
      }
      NotContainsPair(s[1..], k, j);
      if |k| <= |s| {
        assert !(s[j] == k[j] && s[j + 1] == k[j + 1]);
      }
    }
  }

  // ---------------------------------------------------------------------------
  // Case mapping (ASCII letters only)
  // ---------------------------------------------------------------------------

  function UpperChar(c: char): char {
    if IsLowerLetter(c) then (c as int - 32) as char else c
  }

  function LowerChar(c: char): char {
    if IsUpperLetter(c) then (c as int + 32) as char else c
  }

  /** `s.upper()`, for ASCII letters. */
  function Upper(s: string): (r: string)
    ensures |r| == |s|
    ensures forall i :: 0 <= i < |s| ==> !IsLowerLetter(r[i])
  {
    seq(|s|, i requires 0 <= i < |s| => UpperChar(s[i]))
  }

  /** `s.lower()`, for ASCII letters. */
  function Lower(s: string): (r: string)
    ensures |r| == |s|
    ensures forall i :: 0 <= i < |s| ==> !IsUpperLetter(r[i])
  {
    seq(|s|, i requires 0 <= i < |s| => LowerChar(s[i]))
  }

  /** A string without lower-case letters is its own upper case. */
  lemma UpperFixed(s: string)
    requires forall i :: 0 <= i < |s| ==> !IsLowerLetter(s[i])
    ensures Upper(s) == s
  {
  }

  /** A string without upper-case letters is its own lower case. */
  lemma LowerFixed(s: string)
    requires forall i :: 0 <= i < |s| ==> !IsUpperLetter(s[i])
    ensures Lower(s) == s
  {
  }

  /** Upper-casing twice is upper-casing once. */
  lemma UpperIdempotent(s: string)
    ensures Upper(Upper(s)) == Upper(s)
  {
  }

  /** Upper-casing works character by character, so it distributes over concatenation. */
  lemma UpperAppend(a: string, b: string)
    ensures Upper(a + b) == Upper(a) + Upper(b)
  {
  }

  // ---------------------------------------------------------------------------
  // strip()
  // ---------------------------------------------------------------------------

  /** No whitespace at either end: what `strip()` returns. */
  predicate IsStripped(s: string) {
    s == [] || (!IsSpace(s[0]) && !IsSpace(s[|s| - 1]))
  }

  /** `s.lstrip()`: a suffix of `s` that does not start with whitespace. */
  function TrimStart(s: string): (r: string)
    ensures |r| <= |s| && r == s[|s| - |r|..]
    ensures r == [] || !IsSpace(r[0])
  {
    if |s| > 0 && IsSpace(s[0]) then TrimStart(s[1..]) else s
  }

  /** `s.rstrip()`: a prefix of `s` that does not end with whitespace. */
  function TrimEnd(s: string): (r: string)
    ensures |r| <= |s| && r == s[..|r|]
    ensures r == [] || !IsSpace(r[|r| - 1])
  {
    if |s| > 0 && IsSpace(s[|s| - 1]) then TrimEnd(s[..|s| - 1]) else s
  }

  /** `s.strip()`: the text without leading and trailing whitespace. */
  function Strip(s: string): (r: string)
    ensures IsStripped(r)
    ensures |r| <= |s|
  {
    TrimEnd(TrimStart(s))
  }

  /** What `lstrip()` removes is whitespace. */
  lemma {:induction false} TrimStartDropsSpace(s: string)
    ensures forall i :: 0 <= i < |s| - |TrimStart(s)| ==> IsSpace(s[i])
    decreases |s|
  {
    if |s| > 0 && IsSpace(s[0]) {
      TrimStartDropsSpace(s[1..]);
      forall i | 0 < i < |s| - |TrimStart(s)| ensures IsSpace(s[i]) {
        assert s[i] == s[1..][i - 1];
      }
    }
  }

  /** What `rstrip()` removes is whitespace. */
  lemma {:induction false} TrimEndDropsSpace(s: string)
    ensures forall i :: |TrimEnd(s)| <= i < |s| ==> IsSpace(s[i])
    decreases |s|
  {
    if |s| > 0 && IsSpace(s[|s| - 1]) {
      TrimEndDropsSpace(s[..|s| - 1]);
    }
  }

  /** `strip()` gives the empty string exactly when the text is all whitespace. */
  lemma StripEmpty(s: string)
    ensures Strip(s) == [] <==> forall i :: 0 <= i < |s| ==> IsSpace(s[i])
  {
    var t := TrimStart(s);
    TrimStartDropsSpace(s);
    if Strip(s) == [] {
      TrimEndDropsSpace(t);
    }
  }

  /** `strip()` keeps a slice of its input: each kept character sits at a fixed offset in `s`. */
  lemma StripOffset(s: string)
    ensures var off := |s| - |TrimStart(s)|;
      off + |Strip(s)| <= |s| && forall i :: 0 <= i < |Strip(s)| ==> Strip(s)[i] == s[off + i]
  {
  }

  /** Text that is already stripped is its own strip. */
  lemma StripStripped(s: string)
    requires IsStripped(s)
    ensures Strip(s) == s
  {
  }

  // ---------------------------------------------------------------------------
  // Decimal numerals: str(n) and int(digits)
  // ---------------------------------------------------------------------------

  function DigitChar(d: nat): char
    requires d < 10
  {
    ('0' as int + d) as char
  }

  function DigitValue(c: char): nat
    requires IsDigit(c)
  {
    c as int - '0' as int
  }

  /** `str(n)` for a non-negative integer: non-empty, all digits, no leading zero. */
  function NatToString(n: nat): (r: string)
    ensures |r| > 0 && AllDigits(r)
    ensures r[0] == '0' ==> n == 0
    decreases n
  {
    if n < 10 then [DigitChar(n)] else NatToString(n / 10) + [DigitChar(n % 10)]
  }

  /** `int(s)` for a non-empty run of ASCII digits (leading zeros allowed). */
  function ParseDigits(s: string): nat
    requires AllDigits(s)
  {
    if s == [] then 0 else ParseDigits(s[..|s| - 1]) * 10 + DigitValue(s[|s| - 1])
  }

  /** Reading back the numeral of `n` gives `n`. */
  lemma {:induction false} ParseNatToString(n: nat)
    ensures ParseDigits(NatToString(n)) == n
    decreases n
  {
    var r := NatToString(n);
    if n >= 10 {
      assert r[..|r| - 1] == NatToString(n / 10);
      ParseNatToString(n / 10);
    }
  }

  /** Different counters print differently. */
  lemma NatToStringInjective(m: nat, n: nat)
    requires NatToString(m) == NatToString(n)
    ensures m == n
  {
    ParseNatToString(m);
    ParseNatToString(n);
  }

  // ---------------------------------------------------------------------------
  // join and split
  // ---------------------------------------------------------------------------

  /** `sep.join(parts)`. */
  function Join(sep: string, parts: seq<string>): string
  {
    if |parts| == 0 then "" else if |parts| == 1 then parts[0] else parts[0] + sep + Join(sep, parts[1..])
  }

  /**
   * `s.split(sep)` for a one-character separator: the pieces between separators, at least
   * one, none containing the separator, and joining them back gives `s`.
   */
  function Split(s: string, sep: char): (r: seq<string>)
    ensures |r| >= 1
    ensures forall i :: 0 <= i < |r| ==> sep !in r[i]
    ensures Join([sep], r) == s
  {
    if s == [] then [""]
    else
      var rest := Split(s[1..], sep);
      if s[0] == sep then
        assert Join([sep], [""] + rest) == "" + [sep] + Join([sep], rest);
        [""] + rest
      else
        var r := [[s[0]] + rest[0]] + rest[1..];
        assert Join([sep], r) == [s[0]] + Join([sep], rest) by {
          if |rest| > 1 {
            assert r[1..] == rest[1..];
          }
        }
        assert s == [s[0]] + s[1..];
        r
  }

  /** Text without the separator is a single piece. */
  lemma {:induction false} SplitWithout(x: string, sep: char)
    requires sep !in x
    ensures Split(x, sep) == [x]
    decreases |x|
  {
    if x != [] {
      assert x[0] in x;
      assert forall c :: c in x[1..] ==> c in x;
      SplitWithout(x[1..], sep);
    }
  }

  /** A separator-free text before the first separator is the first piece. */
  lemma {:induction false} SplitAfter(x: string, rest: string, sep: char)
    requires sep !in x
    ensures Split(x + [sep] + rest, sep) == [x] + Split(rest, sep)
    decreases |x|
  {
    var s := x + [sep] + rest;
    if x == [] {
      assert s[1..] == rest;
    } else {
      assert x[0] in x;
      assert forall c :: c in x[1..] ==> c in x;
      assert s[1..] == x[1..] + [sep] + rest;
      SplitAfter(x[1..], rest, sep);
      assert [s[0]] + x[1..] == x;
    }
  }
}
