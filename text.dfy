/**
 * String operations the core relies on: stripping (Python's `str.strip`,
 * JavaScript's `String.prototype.trim`), left-to-right replacement (Python's
 * `str.replace`), first/last character search (`str.index`, `str.rindex`) and
 * decimal rendering of a number (a template literal `${status}`).
 */
module Text {
  import opened Options

  /** Characters `str.isspace()` accepts, which `str.strip()` without arguments removes. */
  const PyWhitespace: set<char> := {
    '\t', '\n', '\U{000B}', '\U{000C}', '\r', '\U{001C}', '\U{001D}', '\U{001E}', '\U{001F}',
    ' ', '\U{0085}', '\U{00A0}', '\U{1680}',
    '\U{2000}', '\U{2001}', '\U{2002}', '\U{2003}', '\U{2004}', '\U{2005}', '\U{2006}',
    '\U{2007}', '\U{2008}', '\U{2009}', '\U{200A}',
    '\U{2028}', '\U{2029}', '\U{202F}', '\U{205F}', '\U{3000}'
  }

  /** ECMAScript WhiteSpace and LineTerminator code points, which `trim()` removes. */
  const JsWhitespace: set<char> := {
    '\t', '\n', '\U{000B}', '\U{000C}', '\r',
    ' ', '\U{00A0}', '\U{1680}',
    '\U{2000}', '\U{2001}', '\U{2002}', '\U{2003}', '\U{2004}', '\U{2005}', '\U{2006}',
    '\U{2007}', '\U{2008}', '\U{2009}', '\U{200A}',
    '\U{2028}', '\U{2029}', '\U{202F}', '\U{205F}', '\U{3000}', '\U{FEFF}'
  }

  /** Number of leading characters of `s` that belong to `cs`. */
  function LeadingCount(s: string, cs: set<char>): (n: nat)
    ensures n <= |s|
    ensures forall i :: 0 <= i < n ==> s[i] in cs
    ensures n < |s| ==> s[n] !in cs
  {
    if |s| > 0 && s[0] in cs then 1 + LeadingCount(s[1..], cs) else 0
  }

  /** Number of trailing characters of `s` that belong to `cs`. */
  function TrailingCount(s: string, cs: set<char>): (n: nat)
    ensures n <= |s|
    ensures forall i :: |s| - n <= i < |s| ==> s[i] in cs
    ensures n < |s| ==> s[|s| - 1 - n] !in cs
  {
    if |s| > 0 && s[|s| - 1] in cs then 1 + TrailingCount(s[..|s| - 1], cs) else 0
  }

  /** Neither end of `s` is a character of `cs`. */
  predicate IsStripped(s: string, cs: set<char>) {
    s == [] || (s[0] !in cs && s[|s| - 1] !in cs)
  }

  /**
   * `s` with every leading and every trailing character of `cs` removed:
   * Python's `s.strip(chars)` and, for `JsWhitespace`, JavaScript's `s.trim()`.
   * The result is the middle of `s`; what was cut away on either side lies in
   * `cs`, and the result neither starts nor ends with a character of `cs`.
   */
  function Strip(s: string, cs: set<char>): (r: string)
    ensures |r| <= |s| && IsStripped(r, cs)
    ensures LeadingCount(s, cs) + |r| <= |s|
    ensures r == s[LeadingCount(s, cs)..LeadingCount(s, cs) + |r|]
    ensures forall i :: LeadingCount(s, cs) + |r| <= i < |s| ==> s[i] in cs
    ensures r == [] <==> forall i :: 0 <= i < |s| ==> s[i] in cs
  {
    var a := LeadingCount(s, cs);
    var t := s[a..];
    var b := TrailingCount(t, cs);
    assert forall i :: a + |t| - b <= i < |s| ==> s[i] == t[i - a];
    t[..|t| - b]
  }

  /** Python's argument-less `str.strip()`. */
  function PyStrip(s: string): string {
    Strip(s, PyWhitespace)
  }

  /** JavaScript's `String.prototype.trim()`. */
  function JsTrim(s: string): string {
    Strip(s, JsWhitespace)
  }

  /**
   * Stripping is determined by its description: if `s` is a run of `cs`
   * characters, then `m`, then another run of `cs` characters, and `m` neither
   * starts nor ends with a `cs` character, then `m` is `Strip(s, cs)`.
   */
  lemma {:induction false} StripUnique(s: string, cs: set<char>, i: nat, j: nat)
    requires i <= j <= |s|
    requires forall k :: 0 <= k < i ==> s[k] in cs
    requires forall k :: j <= k < |s| ==> s[k] in cs
    requires IsStripped(s[i..j], cs)
    ensures Strip(s, cs) == s[i..j]
  {
    var r := Strip(s, cs);
    var a := LeadingCount(s, cs);
    if i == j {
      // every character lies in cs, so the strip is empty
      assert forall k :: 0 <= k < |s| ==> s[k] in cs by {
        forall k | 0 <= k < |s| ensures s[k] in cs {
          if k < i {} else {}
        }
      }
    } else {
      assert s[i] !in cs && s[j - 1] !in cs;
      assert a == i;
      assert r != [];
      var e := a + |r|;
      assert r[|r| - 1] == s[e - 1];
      assert e == j;
    }
  }

  /** Stripping only removes characters: one absent from `s` is absent from the result. */
  lemma StripKeepsAbsent(s: string, cs: set<char>, c: char)
    requires c !in s
    ensures c !in Strip(s, cs)
  {
    var r := Strip(s, cs);
    var a := LeadingCount(s, cs);
    assert forall k :: 0 <= k < |r| ==> r[k] == s[a + k];
  }

  /** Stripping twice changes nothing more. */
  lemma StripIdempotent(s: string, cs: set<char>)
    ensures Strip(Strip(s, cs), cs) == Strip(s, cs)
  {
    var r := Strip(s, cs);
    StripUnique(r, cs, 0, |r|);
    assert r[0..|r|] == r;
  }

  /**
   * Python's `s.replace(pat, rep)`: occurrences of `pat` are found from the
   * left, without overlapping, and each is replaced by `rep`.
   */
  function Replace(s: string, pat: string, rep: string): (r: string)
    requires |pat| > 0
    decreases |s|
  {
    if |s| < |pat| then s
    else if s[..|pat|] == pat then rep + Replace(s[|pat|..], pat, rep)
    else [s[0]] + Replace(s[1..], pat, rep)
  }

  /** Nothing is replaced in a string that does not hold the pattern's first character. */
  lemma {:induction false} ReplaceAbsent(s: string, pat: string, rep: string)
    requires |pat| > 0 && pat[0] !in s
    ensures Replace(s, pat, rep) == s
    decreases |s|
  {
    if |s| >= |pat| {
      assert s[..|pat|][0] != pat[0];
      ReplaceAbsent(s[1..], pat, rep);
      assert s == [s[0]] + s[1..];
    }
  }

  /** A prefix without the pattern's first character is copied and replacement goes on after it. */
  lemma {:induction false} ReplaceSkipsPlain(x: string, t: string, pat: string, rep: string)
    requires |pat| > 0 && pat[0] !in x
    ensures Replace(x + t, pat, rep) == x + Replace(t, pat, rep)
    decreases |x|
  {
    if x == [] {
      assert x + t == t;
    } else {
      var s := x + t;
      assert s[0] == x[0] && s[1..] == x[1..] + t;
      if |s| >= |pat| {
        assert s[..|pat|][0] != pat[0];
      }
      assert Replace(s, pat, rep) == [x[0]] + Replace(x[1..] + t, pat, rep);
      ReplaceSkipsPlain(x[1..], t, pat, rep);
      assert x + Replace(t, pat, rep) == [x[0]] + (x[1..] + Replace(t, pat, rep));
    }
  }

  /** Replacing one character by another is a character-by-character substitution. */
  lemma {:induction false} ReplaceCharAt(s: string, a: char, b: char)
    ensures |Replace(s, [a], [b])| == |s|
    ensures forall i :: 0 <= i < |s| ==> Replace(s, [a], [b])[i] == if s[i] == a then b else s[i]
    decreases |s|
  {
    if |s| > 0 {
      ReplaceCharAt(s[1..], a, b);
      var rest := Replace(s[1..], [a], [b]);
      if s[..1] == [a] {
        assert Replace(s, [a], [b]) == [b] + rest;
      } else {
        assert Replace(s, [a], [b]) == [s[0]] + rest;
      }
    }
  }

  /** Index of the first `c` in `s` (Python's `s.index(c)`, which raises when there is none). */
  function IndexOf(s: string, c: char): (r: Option<nat>)
    ensures r.None? <==> c !in s
    ensures r.Some? ==> r.value < |s| && s[r.value] == c && c !in s[..r.value]
  {
    if |s| == 0 then None
    else if s[0] == c then Some(0)
    else match IndexOf(s[1..], c)
      case None => None
      case Some(i) => Some(i + 1)
  }

  /** Index of the last `c` in `s` (Python's `s.rindex(c)`, which raises when there is none). */
  function LastIndexOf(s: string, c: char): (r: Option<nat>)
    ensures r.None? <==> c !in s
    ensures r.Some? ==> r.value < |s| && s[r.value] == c && c !in s[r.value + 1..]
  {
    if |s| == 0 then None
    else if s[|s| - 1] == c then Some(|s| - 1)
    else
      assert s == s[..|s| - 1] + [s[|s| - 1]];
      LastIndexOf(s[..|s| - 1], c)
  }

  /** The decimal digit `d` as a character. */
  function DigitChar(d: nat): (c: char)
    requires d < 10
    ensures '0' <= c <= '9' && (c as int) - ('0' as int) == d
  {
    (('0' as int) + d) as char
  }

  predicate IsDigits(s: string) {
    forall i :: 0 <= i < |s| ==> '0' <= s[i] <= '9'
  }

  /** Decimal rendering of a non-negative integer, as JavaScript prints a number. */
  function NatToString(n: nat): (s: string)
    ensures |s| >= 1 && IsDigits(s)
    ensures s[0] == '0' ==> n == 0
  {
    if n < 10 then [DigitChar(n)] else NatToString(n / 10) + [DigitChar(n % 10)]
  }

  /** The value of a string of decimal digits. */
  function DigitsValue(s: string): nat
    requires IsDigits(s)
  {
    if s == [] then 0
    else DigitsValue(s[..|s| - 1]) * 10 + ((s[|s| - 1] as int) - ('0' as int))
  }

  /** Reading the rendered digits back gives the number. */
  lemma {:induction false} NatToStringRoundTrip(n: nat)
    ensures DigitsValue(NatToString(n)) == n
  {
    if n >= 10 {
      NatToStringRoundTrip(n / 10);
      var s := NatToString(n);
      assert s[..|s| - 1] == NatToString(n / 10);
    }
  }
}
