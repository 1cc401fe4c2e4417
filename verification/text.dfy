/**
 * The string operations the two services use on push-payload and intent
 * values: Kotlin's `trim()`, `lowercase()`, `isBlank()`, the `?.takeIf {
 * it.isNotBlank() } ?: default` idiom, and the decimal rendering of an `Int`.
 */
module Text {
  import opened Options

  /**
   * Kotlin's `Char.isWhitespace()` on the JVM: `Character.isWhitespace` or
   * `Character.isSpaceChar`, listed code point by code point.
   */
  predicate IsWhitespace(c: char): (b: bool)
    ensures b ==> !('a' <= c <= 'z') && !('A' <= c <= 'Z') && !('0' <= c <= '9')
    ensures c == ' ' || c == '\t' || c == '\n' || c == '\r' || c == '\U{A0}' || c == '\U{3000}' ==> b
  {
    || c == ' '
    || ('\t' <= c <= '\r')
    || ('\U{1C}' <= c <= '\U{1F}')
    || c == '\U{A0}' || c == '\U{1680}'
    || ('\U{2000}' <= c <= '\U{200A}')
    || c == '\U{2028}' || c == '\U{2029}' || c == '\U{202F}' || c == '\U{205F}' || c == '\U{3000}'
  }

  /** Kotlin's `isBlank()`: empty, or whitespace only. */
  predicate IsBlank(s: string)
  {
    forall i :: 0 <= i < |s| ==> IsWhitespace(s[i])
  }

  lemma NotBlankAt(s: string, i: nat)
    requires i < |s| && !IsWhitespace(s[i])
    ensures !IsBlank(s)
  {
  }

  /** Drops the leading whitespace. */
  function TrimStart(s: string): string
  {
    if s != [] && IsWhitespace(s[0]) then TrimStart(s[1..]) else s
  }

  /** Drops the trailing whitespace. */
  function TrimEnd(s: string): string
  {
    if s != [] && IsWhitespace(s[|s| - 1]) then TrimEnd(s[..|s| - 1]) else s
  }

  /** Kotlin's `trim()`. */
  function Trim(s: string): string
  {
    TrimEnd(TrimStart(s))
  }

  /** `TrimStart` leaves a suffix that starts with a non-blank, having dropped only whitespace. */
  lemma {:induction false} TrimStartShape(s: string)
    ensures |TrimStart(s)| <= |s| && TrimStart(s) == s[|s| - |TrimStart(s)|..]
    ensures IsBlank(s[..|s| - |TrimStart(s)|])
    ensures TrimStart(s) != [] ==> !IsWhitespace(TrimStart(s)[0])
  {
    if s != [] && IsWhitespace(s[0]) {
      TrimStartShape(s[1..]);
      var r := TrimStart(s[1..]);
      assert s[..|s| - |r|] == [s[0]] + s[1..][..|s| - 1 - |r|];
    }
  }

  /** `TrimEnd` leaves a prefix that ends with a non-blank, having dropped only whitespace. */
  lemma {:induction false} TrimEndShape(s: string)
    ensures |TrimEnd(s)| <= |s| && TrimEnd(s) == s[..|TrimEnd(s)|]
    ensures IsBlank(s[|TrimEnd(s)|..])
    ensures TrimEnd(s) != [] ==> !IsWhitespace(TrimEnd(s)[|TrimEnd(s)| - 1])
  {
    if s != [] && IsWhitespace(s[|s| - 1]) {
      TrimEndShape(s[..|s| - 1]);
      var r := TrimEnd(s[..|s| - 1]);
      assert s[|r|..] == s[..|s| - 1][|r|..] + [s[|s| - 1]];
    }
  }

  /** `trim()` leaves no whitespace at either end, and is empty exactly for a blank string. */
  lemma TrimShape(s: string)
    ensures Trim(s) != [] ==> !IsWhitespace(Trim(s)[0]) && !IsWhitespace(Trim(s)[|Trim(s)| - 1])
    ensures Trim(s) == [] <==> IsBlank(s)
  {
    var t := TrimStart(s);
    TrimStartShape(s);
    TrimEndShape(t);
    assert s == s[..|s| - |t|] + t;
  }

  /** `lowercase()` restricted to ASCII: `A`..`Z` become `a`..`z`, every other character stays. */
  function LowerChar(c: char): (d: char)
    ensures !('A' <= d <= 'Z')
    ensures 'A' <= c <= 'Z' ==> 'a' <= d <= 'z' && d as int - 'a' as int == c as int - 'A' as int
    ensures !('A' <= c <= 'Z') ==> d == c
  {
    if 'A' <= c <= 'Z' then (c as int + 32) as char else c
  }

  lemma LowerKeepsWhitespace(c: char)
    ensures IsWhitespace(LowerChar(c)) <==> IsWhitespace(c)
  {
  }

  function ToLower(s: string): string
  {
    seq(|s|, i requires 0 <= i < |s| => LowerChar(s[i]))
  }

  /** `value.trim().lowercase()`, the normal form both services compare payload values in. */
  function TrimLower(s: string): string
  {
    ToLower(Trim(s))
  }

  /** `value?.takeIf { it.isNotBlank() } ?: fallback`. */
  function NonBlankOr(value: Option<string>, fallback: string): (r: string)
    ensures value.Some? && !IsBlank(value.value) ==> r == value.value
    ensures value.None? || IsBlank(value.value) ==> r == fallback
    ensures !IsBlank(fallback) ==> !IsBlank(r)
  {
    if value.Some? && !IsBlank(value.value) then value.value else fallback
  }

  lemma {:induction false} TrimStartSkipsBlank(w: string, t: string)
    requires IsBlank(w)
    ensures TrimStart(w + t) == TrimStart(t)
  {
    if w != [] {
      assert (w + t)[1..] == w[1..] + t;
      TrimStartSkipsBlank(w[1..], t);
    } else {
      assert w + t == t;
    }
  }

  lemma {:induction false} TrimStartKeepsTail(s: string, u: string)
    requires !IsBlank(s)
    ensures TrimStart(s + u) == TrimStart(s) + u
  {
    assert s != [];
    if IsWhitespace(s[0]) {
      assert (s + u)[1..] == s[1..] + u;
      assert !IsBlank(s[1..]) by {
        var i :| 0 <= i < |s| && !IsWhitespace(s[i]);
        assert s[1..][i - 1] == s[i];
      }
      TrimStartKeepsTail(s[1..], u);
    }
  }

  lemma {:induction false} TrimEndSkipsBlank(t: string, w: string)
    requires IsBlank(w)
    ensures TrimEnd(t + w) == TrimEnd(t)
  {
    if w != [] {
      assert (t + w)[..|t + w| - 1] == t + w[..|w| - 1];
      TrimEndSkipsBlank(t, w[..|w| - 1]);
    } else {
      assert t + w == t;
    }
  }

  /** Whitespace around a value never changes what `trim()` returns. */
  lemma TrimIgnoresPadding(w1: string, s: string, w2: string)
    requires IsBlank(w1) && IsBlank(w2)
    ensures Trim(w1 + s + w2) == Trim(s)
  {
    assert w1 + s + w2 == w1 + (s + w2);
    TrimStartSkipsBlank(w1, s + w2);
    if IsBlank(s) {
      assert IsBlank(s + w2);
      TrimShape(s);
      TrimShape(s + w2);
    } else {
      TrimStartKeepsTail(s, w2);
      TrimEndSkipsBlank(TrimStart(s), w2);
    }
  }

  lemma {:induction false} LowerTrimStartCommute(s: string)
    ensures ToLower(TrimStart(s)) == TrimStart(ToLower(s))
  {
    if s != [] {
      LowerKeepsWhitespace(s[0]);
      assert ToLower(s)[1..] == ToLower(s[1..]);
      LowerTrimStartCommute(s[1..]);
    }
  }

  lemma {:induction false} LowerTrimEndCommute(s: string)
    ensures ToLower(TrimEnd(s)) == TrimEnd(ToLower(s))
  {
    if s != [] {
      LowerKeepsWhitespace(s[|s| - 1]);
      assert ToLower(s)[..|s| - 1] == ToLower(s[..|s| - 1]);
      LowerTrimEndCommute(s[..|s| - 1]);
    }
  }

  /** Trimming and lowercasing commute, so the order the source applies them in does not matter. */
  lemma LowerTrimCommute(s: string)
    ensures ToLower(Trim(s)) == Trim(ToLower(s))
  {
    LowerTrimStartCommute(s);
    LowerTrimEndCommute(TrimStart(s));
  }

  /**
   * Two payload values that differ only in letter case and in surrounding
   * whitespace have the same normal form.
   */
  lemma TrimLowerInsensitive(w1: string, s: string, t: string, w2: string)
    requires IsBlank(w1) && IsBlank(w2)
    requires ToLower(s) == ToLower(t)
    ensures TrimLower(w1 + s + w2) == TrimLower(t)
  {
    TrimIgnoresPadding(w1, s, w2);
    LowerTrimCommute(s);
    LowerTrimCommute(t);
  }

  /** A string with no upper-case letter is its own lowercase. */
  lemma LowerFixed(s: string)
    requires forall i :: 0 <= i < |s| ==> !('A' <= s[i] <= 'Z')
    ensures ToLower(s) == s
  {
    forall i | 0 <= i < |s|
      ensures ToLower(s)[i] == s[i]
    {
    }
  }

  /** A string with no whitespace at its ends is its own trim. */
  lemma TrimFixed(s: string)
    requires s != [] ==> !IsWhitespace(s[0]) && !IsWhitespace(s[|s| - 1])
    ensures Trim(s) == s
  {
    assert TrimStart(s) == s;
    assert TrimEnd(s) == s;
  }

  /** The decimal digit `d` as a character. */
  function Digit(d: nat): (c: char)
    requires d < 10
    ensures '0' <= c <= '9'
  {
    (d + '0' as int) as char
  }

  predicate AllDigits(s: string)
  {
    forall i :: 0 <= i < |s| ==> '0' <= s[i] <= '9'
  }

  /** Kotlin's `Int.toString()` for a non-negative value: decimal digits, no leading zero. */
  function DecimalString(n: nat): (s: string)
    ensures s != [] && AllDigits(s)
    ensures s[0] == '0' ==> n == 0
  {
    if n < 10 then [Digit(n)] else DecimalString(n / 10) + [Digit(n % 10)]
  }

  /** The value of a digit string, read most significant digit first. */
  function DigitsValue(s: string): nat
    requires AllDigits(s)
  {
    if s == [] then 0 else DigitsValue(s[..|s| - 1]) * 10 + (s[|s| - 1] as int - '0' as int)
  }

  /** Reading back the decimal rendering of `n` gives `n`. */
  lemma {:induction false} DecimalStringValue(n: nat)
    ensures DigitsValue(DecimalString(n)) == n
  {
    if n >= 10 {
      var s := DecimalString(n);
      assert s[..|s| - 1] == DecimalString(n / 10);
      DecimalStringValue(n / 10);
    }
  }
}
