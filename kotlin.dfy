/** The parts of the Kotlin standard library that the game logic relies on:
    32-bit `Int` arithmetic, `String.repeat`, `String.trim`,
    `String.equals(other, ignoreCase = true)`, and the exceptions that
    `substring`, `last` and `Random.nextInt` throw, as values. */
module Kotlin {

  const MinInt: int := -0x8000_0000
  const MaxInt: int := 0x7fff_ffff

  /** Kotlin's `Int`. */
  type Int32 = x: int | -0x8000_0000 <= x <= 0x7fff_ffff

  /** The value a Kotlin `Int` operation yields for the mathematical result `x`:
      two's-complement wrap-around modulo 2^32. */
  function Wrap(x: int): (r: Int32)
    ensures MinInt <= x <= MaxInt ==> r == x
    ensures (x - r) % 0x1_0000_0000 == 0
  {
    (x - MinInt) % 0x1_0000_0000 + MinInt
  }

  /** The exceptions the modelled code can throw. */
  datatype Failure =
    | IllegalArgument      // an explicit throw / Random.nextInt on an empty range
    | IndexOutOfBounds     // substring / subSequence outside the string
    | NoSuchElement        // last() of an empty string

  datatype Result<T> = Ok(value: T) | Err(error: Failure)

  datatype Outcome = Pass | Fail(error: Failure)

  /** `s.repeat(n)` */
  function Repeat(s: string, n: nat): (r: string)
    ensures |r| == n * |s|
  {
    if n == 0 then "" else s + Repeat(s, n - 1)
  }

  /** `Char.isWhitespace()` restricted to the ASCII range: tab, line feed,
      vertical tab, form feed, carriage return, the four separators
      U+001C..U+001F, and space. */
  predicate IsWhitespace(c: char)
  {
    '\t' <= c <= '\r' || '\U{1C}' <= c <= ' '
  }

  predicate AllWhitespace(s: string)
  {
    forall k :: 0 <= k < |s| ==> IsWhitespace(s[k])
  }

  /** `s` without its leading white space. */
  function TrimStart(s: string): string
  {
    if |s| > 0 && IsWhitespace(s[0]) then TrimStart(s[1..]) else s
  }

  /** `s` without its trailing white space. */
  function TrimEnd(s: string): string
  {
    if |s| > 0 && IsWhitespace(s[|s| - 1]) then TrimEnd(s[..|s| - 1]) else s
  }

  /** `s.trim()`: `s` without its leading and trailing white space. */
  function Trim(s: string): string
  {
    TrimEnd(TrimStart(s))
  }

  /** TrimStart drops exactly the white space in front of `s`: the result is
      the suffix after a white-space prefix of length `|s| - |TrimStart(s)|`. */
  lemma {:induction false} TrimStartSpec(s: string)
    ensures |TrimStart(s)| <= |s|
    ensures TrimStart(s) == s[|s| - |TrimStart(s)|..]
    ensures AllWhitespace(s[..|s| - |TrimStart(s)|])
    ensures TrimStart(s) == [] || !IsWhitespace(TrimStart(s)[0])
  {
    if |s| > 0 && IsWhitespace(s[0]) {
      var t := s[1..];
      var r := TrimStart(t);
      assert TrimStart(s) == r;
      TrimStartSpec(t);
      var k := |s| - |r|;
      assert r == s[k..] by {
        assert t[|t| - |r|..] == s[k..];
      }
      assert AllWhitespace(s[..k]) by {
        assert s[..k] == [s[0]] + t[..|t| - |r|];
      }
    }
  }

  /** TrimEnd drops exactly the white space at the end of `s`: the result is
      the prefix before a white-space suffix. */
  lemma {:induction false} TrimEndSpec(s: string)
    ensures |TrimEnd(s)| <= |s|
    ensures TrimEnd(s) == s[..|TrimEnd(s)|]
    ensures AllWhitespace(s[|TrimEnd(s)|..])
    ensures TrimEnd(s) == [] || !IsWhitespace(TrimEnd(s)[|TrimEnd(s)| - 1])
  {
    if |s| > 0 && IsWhitespace(s[|s| - 1]) {
      var p := s[..|s| - 1];
      var r := TrimEnd(p);
      assert TrimEnd(s) == r;
      TrimEndSpec(p);
      assert r == s[..|r|] by {
        assert p[..|r|] == s[..|r|];
      }
      assert AllWhitespace(s[|r|..]) by {
        assert s[|r|..] == p[|r|..] + [s[|s| - 1]];
      }
    }
  }

  /** `trim()` returns a slice of `s` that neither starts nor ends with white
      space, and everything it cut off is white space. */
  lemma TrimSpec(s: string)
    ensures var r := Trim(s);
      && (exists i, j :: 0 <= i <= j <= |s| && r == s[i..j]
                         && AllWhitespace(s[..i]) && AllWhitespace(s[j..]))
      && (r == [] || (!IsWhitespace(r[0]) && !IsWhitespace(r[|r| - 1])))
  {
    var t := TrimStart(s);
    TrimStartSpec(s);
    var r := TrimEnd(t);
    TrimEndSpec(t);
    var i, j := |s| - |t|, |s| - |t| + |r|;
    assert r == s[i..j];
    assert s[j..] == t[|r|..];
  }

  /** Upper-case mapping of ASCII letters; every other character maps to itself. */
  function ToUpper(c: char): (u: char)
    ensures 'a' <= c <= 'z' ==> 'A' <= u <= 'Z' && u as int - 'A' as int == c as int - 'a' as int
    ensures !('a' <= c <= 'z') ==> u == c
  {
    if 'a' <= c <= 'z' then (c as int - 32) as char else c
  }

  /** Lower-case mapping of ASCII letters; every other character maps to itself. */
  function ToLower(c: char): (l: char)
    ensures 'A' <= c <= 'Z' ==> 'a' <= l <= 'z' && l as int - 'a' as int == c as int - 'A' as int
    ensures !('A' <= c <= 'Z') ==> l == c
  {
    if 'A' <= c <= 'Z' then (c as int + 32) as char else c
  }

  /** The per-character test of `equals(ignoreCase = true)`: equal, equal after
      upper-casing, or equal after upper- then lower-casing. */
  predicate CharEqualsIgnoreCase(a: char, b: char)
  {
    a == b || ToUpper(a) == ToUpper(b) || ToLower(ToUpper(a)) == ToLower(ToUpper(b))
  }

  /** `a.equals(b, ignoreCase = true)`: same length, characters pairwise equal
      ignoring case. */
  predicate EqualsIgnoreCase(a: string, b: string)
  {
    |a| == |b| && forall k :: 0 <= k < |a| ==> CharEqualsIgnoreCase(a[k], b[k])
  }

  /** Reference definition: the string with every letter upper-cased. */
  function UpperCase(s: string): (r: string)
    ensures |r| == |s|
    ensures forall k :: 0 <= k < |s| ==> r[k] == ToUpper(s[k])
  {
    if s == [] then [] else [ToUpper(s[0])] + UpperCase(s[1..])
  }

  /** Two characters are equal ignoring case exactly when their upper cases
      are equal. */
  lemma CharEqualsIgnoreCaseIsUpperEquality(x: char, y: char)
    ensures CharEqualsIgnoreCase(x, y) <==> ToUpper(x) == ToUpper(y)
  {
    var ux, uy := ToUpper(x), ToUpper(y);
    if ToLower(ux) == ToLower(uy) {
      assert !('a' <= ux <= 'z') && !('a' <= uy <= 'z');
      if 'A' <= ux <= 'Z' {
        assert 'A' <= uy <= 'Z';
      }
    }
  }

  /** Comparing ignoring case is comparing the upper-cased strings. */
  lemma EqualsIgnoreCaseIsUpperCaseEquality(a: string, b: string)
    ensures EqualsIgnoreCase(a, b) <==> UpperCase(a) == UpperCase(b)
  {
    if EqualsIgnoreCase(a, b) {
      forall k | 0 <= k < |a|
        ensures UpperCase(a)[k] == UpperCase(b)[k]
      {
        CharEqualsIgnoreCaseIsUpperEquality(a[k], b[k]);
      }
    }
    if UpperCase(a) == UpperCase(b) {
      forall k | 0 <= k < |a|
        ensures CharEqualsIgnoreCase(a[k], b[k])
      {
        assert UpperCase(a)[k] == UpperCase(b)[k];
        CharEqualsIgnoreCaseIsUpperEquality(a[k], b[k]);
      }
    }
  }

  /** Ignoring case is an equivalence relation. */
  lemma EqualsIgnoreCaseIsEquivalence(a: string, b: string, c: string)
    ensures EqualsIgnoreCase(a, a)
    ensures EqualsIgnoreCase(a, b) ==> EqualsIgnoreCase(b, a)
    ensures EqualsIgnoreCase(a, b) && EqualsIgnoreCase(b, c) ==> EqualsIgnoreCase(a, c)
  {
    EqualsIgnoreCaseIsUpperCaseEquality(a, a);
    EqualsIgnoreCaseIsUpperCaseEquality(a, b);
    EqualsIgnoreCaseIsUpperCaseEquality(b, a);
    EqualsIgnoreCaseIsUpperCaseEquality(b, c);
    EqualsIgnoreCaseIsUpperCaseEquality(a, c);
  }
}
