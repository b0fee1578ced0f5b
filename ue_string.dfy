/** The engine string operations the plugin relies on.
  *
  * FString's `Equals`, `StartsWith`, `EndsWith`, `RemoveFromStart`,
  * `RemoveFromEnd`, `Replace` and the `Contains` of a `TSet<FString>` all
  * compare ignoring case unless told otherwise; the plugin never tells them
  * otherwise. Case folding is modelled for ASCII letters only.
  */
module UEString {

  function ToLowerChar(c: char): (r: char)
    ensures ('A' <= c <= 'Z') ==> r as int == c as int + 32
    ensures !('A' <= c <= 'Z') ==> r == c
  {
    if 'A' <= c <= 'Z' then (c as int + 32) as char else c
  }

  function ToLower(s: string): (r: string)
    ensures |r| == |s|
    ensures forall i :: 0 <= i < |s| ==> r[i] == ToLowerChar(s[i])
  {
    seq(|s|, i requires 0 <= i < |s| => ToLowerChar(s[i]))
  }

  lemma ToLowerAppend(a: string, b: string)
    ensures ToLower(a + b) == ToLower(a) + ToLower(b)
  {
  }

  /** `FString::Equals(Other, ESearchCase::IgnoreCase)`, and FString's `==`. */
  predicate EqualsIgnoreCase(a: string, b: string) {
    ToLower(a) == ToLower(b)
  }

  /** `FString::StartsWith`: an empty prefix never matches. */
  predicate StartsWith(s: string, prefix: string) {
    0 < |prefix| <= |s| && EqualsIgnoreCase(s[..|prefix|], prefix)
  }

  /** `FString::EndsWith`: an empty suffix never matches. */
  predicate EndsWith(s: string, suffix: string) {
    0 < |suffix| <= |s| && EqualsIgnoreCase(s[|s| - |suffix|..], suffix)
  }

  /** `FString::RemoveFromStart`: drops the prefix when it is there. */
  function RemoveFromStart(s: string, prefix: string): (r: string)
    ensures StartsWith(s, prefix) ==> |r| == |s| - |prefix| && s == s[..|prefix|] + r
    ensures !StartsWith(s, prefix) ==> r == s
  {
    if StartsWith(s, prefix) then s[|prefix|..] else s
  }

  /** `FString::RemoveFromEnd`: drops the suffix when it is there. */
  function RemoveFromEnd(s: string, suffix: string): (r: string)
    ensures EndsWith(s, suffix) ==> |r| == |s| - |suffix| && s == r + s[|r|..]
    ensures !EndsWith(s, suffix) ==> r == s
  {
    if EndsWith(s, suffix) then s[..|s| - |suffix|] else s
  }

  /** True when `needle` occurs in `s` at position `i`, ignoring case. */
  predicate OccursAt(s: string, needle: string, i: nat) {
    i + |needle| <= |s| && EqualsIgnoreCase(s[i..i + |needle|], needle)
  }

  predicate Occurs(s: string, needle: string) {
    exists i: nat | i <= |s| :: OccursAt(s, needle, i)
  }

  /** `FString::Replace(From, TEXT(""))`: scans left to right and drops every
    * non-overlapping occurrence of `from`; an empty `from` changes nothing. */
  function Replace(s: string, from: string): (r: string)
    ensures |r| <= |s|
    decreases |s|
  {
    if |from| == 0 || |s| < |from| then s
    else if EqualsIgnoreCase(s[..|from|], from) then Replace(s[|from|..], from)
    else [s[0]] + Replace(s[1..], from)
  }

  /** A string in which `from` does not occur comes back unchanged. */
  lemma {:induction false} ReplaceWithoutOccurrence(s: string, from: string)
    requires !Occurs(s, from)
    ensures Replace(s, from) == s
    decreases |s|
  {
    if |from| == 0 || |s| < |from| {
    } else {
      assert !OccursAt(s, from, 0);
      assert !EqualsIgnoreCase(s[..|from|], from);
      forall i: nat | i <= |s[1..]| ensures !OccursAt(s[1..], from, i) {
        if i + |from| <= |s[1..]| {
          assert s[1..][i..i + |from|] == s[i + 1..i + 1 + |from|];
          assert !OccursAt(s, from, i + 1);
        }
      }
      ReplaceWithoutOccurrence(s[1..], from);
    }
  }

  /** An occurrence at the very front is removed and the scan goes on behind it. */
  lemma ReplaceLeadingOccurrence(s: string, from: string)
    requires |from| > 0
    ensures Replace(from + s, from) == Replace(s, from)
  {
    assert (from + s)[..|from|] == from;
    assert (from + s)[|from|..] == s;
  }

  /** Decimal digits of a natural number, `FString::FromInt` for values >= 0. */
  function DigitChar(d: nat): (c: char)
    requires d < 10
    ensures '0' <= c <= '9'
  {
    ('0' as int + d) as char
  }

  function FromInt(n: nat): (r: string)
    ensures |r| > 0
    ensures forall i :: 0 <= i < |r| ==> '0' <= r[i] <= '9'
  {
    if n < 10 then [DigitChar(n)] else FromInt(n / 10) + [DigitChar(n % 10)]
  }

  function Pow10(d: nat): (r: nat)
    ensures r >= 1
  {
    if d == 0 then 1 else 10 * Pow10(d - 1)
  }

  /** A number of at least 10^d takes more than d digits. */
  lemma {:induction false} FromIntLength(n: nat, d: nat)
    requires n >= Pow10(d)
    ensures |FromInt(n)| > d
  {
    if d > 0 {
      assert n >= 10;
      assert n / 10 >= Pow10(d - 1);
      FromIntLength(n / 10, d - 1);
    }
  }

  predicate IsDigit(c: char) {
    '0' <= c <= '9'
  }

  /** Length of the run of decimal digits at the front of `s`. */
  function DigitRun(s: string): (k: nat)
    ensures k <= |s|
    ensures forall i :: 0 <= i < k ==> IsDigit(s[i])
    ensures k == |s| || !IsDigit(s[k])
  {
    if |s| == 0 || !IsDigit(s[0]) then 0 else 1 + DigitRun(s[1..])
  }

  /** The value of a string of decimal digits, most significant first. */
  function DigitsValue(s: string): (v: nat)
    requires forall i :: 0 <= i < |s| ==> IsDigit(s[i])
  {
    if |s| == 0 then 0
    else
      assert IsDigit(s[|s| - 1]);
      10 * DigitsValue(s[..|s| - 1]) + (s[|s| - 1] as int - '0' as int)
  }

  /** The unsigned part of `FCString::Atof`: leading digits, then an optional
    * '.' and fraction digits; parsing stops at the first other character. */
  function UnsignedDecimal(s: string): (v: real)
    ensures v >= 0.0
  {
    var k := DigitRun(s);
    var whole := DigitsValue(s[..k]) as real;
    if k < |s| && s[k] == '.' then
      var f := s[k + 1..];
      var m := DigitRun(f);
      whole + DigitsValue(f[..m]) as real / Pow10(m) as real
    else whole
  }

  /** `FCString::Atof` for plain decimal notation: an optional sign, then the
    * unsigned decimal; a string that does not start with a number reads 0. */
  function Atof(s: string): (v: real)
    ensures |s| > 0 && s[0] == '-' ==> v == -UnsignedDecimal(s[1..])
    ensures |s| > 0 && s[0] == '+' ==> v == UnsignedDecimal(s[1..])
  {
    if |s| > 0 && s[0] == '-' then -UnsignedDecimal(s[1..])
    else if |s| > 0 && s[0] == '+' then UnsignedDecimal(s[1..])
    else UnsignedDecimal(s)
  }

  /** The digits `FromInt` writes are read back as the same number. */
  lemma {:induction false} DigitsValueFromInt(n: nat)
    ensures DigitsValue(FromInt(n)) == n
  {
    var r := FromInt(n);
    if n >= 10 {
      DigitsValueFromInt(n / 10);
      assert r[..|r| - 1] == FromInt(n / 10);
    }
  }

  /** `Atof` reads a written integer, with or without a minus sign, as that
    * integer. */
  lemma AtofFromInt(n: nat)
    ensures Atof(FromInt(n)) == n as real
    ensures Atof("-" + FromInt(n)) == -(n as real)
  {
    var r := FromInt(n);
    assert DigitRun(r) == |r| by {
      DigitRunAll(r);
    }
    assert r[..|r|] == r;
    DigitsValueFromInt(n);
    assert ("-" + r)[1..] == r;
  }

  lemma {:induction false} DigitRunAll(s: string)
    requires forall i :: 0 <= i < |s| ==> IsDigit(s[i])
    ensures DigitRun(s) == |s|
  {
    if |s| > 0 {
      DigitRunAll(s[1..]);
    }
  }

  /** Case-insensitive membership, which is what `TSet<FString>::Contains` does. */
  predicate ContainsIgnoreCase(names: set<string>, s: string) {
    exists n :: n in names && EqualsIgnoreCase(n, s)
  }

  /** Length of the token at the front of `s`, up to the first `delim`. */
  function TokenLength(s: string, delim: char): (k: nat)
    ensures k <= |s|
    ensures forall i :: 0 <= i < k ==> s[i] != delim
    ensures k == |s| || s[k] == delim
  {
    if |s| == 0 || s[0] == delim then 0 else 1 + TokenLength(s[1..], delim)
  }

  /** `FString::ParseIntoArray(Out, Delim, /*CullEmpty*/ true)` for a
    * one-character delimiter: the maximal runs of non-delimiter characters. */
  function ParseIntoArray(s: string, delim: char): (r: seq<string>)
    decreases |s|
  {
    if |s| == 0 then []
    else if s[0] == delim then ParseIntoArray(s[1..], delim)
    else
      var k := TokenLength(s, delim);
      [s[..k]] + ParseIntoArray(s[k..], delim)
  }

  function Concat(parts: seq<string>): string {
    if |parts| == 0 then "" else parts[0] + Concat(parts[1..])
  }

  /** `s` with every `delim` removed. */
  function Without(s: string, delim: char): (r: string)
    ensures delim !in r
  {
    if |s| == 0 then "" else (if s[0] == delim then "" else [s[0]]) + Without(s[1..], delim)
  }

  lemma {:induction false} WithoutAppend(a: string, b: string, delim: char)
    ensures Without(a + b, delim) == Without(a, delim) + Without(b, delim)
    decreases |a|
  {
    if |a| == 0 {
      assert a + b == b;
    } else {
      assert (a + b)[1..] == a[1..] + b;
      WithoutAppend(a[1..], b, delim);
    }
  }

  lemma {:induction false} WithoutNoDelim(s: string, delim: char)
    requires delim !in s
    ensures Without(s, delim) == s
    decreases |s|
  {
    if |s| > 0 {
      WithoutNoDelim(s[1..], delim);
    }
  }

  /** The tokens are non-empty, hold no delimiter, and together hold exactly
    * the non-delimiter characters of the input, in order. */
  lemma {:induction false} ParseIntoArrayTokens(s: string, delim: char)
    ensures forall i :: 0 <= i < |ParseIntoArray(s, delim)| ==>
      |ParseIntoArray(s, delim)[i]| > 0 && delim !in ParseIntoArray(s, delim)[i]
    ensures Concat(ParseIntoArray(s, delim)) == Without(s, delim)
    decreases |s|
  {
    if |s| == 0 {
    } else if s[0] == delim {
      ParseIntoArrayTokens(s[1..], delim);
    } else {
      var k := TokenLength(s, delim);
      var rest := ParseIntoArray(s[k..], delim);
      ParseIntoArrayTokens(s[k..], delim);
      assert ParseIntoArray(s, delim) == [s[..k]] + rest;
      assert delim !in s[..k];
      assert s == s[..k] + s[k..];
      WithoutAppend(s[..k], s[k..], delim);
      WithoutNoDelim(s[..k], delim);
      assert ([s[..k]] + rest)[1..] == rest;
    }
  }

  lemma {:induction false} TokenLengthOfToken(t: string, rest: string, delim: char)
    requires delim !in t
    ensures TokenLength(t + [delim] + rest, delim) == |t|
    ensures TokenLength(t, delim) == |t|
    decreases |t|
  {
    if |t| > 0 {
      assert (t + [delim] + rest)[1..] == t[1..] + [delim] + rest;
      TokenLengthOfToken(t[1..], rest, delim);
    }
  }

  /** A token followed by the delimiter splits off as the first element;
    * a lone token is the whole array. */
  lemma ParseIntoArrayToken(t: string, rest: string, delim: char)
    requires |t| > 0 && delim !in t
    ensures ParseIntoArray(t + [delim] + rest, delim) == [t] + ParseIntoArray(rest, delim)
    ensures ParseIntoArray(t, delim) == [t]
  {
    TokenLengthOfToken(t, rest, delim);
    var s := t + [delim] + rest;
    assert s[..|t|] == t;
    assert s[|t|..] == [delim] + rest;
    assert ([delim] + rest)[1..] == rest;
    assert t[..|t|] == t;
  }
}
