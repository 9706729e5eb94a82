/** The JavaScript string operations the application relies on, stated over
    Dafny strings (sequences of Unicode scalar values). */
module JsString {

  /** The characters `String.prototype.trim` removes: ECMAScript WhiteSpace
      (TAB, VT, FF, ZWNBSP and the Space_Separator category) and LineTerminator. */
  predicate IsWs(c: char) {
    || c == '\t' || c == '\n' || c == '\U{000B}' || c == '\U{000C}' || c == '\r'
    || c == ' ' || c == '\U{00A0}' || c == '\U{1680}'
    || ('\U{2000}' <= c <= '\U{200A}')
    || c == '\U{2028}' || c == '\U{2029}' || c == '\U{202F}' || c == '\U{205F}'
    || c == '\U{3000}' || c == '\U{FEFF}'
  }

  predicate AllWs(s: string) {
    forall i :: 0 <= i < |s| ==> IsWs(s[i])
  }

  /** A string with no leading or trailing whitespace. */
  predicate IsTrimmed(s: string) {
    s == [] || (!IsWs(s[0]) && !IsWs(s[|s| - 1]))
  }

  /** The first index at or after i that does not hold whitespace (|s| if none). */
  function SkipWs(s: string, i: nat): (k: nat)
    requires i <= |s|
    ensures i <= k <= |s|
    ensures forall j :: i <= j < k ==> IsWs(s[j])
    ensures k < |s| ==> !IsWs(s[k])
    decreases |s| - i
  {
    if i < |s| && IsWs(s[i]) then SkipWs(s, i + 1) else i
  }

  /** The end of s[lo..hi] once its trailing whitespace is dropped. */
  function SkipWsBack(s: string, lo: nat, hi: nat): (k: nat)
    requires lo <= hi <= |s|
    ensures lo <= k <= hi
    ensures forall j :: k <= j < hi ==> IsWs(s[j])
    ensures k > lo ==> !IsWs(s[k - 1])
    decreases hi
  {
    if hi > lo && IsWs(s[hi - 1]) then SkipWsBack(s, lo, hi - 1) else hi
  }

  /** How many leading whitespace characters `trim` removes. */
  function TrimOffset(s: string): (a: nat)
    ensures a <= |s|
  {
    SkipWs(s, 0)
  }

  /** `s.trim()`: the result is the slice of s that starts after the leading
      whitespace, everything cut off on either side is whitespace, and neither
      end of the result is. */
  function Trim(s: string): (r: string)
    ensures IsTrimmed(r)
    ensures TrimOffset(s) + |r| <= |s|
    ensures r == s[TrimOffset(s)..TrimOffset(s) + |r|]
    ensures forall i :: 0 <= i < TrimOffset(s) ==> IsWs(s[i])
    ensures forall i :: TrimOffset(s) + |r| <= i < |s| ==> IsWs(s[i])
  {
    var a := SkipWs(s, 0);
    var b := SkipWsBack(s, a, |s|);
    assert b > a ==> s[a..b][0] == s[a] && s[a..b][b - a - 1] == s[b - 1];
    s[a..b]
  }

  /** A character that is not whitespace survives trimming. */
  lemma TrimKeepsNonWs(s: string, k: nat)
    requires k < |s| && !IsWs(s[k])
    ensures TrimOffset(s) <= k < TrimOffset(s) + |Trim(s)|
  {
  }

  /** A blank string trims to "" and a string with any other character does not. */
  lemma TrimEmptyIffBlank(s: string)
    ensures Trim(s) == [] <==> AllWs(s)
  {
    var r, a := Trim(s), TrimOffset(s);
    if r != [] {
      assert r[0] == s[a] && !IsWs(s[a]);
    }
  }

  /** Trimming a trimmed string changes nothing; in particular trim is idempotent. */
  lemma TrimOfTrimmed(s: string)
    requires IsTrimmed(s)
    ensures Trim(s) == s
  {
  }

  lemma TrimIdempotent(s: string)
    ensures Trim(Trim(s)) == Trim(s)
  {
    TrimOfTrimmed(Trim(s));
  }

  /** `s.startsWith(p)` */
  predicate StartsWith(s: string, p: string) {
    |p| <= |s| && s[..|p|] == p
  }

  /** `s.endsWith(p)` */
  predicate EndsWith(s: string, p: string) {
    |p| <= |s| && s[|s| - |p|..] == p
  }

  /** `s.includes(p)`, as a left-to-right search. */
  predicate Contains(s: string, p: string)
    decreases |s|
  {
    StartsWith(s, p) || (s != [] && Contains(s[1..], p))
  }

  /** The search agrees with the usual definition: p occurs at some position of s. */
  lemma {:induction false} ContainsAt(s: string, p: string, i: nat)
    requires i + |p| <= |s| && s[i..i + |p|] == p
    ensures Contains(s, p)
    decreases i
  {
    if i > 0 {
      assert s[1..][i - 1..i - 1 + |p|] == p;
      ContainsAt(s[1..], p, i - 1);
    }
  }

  lemma {:induction false} ContainsWitness(s: string, p: string) returns (i: nat)
    requires Contains(s, p)
    ensures i + |p| <= |s| && s[i..i + |p|] == p
    decreases |s|
  {
    if StartsWith(s, p) {
      i := 0;
    } else {
      var j := ContainsWitness(s[1..], p);
      i := j + 1;
      assert s[i..i + |p|] == s[1..][j..j + |p|];
    }
  }

  lemma ContainsSuffix(s: string, p: string)
    ensures Contains(s + p, p)
  {
    ContainsAt(s + p, p, |s|);
  }

  lemma ContainsExtend(s: string, t: string, p: string)
    requires Contains(s, p)
    ensures Contains(s + t, p) && Contains(t + s, p)
  {
    var i := ContainsWitness(s, p);
    assert (s + t)[i..i + |p|] == s[i..i + |p|];
    ContainsAt(s + t, p, i);
    assert (t + s)[|t| + i..|t| + i + |p|] == s[i..i + |p|];
    ContainsAt(t + s, p, |t| + i);
  }

  function DigitChar(d: nat): (c: char)
    requires d < 10
    ensures '0' <= c <= '9'
  {
    ['0', '1', '2', '3', '4', '5', '6', '7', '8', '9'][d]
  }

  predicate IsDigit(c: char) {
    '0' <= c <= '9'
  }

  predicate AllDigits(s: string) {
    forall i :: 0 <= i < |s| ==> IsDigit(s[i])
  }

  /** `String(n)` for a non-negative integer: its shortest decimal form. */
  function NatToString(n: nat): (r: string)
    ensures r != [] && AllDigits(r)
    ensures (r[0] == '0') ==> n == 0
  {
    if n < 10 then [DigitChar(n)] else NatToString(n / 10) + [DigitChar(n % 10)]
  }

  /** The decimal value of a digit string. */
  function DigitsValue(s: string): nat
    requires AllDigits(s)
  {
    if s == [] then 0 else 10 * DigitsValue(s[..|s| - 1]) + ((s[|s| - 1] as int) - ('0' as int))
  }

  /** Reading back the decimal form gives the number: NatToString is injective. */
  lemma {:induction false} NatToStringRoundTrip(n: nat)
    ensures DigitsValue(NatToString(n)) == n
  {
    var r := NatToString(n);
    if n >= 10 {
      NatToStringRoundTrip(n / 10);
      assert r[..|r| - 1] == NatToString(n / 10);
    }
  }

  lemma NatToStringInjective(m: nat, n: nat)
    requires NatToString(m) == NatToString(n)
    ensures m == n
  {
    NatToStringRoundTrip(m);
    NatToStringRoundTrip(n);
  }

  /** `String(i)` for an integer. */
  function IntToString(i: int): (r: string)
    ensures r != []
    ensures i >= 0 ==> AllDigits(r)
    ensures i < 0 ==> r[0] == '-' && AllDigits(r[1..])
  {
    if i < 0 then "-" + NatToString(-i) else NatToString(i)
  }

  /** Number of UTF-16 code units of one character (`.length` counts these). */
  function Utf16Units(c: char): nat {
    if c as int > 0xFFFF then 2 else 1
  }

  /** `s.length` in JavaScript: the UTF-16 length of s. */
  function JsLength(s: string): (n: nat)
    ensures |s| <= n <= 2 * |s|
  {
    if s == [] then 0 else JsLength(s[..|s| - 1]) + Utf16Units(s[|s| - 1])
  }

  /** `s.substring(0, n)`: the longest prefix of s of at most n UTF-16 units. */
  function JsPrefix(s: string, n: nat): (r: string)
    ensures |r| <= |s| && r == s[..|r|]
    ensures JsLength(r) <= n
    ensures JsLength(s) <= n ==> r == s
    ensures |r| < |s| ==> JsLength(s[..|r| + 1]) > n
    decreases |s|
  {
    if JsLength(s) <= n then s
    else
      var r := JsPrefix(s[..|s| - 1], n);
      assert JsLength(s[..|r| + 1]) > n by {
        if |r| < |s| - 1 {
          assert s[..|s| - 1][..|r| + 1] == s[..|r| + 1];
        } else {
          assert s[..|r| + 1] == s;
        }
      }
      r
  }

  /** ASCII lower-casing, the folding a JavaScript `/i` regular expression without
      the `u` flag applies to the ASCII letters it matches. */
  function AsciiLower(c: char): char {
    if 'A' <= c <= 'Z' then ((c as int) + 32) as char else c
  }

  /** The pattern p (written in lower case) matches the start of s ignoring ASCII case. */
  predicate StartsWithCI(s: string, p: string) {
    |p| <= |s| && forall i :: 0 <= i < |p| ==> AsciiLower(s[i]) == p[i]
  }

  /** `parts.join(sep)` */
  function Join(parts: seq<string>, sep: string): string {
    if parts == [] then ""
    else if |parts| == 1 then parts[0]
    else parts[0] + sep + Join(parts[1..], sep)
  }

  /** `a || b` for two strings: the empty string is falsy. */
  function OrElse(a: string, b: string): (r: string)
    ensures r == (if a == "" then b else a)
  {
    if a != "" then a else b
  }
}
