/** String helpers with the semantics of the JavaScript `String.prototype` methods the editor uses. */
module Text {

  /** The WhiteSpace and LineTerminator code points that JavaScript's `trim` strips. */
  predicate IsWhitespace(c: char) {
    || c == ' ' || c == '\t' || c == '\n' || c == '\r' || c == '\U{B}' || c == '\U{C}'
    || c == '\U{A0}' || c == '\U{1680}' || ('\U{2000}' <= c <= '\U{200A}')
    || c == '\U{2028}' || c == '\U{2029}' || c == '\U{202F}' || c == '\U{205F}'
    || c == '\U{3000}' || c == '\U{FEFF}'
  }

  /** Every character is whitespace, so the text trims to "". */
  predicate Blank(s: string) {
    forall i :: 0 <= i < |s| ==> IsWhitespace(s[i])
  }

  function TrimStart(s: string): (r: string)
    ensures |r| <= |s| && r == s[|s| - |r|..]
    ensures Blank(s[..|s| - |r|])
    ensures |r| > 0 ==> !IsWhitespace(r[0])
  {
    if |s| > 0 && IsWhitespace(s[0]) then TrimStart(s[1..]) else s
  }

  function TrimEnd(s: string): (r: string)
    ensures |r| <= |s| && r == s[..|r|]
    ensures Blank(s[|r|..])
    ensures |r| > 0 ==> !IsWhitespace(r[|r| - 1])
  {
    if |s| > 0 && IsWhitespace(s[|s| - 1]) then TrimEnd(s[..|s| - 1]) else s
  }

  /** `trim`: the text between the leading and the trailing whitespace. */
  function Trim(s: string): (r: string)
    ensures exists i, j :: 0 <= i <= j <= |s| && r == s[i..j] && Blank(s[..i]) && Blank(s[j..])
    ensures |r| > 0 ==> !IsWhitespace(r[0]) && !IsWhitespace(r[|r| - 1])
  {
    var t := TrimStart(s);
    var r := TrimEnd(t);
    var i := |s| - |t|;
    assert r == s[i..i + |r|];
    assert s[i + |r|..] == t[|r|..];
    r
  }

  /** A field "has text" for the dialogs' `!x.trim()` checks exactly when it is not all whitespace. */
  lemma TrimEmptyIffBlank(s: string)
    ensures Trim(s) == "" <==> Blank(s)
  {
    TrimEndEmptyIffBlank(TrimStart(s));
    TrimStartBlank(s);
  }

  lemma TrimStartBlank(s: string)
    ensures Blank(TrimStart(s)) <==> Blank(s)
  {
    var t := TrimStart(s);
    var k := |s| - |t|;
    assert s == s[..k] + t;
    if t != "" {
      assert s[k] == t[0];
    }
  }

  lemma TrimEndEmptyIffBlank(t: string)
    ensures TrimEnd(t) == "" <==> Blank(t)
  {
    var r := TrimEnd(t);
    if r != "" {
      assert t[|r| - 1] == r[|r| - 1];
    }
  }

  /** `pat` occurs in `s` starting at index `i`. */
  predicate OccursAt(s: string, pat: string, i: int) {
    0 <= i && i + |pat| <= |s| && s[i..i + |pat|] == pat
  }

  /** `includes`. */
  predicate Includes(s: string, pat: string) {
    exists i :: 0 <= i <= |s| - |pat| && OccursAt(s, pat, i)
  }

  /** `lastIndexOf`: the start of the last occurrence of `pat` in `s`, or -1. */
  function LastIndexOf(s: string, pat: string): (r: int)
    ensures -1 <= r <= |s|
    ensures 0 <= r ==> OccursAt(s, pat, r) && forall j :: r < j <= |s| ==> !OccursAt(s, pat, j)
    ensures r == -1 <==> !Includes(s, pat)
  {
    if |pat| > |s| then -1 else LastIndexFrom(s, pat, |s| - |pat|)
  }

  function LastIndexFrom(s: string, pat: string, k: nat): (r: int)
    requires k + |pat| <= |s|
    ensures -1 <= r <= k
    ensures 0 <= r ==> OccursAt(s, pat, r) && forall j :: r < j <= k ==> !OccursAt(s, pat, j)
    ensures r == -1 ==> forall j :: 0 <= j <= k ==> !OccursAt(s, pat, j)
    decreases k
  {
    if OccursAt(s, pat, k) then k
    else if k == 0 then -1
    else LastIndexFrom(s, pat, k - 1)
  }

  /** `toLowerCase` on one character, for the ASCII letters. */
  function LowerChar(c: char): char {
    if 'A' <= c <= 'Z' then (c as int + 32) as char else c
  }

  function ToLower(s: string): (r: string)
    ensures |r| == |s| && forall i :: 0 <= i < |s| ==> r[i] == LowerChar(s[i])
  {
    seq(|s|, i requires 0 <= i < |s| => LowerChar(s[i]))
  }

  /** Lowering is idempotent, so lowering the search a second time changes nothing. */
  lemma ToLowerTwice(s: string)
    ensures ToLower(ToLower(s)) == ToLower(s)
  {
  }

  /** A JavaScript `slice(start, end)` with non-negative bounds: both are clamped to the length. */
  function Slice(s: string, start: nat, end: nat): (r: string)
    ensures start <= end <= |s| ==> r == s[start..end]
    ensures |r| == if start <= end && start <= |s| then (if end <= |s| then end else |s|) - start else 0
  {
    var e := if end <= |s| then end else |s|;
    if start <= e then s[start..e] else ""
  }

  /** Slicing at any point and joining the two halves gives back the string. */
  lemma SliceSplit(s: string, i: nat)
    requires i <= |s|
    ensures Slice(s, 0, i) + Slice(s, i, |s|) == s
  {
    assert s[0..i] + s[i..|s|] == s;
  }

  function DigitChar(d: nat): char
    requires d < 10
  {
    ('0' as int + d) as char
  }

  /** The decimal rendering of a natural number, as template literals and `String` produce it. */
  function NatToString(n: nat): (r: string)
    ensures |r| > 0
    ensures forall i :: 0 <= i < |r| ==> '0' <= r[i] <= '9'
  {
    if n < 10 then [DigitChar(n)] else NatToString(n / 10) + [DigitChar(n % 10)]
  }

  function IntToString(n: int): string {
    if n < 0 then "-" + NatToString(-n) else NatToString(n)
  }

  predicate AllDigits(s: string) {
    forall i :: 0 <= i < |s| ==> '0' <= s[i] <= '9'
  }

  /** `s` is a decimal rendering of `n`: its digits, after a `-` when n is negative. */
  predicate Denotes(s: string, n: int) {
    if n >= 0 then |s| > 0 && AllDigits(s) && DigitsValue(s) == n
    else |s| > 1 && s[0] == '-' && AllDigits(s[1..]) && DigitsValue(s[1..]) == -n
  }

  /** The rendering of an integer reads back as that integer. */
  lemma IntToStringReadsBack(n: int)
    ensures Denotes(IntToString(n), n)
  {
    if n < 0 {
      NatToStringRoundTrip(-n);
      assert IntToString(n)[1..] == NatToString(-n);
    } else {
      NatToStringRoundTrip(n);
    }
  }

  /** A string denotes at most one integer, so different integers render differently. */
  lemma IntToStringInjective(a: int, b: int)
    requires IntToString(a) == IntToString(b)
    ensures a == b
  {
    IntToStringReadsBack(a);
    IntToStringReadsBack(b);
  }

  /** The number a string of decimal digits denotes. */
  function DigitsValue(s: string): nat
    requires forall i :: 0 <= i < |s| ==> '0' <= s[i] <= '9'
  {
    if |s| == 0 then 0 else DigitsValue(s[..|s| - 1]) * 10 + (s[|s| - 1] as int - '0' as int)
  }

  /** The decimal rendering loses nothing: reading it back gives the number. */
  lemma {:induction false} NatToStringRoundTrip(n: nat)
    ensures DigitsValue(NatToString(n)) == n
  {
    if n >= 10 {
      var r := NatToString(n);
      assert r[..|r| - 1] == NatToString(n / 10);
      NatToStringRoundTrip(n / 10);
    }
  }
  /** An array index (ECMAScript, section 6.1.7): the canonical decimal rendering of an integer
      from 0 to 2^32 - 2, so no sign, no leading zero and no fraction. */
  predicate IsArrayIndex(k: string) {
    && |k| > 0
    && (forall i :: 0 <= i < |k| ==> '0' <= k[i] <= '9')
    && (k[0] == '0' ==> |k| == 1)
    && DigitsValue(k) < 0xFFFF_FFFF
  }

  /** The number an array-index key denotes; other keys have none and map to 0. */
  function IndexValue(k: string): nat {
    if IsArrayIndex(k) then DigitsValue(k) else 0
  }

  /** JavaScript's own-key order (ECMAScript, section 10.1.11.1, OrdinaryOwnPropertyKeys):
      array-index keys come first, in ascending numeric order, and every other key after them. */
  predicate OwnKeyOrder(ks: seq<string>) {
    forall i, j :: 0 <= i < j < |ks| && IsArrayIndex(ks[j]) ==>
      IsArrayIndex(ks[i]) && IndexValue(ks[i]) <= IndexValue(ks[j])
  }

  /** In own-key order, a first key that is no array index has none after it. */
  lemma NoIndexAfter(ks: seq<string>)
    requires |ks| > 0 && OwnKeyOrder(ks) && !IsArrayIndex(ks[0])
    ensures forall i :: 0 <= i < |ks| ==> !IsArrayIndex(ks[i])
  {
  }

  /** The decimal rendering of a number starts with "0" only for zero itself. */
  lemma {:induction false} NatToStringLeading(n: nat)
    ensures NatToString(n)[0] == '0' <==> n == 0
  {
    if n >= 10 {
      NatToStringLeading(n / 10);
    }
  }

  /** The key `String(n)` is an array index exactly when n is below 2^32 - 1, and it denotes n. */
  lemma NatToStringIsIndex(n: nat)
    ensures IsArrayIndex(NatToString(n)) <==> n < 0xFFFF_FFFF
    ensures n < 0xFFFF_FFFF ==> IndexValue(NatToString(n)) == n
  {
    NatToStringRoundTrip(n);
    NatToStringLeading(n);
    if n >= 10 {
      assert |NatToString(n)| > 1;
    }
  }
}
