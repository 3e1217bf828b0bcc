/** Shared vocabulary: optional values, identifiers, clock values and the
    JavaScript truthiness tests the request handlers apply to body fields. */
module Basics {

  datatype Option<+T> = None | Some(value: T)

  /** Document identifiers. Mongo ObjectIds are opaque; a natural number
      stands for each one, and a malformed id is not representable. */
  type OrderId = nat
  type UserId = nat
  type ProductId = nat

  /** Milliseconds since the epoch, as `Date.now()` reports them. */
  type Time = int

  /** `!s` is false: the field is present and is not the empty string. */
  predicate StrTruthy(s: Option<string>) {
    s.Some? && s.value != ""
  }

  /** `!x` is false: the field is present and is not zero (NaN is not modelled). */
  predicate NumTruthy(x: Option<real>) {
    x.Some? && x.value != 0.0
  }

  /** `s || fallback` for a string field. */
  function StrOr(s: Option<string>, fallback: string): (r: string)
    ensures StrTruthy(s) ==> r == s.value
    ensures !StrTruthy(s) ==> r == fallback
  {
    if StrTruthy(s) then s.value else fallback
  }

  /** `x || fallback` for a numeric field. */
  function NumOr(x: Option<real>, fallback: real): (r: real)
    ensures NumTruthy(x) ==> r == x.value
    ensures !NumTruthy(x) ==> r == fallback
  {
    if NumTruthy(x) then x.value else fallback
  }

  predicate IsDigit(c: char) {
    '0' <= c <= '9'
  }

  function DigitChar(d: nat): (c: char)
    requires d < 10
    ensures IsDigit(c)
  {
    (48 + d) as char
  }

  /** `n.toString()` for a non-negative integer: its decimal digits, no leading zero. */
  function DecimalString(n: nat): (s: string)
    ensures |s| >= 1
    ensures forall i :: 0 <= i < |s| ==> IsDigit(s[i])
    ensures n >= 10 ==> s[0] != '0'
  {
    if n < 10 then [DigitChar(n)] else DecimalString(n / 10) + [DigitChar(n % 10)]
  }

  function Pow10(k: nat): (p: nat)
    ensures p >= 1
  {
    if k == 0 then 1 else 10 * Pow10(k - 1)
  }

  /** A number with `k` decimal digits prints as exactly `k` characters. */
  lemma {:induction false} DecimalStringLength(n: nat, k: nat)
    requires 1 <= k && Pow10(k - 1) <= n < Pow10(k)
    ensures |DecimalString(n)| == k
  {
    if k > 1 {
      var q := n / 10;
      assert Pow10(k - 1) == 10 * Pow10(k - 2);
      assert Pow10(k) == 10 * Pow10(k - 1);
      assert n == 10 * q + n % 10;
      assert Pow10(k - 2) <= q < Pow10(k - 1);
      DecimalStringLength(q, k - 1);
    }
  }
  /** The value of a string of decimal digits, most significant first. */
  function DecimalValue(s: string): (n: nat)
    requires forall i :: 0 <= i < |s| ==> IsDigit(s[i])
  {
    if s == [] then 0
    else
      assert IsDigit(s[|s| - 1]);
      DecimalValue(s[..|s| - 1]) * 10 + ((s[|s| - 1] as int) - 48)
  }

  /** Printing then reading back gives the number: `toString` is injective. */
  lemma {:induction false} DecimalRoundTrip(n: nat)
    ensures DecimalValue(DecimalString(n)) == n
  {
    var s := DecimalString(n);
    if n >= 10 {
      DecimalRoundTrip(n / 10);
      assert s[..|s| - 1] == DecimalString(n / 10);
    }
  }

  // ---------------------------------------------------------------------
  // String.prototype.trim
  // ---------------------------------------------------------------------

  /** The characters `trim` strips and the regular-expression class `\s`
      matches: the ECMAScript WhiteSpace and LineTerminator code points. */
  predicate IsJsSpace(c: char) {
    || c == '\t' || c == '\n' || c == '\U{000B}' || c == '\U{000C}' || c == '\r' || c == ' '
    || c == '\U{00A0}' || c == '\U{1680}' || ('\U{2000}' <= c <= '\U{200A}')
    || c == '\U{2028}' || c == '\U{2029}' || c == '\U{202F}' || c == '\U{205F}'
    || c == '\U{3000}' || c == '\U{FEFF}'
  }

  predicate AllSpace(s: string) {
    forall i :: 0 <= i < |s| ==> IsJsSpace(s[i])
  }

  /** Neither end of `s` is a space. */
  predicate Trimmed(s: string) {
    s == [] || (!IsJsSpace(s[0]) && !IsJsSpace(s[|s| - 1]))
  }

  /** `s.trim()`: a space is dropped from whichever end has one until
      neither end has one. */
  function Trim(s: string): (t: string)
    ensures Trimmed(t)
    ensures t == [] <==> AllSpace(s)
    decreases |s|
  {
    if s == [] then s
    else if IsJsSpace(s[0]) then
      SpaceDropFirst(s);
      Trim(s[1..])
    else if IsJsSpace(s[|s| - 1]) then
      SpaceDropLast(s);
      Trim(s[..|s| - 1])
    else s
  }

  lemma SpaceDropFirst(s: string)
    requires s != [] && IsJsSpace(s[0])
    ensures AllSpace(s[1..]) <==> AllSpace(s)
  {
    if AllSpace(s[1..]) {
      forall i | 0 <= i < |s| ensures IsJsSpace(s[i]) {
        if i > 0 {
          assert s[i] == s[1..][i - 1];
        }
      }
    }
  }

  lemma SpaceDropLast(s: string)
    requires s != [] && IsJsSpace(s[|s| - 1])
    ensures AllSpace(s[..|s| - 1]) <==> AllSpace(s)
  {
    if AllSpace(s[..|s| - 1]) {
      forall i | 0 <= i < |s| ensures IsJsSpace(s[i]) {
        if i < |s| - 1 {
          assert s[i] == s[..|s| - 1][i];
        }
      }
    }
  }

  /** `trim` on an optional field: a missing field stays missing. */
  function TrimOpt(s: Option<string>): (t: Option<string>)
    ensures t.Some? <==> s.Some?
    ensures t.Some? ==> Trimmed(t.value) && (t.value == [] <==> AllSpace(s.value))
  {
    if s.Some? then Some(Trim(s.value)) else None
  }

  /** The trimmed field is truthy exactly when the field holds a character
      other than a space. */
  lemma TrimmedTruthy(s: Option<string>)
    ensures StrTruthy(TrimOpt(s)) <==> s.Some? && !AllSpace(s.value)
  {
  }

  /** `trim` removes exactly the padding: text with no space at either end,
      padded by spaces on both sides, trims back to itself. */
  lemma {:induction false} TrimStripsPadding(a: string, m: string, b: string)
    requires AllSpace(a) && AllSpace(b) && Trimmed(m)
    ensures Trim(a + m + b) == m
    decreases |a| + |b|
  {
    var s := a + m + b;
    if m == [] {
      forall i | 0 <= i < |s| ensures IsJsSpace(s[i]) {
        if i < |a| {
          assert s[i] == a[i];
        } else {
          assert s[i] == b[i - |a|];
        }
      }
    } else if a != [] {
      assert s[0] == a[0];
      assert s[1..] == a[1..] + m + b;
      SpaceDropFirst(a);
      TrimStripsPadding(a[1..], m, b);
    } else if b != [] {
      assert s[0] == m[0];
      assert s[|s| - 1] == b[|b| - 1];
      assert s[..|s| - 1] == a + m + b[..|b| - 1];
      SpaceDropLast(b);
      TrimStripsPadding(a, m, b[..|b| - 1]);
    } else {
      assert s == m;
    }
  }

  /** Trimming twice is trimming once. */
  lemma TrimIdempotent(s: string)
    ensures Trim(Trim(s)) == Trim(s)
  {
    TrimStripsPadding([], Trim(s), []);
    assert [] + Trim(s) + [] == Trim(s);
  }
}
