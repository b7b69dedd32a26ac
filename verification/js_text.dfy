/**
 JavaScript string behaviour that the three client scripts rely on:
 nullable values, truthiness of strings and numbers, `a || b` defaults,
 `String.prototype.trim`, `split` on one separator character, and the
 decimal rendering of an integer inside a template literal.

 Strings are `seq<char>` whose elements are Unicode scalar values; the
 scripts count UTF-16 code units instead, which only differs for characters
 outside the Basic Multilingual Plane.
 */
module JsText {

  /** A value that may be `null` or `undefined`. */
  datatype Option<+T> = None | Some(value: T)

  /** JavaScript truthiness of a string: only the empty string is falsy. */
  predicate Truthy(s: string) {
    |s| > 0
  }

  /** Truthiness of a nullable string. */
  predicate TruthyText(a: Option<string>) {
    a.Some? && Truthy(a.value)
  }

  /** Truthiness of a nullable number: `null`, `undefined` and `0` are falsy. */
  predicate TruthyNumber(a: Option<int>) {
    a.Some? && a.value != 0
  }

  /** `a || fallback` for a nullable string. */
  function OrElse(a: Option<string>, fallback: string): (r: string)
    ensures TruthyText(a) ==> r == a.value
    ensures !TruthyText(a) ==> r == fallback
  {
    if TruthyText(a) then a.value else fallback
  }

  /** `a || null`: the value when it is truthy, otherwise nothing. */
  function Nonblank(a: Option<string>): (r: Option<string>)
    ensures r.Some? <==> TruthyText(a)
    ensures r.Some? ==> r == a
  {
    if TruthyText(a) then a else None
  }

  /**
   The characters `trim` removes: the WhiteSpace and LineTerminator
   productions of ECMAScript (tab, vertical tab, form feed, space, no-break
   space, byte-order mark, every space separator, and the four line
   terminators).
   */
  predicate IsWhitespace(c: char) {
    || c == '\t' || c == '\n' || c == '\U{000B}' || c == '\U{000C}' || c == '\r'
    || c == ' ' || c == '\U{00A0}' || c == '\U{1680}'
    || ('\U{2000}' <= c <= '\U{200A}')
    || c == '\U{2028}' || c == '\U{2029}' || c == '\U{202F}' || c == '\U{205F}'
    || c == '\U{3000}' || c == '\U{FEFF}'
  }

  predicate AllWhitespace(s: string) {
    forall i :: 0 <= i < |s| ==> IsWhitespace(s[i])
  }

  /** Neither end of `s` is a whitespace character. */
  predicate IsTrimmed(s: string) {
    |s| == 0 || (!IsWhitespace(s[0]) && !IsWhitespace(s[|s| - 1]))
  }

  /** Drops leading whitespace: the result is the suffix after a whitespace prefix. */
  function TrimStart(s: string): (r: string)
    ensures |r| <= |s| && r == s[|s| - |r|..]
    ensures AllWhitespace(s[..|s| - |r|])
    ensures |r| > 0 ==> !IsWhitespace(r[0])
  {
    if |s| > 0 && IsWhitespace(s[0]) then TrimStart(s[1..]) else s
  }

  /** Drops trailing whitespace: the result is the prefix before a whitespace suffix. */
  function TrimEnd(s: string): (r: string)
    ensures |r| <= |s| && r == s[..|r|]
    ensures AllWhitespace(s[|r|..])
    ensures |r| > 0 ==> !IsWhitespace(r[|r| - 1])
  {
    if |s| > 0 && IsWhitespace(s[|s| - 1]) then TrimEnd(s[..|s| - 1]) else s
  }

  /** `s.trim()`: whitespace removed from both ends. */
  function Trim(s: string): (r: string)
    ensures IsTrimmed(r) && |r| <= |s|
  {
    TrimEnd(TrimStart(s))
  }

  /**
   What `trim` removes is only whitespace: the result is a slice of `s`
   with whitespace on both sides of it.
   */
  lemma TrimIsSlice(s: string)
    ensures exists i, j ::
              && 0 <= i <= j <= |s| && Trim(s) == s[i..j]
              && AllWhitespace(s[..i]) && AllWhitespace(s[j..])
  {
    var a := TrimStart(s);
    var r := TrimEnd(a);
    var i := |s| - |a|;
    var j := i + |r|;
    assert r == s[i..j] by {
      assert a == s[i..] && r == a[..|r|];
    }
    assert AllWhitespace(s[j..]) by {
      assert s[j..] == a[|r|..];
    }
  }

  /** A slice holds no character its source lacks. */
  lemma SliceKeepsAbsent(s: string, i: int, j: int, c: char)
    requires 0 <= i <= j <= |s| && c !in s
    ensures c !in s[i..j]
  {
  }

  /** Trimming adds no character. */
  lemma TrimKeepsAbsent(s: string, c: char)
    requires c !in s
    ensures c !in Trim(s)
  {
    var a := TrimStart(s);
    SliceKeepsAbsent(s, |s| - |a|, |s|, c);
    SliceKeepsAbsent(a, 0, |TrimEnd(a)|, c);
  }

  /** Trimming a trimmed string changes nothing. */
  lemma TrimOfTrimmed(s: string)
    requires IsTrimmed(s)
    ensures Trim(s) == s
  {
  }

  /** `trim` is idempotent. */
  lemma TrimIdempotent(s: string)
    ensures Trim(Trim(s)) == Trim(s)
  {
    TrimOfTrimmed(Trim(s));
  }

  /** The trimmed string is empty exactly when the input is all whitespace. */
  lemma {:induction false} TrimEmptyIffBlank(s: string)
    ensures Trim(s) == "" <==> AllWhitespace(s)
  {
    var r := Trim(s);
    TrimIsSlice(s);
    var i, j :| 0 <= i <= j <= |s| && r == s[i..j]
      && AllWhitespace(s[..i]) && AllWhitespace(s[j..]);
    if r == "" {
      assert i == j;
      forall k | 0 <= k < |s| ensures IsWhitespace(s[k]) {
        if k < i { assert s[k] == s[..i][k]; } else { assert s[k] == s[j..][k - j]; }
      }
    }
  }

  /**
   `s.split(sep)` for a one-character separator: the pieces between
   separators, left to right; an empty input gives one empty piece.
   */
  function Split(s: string, sep: char): (pieces: seq<string>)
    ensures |pieces| >= 1
    ensures forall k :: 0 <= k < |pieces| ==> sep !in pieces[k]
  {
    if |s| == 0 then [""]
    else
      var rest := Split(s[1..], sep);
      if s[0] == sep then [""] + rest
      else [[s[0]] + rest[0]] + rest[1..]
  }

  /** `pieces.join(sep)`: the inverse direction of `Split`. */
  function Join(pieces: seq<string>, sep: char): string
    requires |pieces| >= 1
  {
    if |pieces| == 1 then pieces[0] else pieces[0] + [sep] + Join(pieces[1..], sep)
  }

  /** Splitting loses nothing: joining the pieces back gives the input. */
  lemma {:induction false} JoinSplit(s: string, sep: char)
    ensures Join(Split(s, sep), sep) == s
  {
    if |s| > 0 {
      var rest := Split(s[1..], sep);
      JoinSplit(s[1..], sep);
      if s[0] == sep {
        assert Split(s, sep)[1..] == rest;
      } else {
        var p := Split(s, sep);
        if |rest| == 1 {
          assert p == [[s[0]] + rest[0]];
        } else {
          assert p[1..] == rest[1..];
          assert Join(rest, sep) == rest[0] + [sep] + Join(rest[1..], sep);
        }
        assert s == [s[0]] + s[1..];
      }
    }
  }

  /**
   Splitting distributes over a separator: the pieces of `a + sep + b` are the
   pieces of `a` followed by the pieces of `b`.
   */
  lemma {:induction false} SplitAround(a: string, sep: char, b: string)
    ensures Split(a + [sep] + b, sep) == Split(a, sep) + Split(b, sep)
  {
    var s := a + [sep] + b;
    if |a| == 0 {
      assert s[1..] == b;
    } else {
      assert s[1..] == a[1..] + [sep] + b;
      SplitAround(a[1..], sep, b);
    }
  }

  /** The decimal digits of a natural number, most significant first. */
  function NatToString(n: nat): (r: string)
    ensures |r| >= 1
    ensures forall k :: 0 <= k < |r| ==> '0' <= r[k] <= '9'
  {
    var d := ['0' + (n % 10) as char];
    if n < 10 then d else NatToString(n / 10) + d
  }

  /** An integer as a template literal renders it. */
  function IntToString(n: int): (r: string)
    ensures |r| >= 1
    ensures n >= 0 ==> r == NatToString(n)
    ensures n < 0 ==> r == "-" + NatToString(-n)
  {
    if n >= 0 then NatToString(n) else "-" + NatToString(-n)
  }

  /** The value of a string of decimal digits. */
  function DigitsValue(s: string): nat
    requires forall k :: 0 <= k < |s| ==> '0' <= s[k] <= '9'
  {
    if |s| == 0 then 0 else 10 * DigitsValue(s[..|s| - 1]) + (s[|s| - 1] - '0') as nat
  }

  /** Rendering is faithful: reading the digits back gives the number. */
  lemma {:induction false} NatToStringValue(n: nat)
    ensures DigitsValue(NatToString(n)) == n
  {
    var r := NatToString(n);
    if n >= 10 {
      NatToStringValue(n / 10);
      assert r[..|r| - 1] == NatToString(n / 10);
    }
  }

  /** Distinct numbers render differently. */
  lemma NatToStringInjective(m: nat, n: nat)
    requires NatToString(m) == NatToString(n)
    ensures m == n
  {
    NatToStringValue(m);
    NatToStringValue(n);
  }

  predicate IsRadixDigit(c: char, hex: bool) {
    ('0' <= c <= '9') || (hex && (('a' <= c <= 'f') || ('A' <= c <= 'F')))
  }

  function RadixDigitValue(c: char, hex: bool): nat
    requires IsRadixDigit(c, hex)
  {
    if '0' <= c <= '9' then (c - '0') as nat
    else if 'a' <= c <= 'f' then (c - 'a') as nat + 10
    else (c - 'A') as nat + 10
  }

  /** The value of a run of digits in base 10 or 16. */
  function RadixValue(s: string, hex: bool): nat
    requires forall k :: 0 <= k < |s| ==> IsRadixDigit(s[k], hex)
  {
    if |s| == 0 then 0
    else (if hex then 16 else 10) * RadixValue(s[..|s| - 1], hex) + RadixDigitValue(s[|s| - 1], hex)
  }

  /** The longest prefix of `s` made of digits of the radix. */
  function DigitRun(s: string, hex: bool): (r: string)
    ensures |r| <= |s| && r == s[..|r|]
    ensures forall k :: 0 <= k < |r| ==> IsRadixDigit(r[k], hex)
    ensures |r| < |s| ==> !IsRadixDigit(s[|r|], hex)
  {
    if |s| > 0 && IsRadixDigit(s[0], hex) then [s[0]] + DigitRun(s[1..], hex) else []
  }

  /**
   `parseInt(s)` without a radix: leading whitespace is skipped, one sign is
   read, a `0x`/`0X` prefix switches to base 16, and the longest run of
   digits that follows is the value; no digit at all gives `NaN` (here
   `None`).
   */
  function ParseInt(s: string): (r: Option<int>)
    ensures r.None? <==> |ParseIntDigits(s)| == 0
  {
    var t := TrimStart(s);
    var u := Unsigned(t);
    var hex := HasHexPrefix(u);
    var run := DigitRun(if hex then u[2..] else u, hex);
    if |run| == 0 then None else Some(SignOf(t) * RadixValue(run, hex))
  }

  /** -1 after a minus sign, 1 otherwise. */
  function SignOf(t: string): int {
    if |t| > 0 && t[0] == '-' then -1 else 1
  }

  /** `s` after its sign, if any. */
  function Unsigned(t: string): string {
    if |t| > 0 && (t[0] == '-' || t[0] == '+') then t[1..] else t
  }

  predicate HasHexPrefix(u: string) {
    |u| >= 2 && u[0] == '0' && (u[1] == 'x' || u[1] == 'X')
  }

  /** The digits `parseInt` reads. */
  function ParseIntDigits(s: string): string
  {
    var u := Unsigned(TrimStart(s));
    var hex := HasHexPrefix(u);
    DigitRun(if hex then u[2..] else u, hex)
  }

  lemma {:induction false} DigitRunOfDigits(s: string)
    requires forall k :: 0 <= k < |s| ==> '0' <= s[k] <= '9'
    ensures DigitRun(s, false) == s
  {
    if |s| > 0 {
      DigitRunOfDigits(s[1..]);
      assert s == [s[0]] + s[1..];
    }
  }

  lemma {:induction false} RadixValueDecimal(s: string)
    requires forall k :: 0 <= k < |s| ==> '0' <= s[k] <= '9'
    ensures RadixValue(s, false) == DigitsValue(s)
  {
    if |s| > 0 {
      RadixValueDecimal(s[..|s| - 1]);
    }
  }

  lemma DigitsUntrimmed(d: string)
    requires |d| >= 1 && forall k :: 0 <= k < |d| ==> '0' <= d[k] <= '9'
    ensures TrimStart(d) == d
  {
    assert !IsWhitespace(d[0]);
  }

  lemma DigitsUnsigned(d: string)
    requires |d| >= 1 && forall k :: 0 <= k < |d| ==> '0' <= d[k] <= '9'
    ensures Unsigned(d) == d && !HasHexPrefix(d)
  {
    assert d[0] != '-' && d[0] != '+';
  }

  lemma ParseNatDigits(d: string)
    requires |d| >= 1 && forall k :: 0 <= k < |d| ==> '0' <= d[k] <= '9'
    ensures TrimStart(d) == d && Unsigned(d) == d && !HasHexPrefix(d)
    ensures DigitRun(d, false) == d && RadixValue(d, false) == DigitsValue(d)
  {
    DigitsUntrimmed(d);
    DigitsUnsigned(d);
    DigitRunOfDigits(d);
    RadixValueDecimal(d);
  }

  lemma ParseFromParts(s: string, d: string)
    requires TrimStart(s) == s && Unsigned(s) == d && !HasHexPrefix(d)
    requires |d| >= 1 && DigitRun(d, false) == d
    ensures ParseInt(s) == Some(SignOf(s) * RadixValue(d, false))
  {
  }

  lemma MinusDigits(d: string)
    requires |d| >= 1 && forall k :: 0 <= k < |d| ==> '0' <= d[k] <= '9'
    ensures TrimStart("-" + d) == "-" + d && Unsigned("-" + d) == d && SignOf("-" + d) == -1
  {
    var s := "-" + d;
    assert s[0] == '-' && s[1..] == d;
    assert !IsWhitespace(s[0]);
  }

  /** `parseInt` reads back what a template literal writes for an integer. */
  lemma ParseIntOfIntToString(n: int)
    ensures ParseInt(IntToString(n)) == Some(n)
  {
    if n >= 0 {
      var d := NatToString(n);
      ParseNatDigits(d);
      ParseFromParts(d, d);
      NatToStringValue(n);
      assert SignOf(d) == 1;
    } else {
      var d := NatToString(-n);
      ParseNatDigits(d);
      MinusDigits(d);
      ParseFromParts("-" + d, d);
      NatToStringValue(-n);
    }
  }

  /** Distinct integers render differently: parsing the rendering gives the integer back. */
  lemma IntToStringInjective(m: int, n: int)
    requires IntToString(m) == IntToString(n)
    ensures m == n
  {
    ParseIntOfIntToString(m);
    ParseIntOfIntToString(n);
  }
}
