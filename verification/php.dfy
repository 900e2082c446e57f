/**
  The small part of PHP's value semantics that the plugin's decisions depend on:
  scalar values as they sit in a stored option array, PHP truthiness (`if ($v)`,
  `empty($v)`), string conversion, `isset` on an array key, `trim` with its default
  character list, and `strpos` used as a substring test.
 */
module Php {

  /** A query parameter or cookie that the request may not carry. */
  datatype Option<T> = None | Some(value: T)

  /** PHP's `$x ?? $fallback` on a possibly missing request value. */
  function Coalesce(x: Option<string>, fallback: string): string {
    if x.Some? then x.value else fallback
  }

  /** A scalar PHP value as it can be stored inside an option array. */
  datatype Value = Null | Bool(b: bool) | Int(i: int) | Str(s: string)

  /** A PHP associative array with string keys and scalar values. */
  type Record = map<string, Value>

  /** PHP's conversion to boolean; `empty($v)` is its negation. */
  predicate Truthy(v: Value) {
    match v
    case Null => false
    case Bool(b) => b
    case Int(i) => i != 0
    case Str(s) => s != "" && s != "0"
  }

  /** `isset($a[$k])`: the key is present and does not hold null. */
  predicate IsSet(a: Record, k: string) {
    k in a && a[k] != Null
  }

  // ---------------------------------------------------------------------------
  // String conversion

  predicate IsDigit(c: char) {
    '0' <= c <= '9'
  }

  predicate AllDigits(s: string) {
    forall i :: 0 <= i < |s| ==> IsDigit(s[i])
  }

  function DigitChar(d: nat): (c: char)
    requires d < 10
    ensures IsDigit(c) && c as int - '0' as int == d
  {
    (d + '0' as int) as char
  }

  /** Decimal notation of a natural number, without leading zeros. */
  function NatToDecimal(n: nat): (r: string)
    ensures |r| > 0 && AllDigits(r)
    ensures r[0] == '0' <==> n == 0
    ensures n == 0 ==> r == "0"
    decreases n
  {
    if n < 10 then [DigitChar(n)] else NatToDecimal(n / 10) + [DigitChar(n % 10)]
  }

  /** The number a string of decimal digits denotes. */
  function DecimalValue(s: string): nat
    requires AllDigits(s)
  {
    if |s| == 0 then 0
    else DecimalValue(s[..|s| - 1]) * 10 + (s[|s| - 1] as int - '0' as int)
  }

  /** Reading back the decimal notation of `n` gives `n`. */
  lemma {:induction false} DecimalRoundTrip(n: nat)
    ensures DecimalValue(NatToDecimal(n)) == n
    decreases n
  {
    if n >= 10 {
      var r := NatToDecimal(n);
      DecimalRoundTrip(n / 10);
      assert r[..|r| - 1] == NatToDecimal(n / 10);
    }
  }

  /**
    PHP's string form of an integer: an optional minus sign, then decimal digits with
    no leading zero, so exactly one string denotes each integer.
   */
  function IntToString(i: int): (r: string)
    ensures i >= 0 ==> AllDigits(r) && DecimalValue(r) == i
    ensures i >= 0 ==> |r| > 0 && (r[0] == '0' <==> i == 0)
    ensures i == 0 ==> r == "0"
    ensures i < 0 ==> |r| > 1 && r[0] == '-' && AllDigits(r[1..]) && DecimalValue(r[1..]) == -i
    ensures i < 0 ==> r[1] != '0'
  {
    DecimalRoundTrip(if i < 0 then -i else i);
    if i < 0 then "-" + NatToDecimal(-i) else NatToDecimal(i)
  }

  /** PHP's `(string)` conversion of a scalar value. */
  function ToPhpString(v: Value): string {
    match v
    case Null => ""
    case Bool(b) => if b then "1" else ""
    case Int(i) => IntToString(i)
    case Str(s) => s
  }

  /**
    Converting a value to a string does not change whether it is truthy: a value
    that passes `! empty(...)` has a string form other than "" and "0".
   */
  lemma StringConversionKeepsTruthiness(v: Value)
    ensures Truthy(Str(ToPhpString(v))) == Truthy(v)
  {
    if v.Int? && v.i > 0 {
      assert NatToDecimal(v.i)[0] != '0';
    }
  }

  // ---------------------------------------------------------------------------
  // trim()

  /** The characters PHP's `trim` strips by default: space, tab, LF, CR, NUL and vertical tab. */
  predicate IsTrimmed(c: char) {
    c == ' ' || c == '\t' || c == '\n' || c == '\r' || c == '\0' || c == '\U{0B}'
  }

  predicate AllTrimmed(s: string) {
    forall i :: 0 <= i < |s| ==> IsTrimmed(s[i])
  }

  /** `ltrim`: the longest suffix of `s` that does not start with a stripped character. */
  function TrimLeft(s: string): (r: string)
    ensures |r| <= |s| && r == s[|s| - |r|..]
    ensures AllTrimmed(s[..|s| - |r|])
    ensures |r| > 0 ==> !IsTrimmed(r[0])
  {
    if |s| > 0 && IsTrimmed(s[0]) then TrimLeft(s[1..]) else s
  }

  /** `rtrim`: the longest prefix of `s` that does not end with a stripped character. */
  function TrimRight(s: string): (r: string)
    ensures |r| <= |s| && r == s[..|r|]
    ensures AllTrimmed(s[|r|..])
    ensures |r| > 0 ==> !IsTrimmed(r[|r| - 1])
  {
    if |s| > 0 && IsTrimmed(s[|s| - 1]) then TrimRight(s[..|s| - 1]) else s
  }

  /** PHP's `trim($s)`: a slice of `s` that is what remains after stripping both ends. */
  function Trim(s: string): (r: string)
    ensures exists a, b :: 0 <= a <= b <= |s| && r == s[a..b] && AllTrimmed(s[..a]) && AllTrimmed(s[b..])
    ensures |r| > 0 ==> !IsTrimmed(r[0]) && !IsTrimmed(r[|r| - 1])
  {
    var l := TrimLeft(s);
    var r := TrimRight(l);
    var a := |s| - |l|;
    assert r == s[a..a + |r|];
    assert s[a + |r|..] == l[|r|..];
    r
  }

  /** A string whose ends are not stripped is its own trim. */
  lemma TrimKeepsClean(s: string)
    requires |s| > 0 ==> !IsTrimmed(s[0]) && !IsTrimmed(s[|s| - 1])
    ensures Trim(s) == s
  {
  }

  /** Trimming twice is trimming once. */
  lemma TrimIdempotent(s: string)
    ensures Trim(Trim(s)) == Trim(s)
  {
    TrimKeepsClean(Trim(s));
  }

  /** `trim` yields the empty string exactly when every character would be stripped. */
  lemma {:induction false} TrimEmptyIffBlank(s: string)
    ensures Trim(s) == "" <==> AllTrimmed(s)
  {
    if AllTrimmed(s) {
      BlankTrimLeft(s);
    }
  }

  lemma {:induction false} BlankTrimLeft(s: string)
    requires AllTrimmed(s)
    ensures TrimLeft(s) == ""
    decreases |s|
  {
    if |s| > 0 {
      BlankTrimLeft(s[1..]);
    }
  }

  /** Stripped characters in front of a string do not survive `ltrim`. */
  lemma {:induction false} TrimLeftSkipsPrefix(pad: string, s: string)
    requires AllTrimmed(pad)
    ensures TrimLeft(pad + s) == TrimLeft(s)
    decreases |pad|
  {
    if |pad| > 0 {
      var t := pad + s;
      assert t[0] == pad[0] && IsTrimmed(pad[0]);
      assert t[1..] == pad[1..] + s;
      TrimLeftSkipsPrefix(pad[1..], s);
    } else {
      assert pad + s == s;
    }
  }

  /** Stripped characters after a string do not survive `rtrim`. */
  lemma {:induction false} TrimRightSkipsSuffix(s: string, pad: string)
    requires AllTrimmed(pad)
    ensures TrimRight(s + pad) == TrimRight(s)
    decreases |pad|
  {
    if |pad| > 0 {
      var t := s + pad;
      var shorter := pad[..|pad| - 1];
      assert t[|t| - 1] == pad[|pad| - 1] && IsTrimmed(pad[|pad| - 1]);
      assert t[..|t| - 1] == s + shorter;
      TrimRightSkipsSuffix(s, shorter);
    } else {
      assert s + pad == s;
    }
  }

  // ---------------------------------------------------------------------------
  // strpos() as a substring test

  /** `n` occurs in `h` starting at index `i`. */
  predicate OccursAt(h: string, n: string, i: int) {
    0 <= i && i + |n| <= |h| && h[i..i + |n|] == n
  }

  /** `n` occurs somewhere in `h`. */
  ghost predicate Contains(h: string, n: string) {
    exists i :: OccursAt(h, n, i)
  }

  function StrPosFrom(h: string, n: string, from: nat): (r: Option<nat>)
    ensures r.Some? ==> from <= r.value && OccursAt(h, n, r.value)
    ensures r.Some? ==> forall j :: from <= j < r.value ==> !OccursAt(h, n, j)
    ensures r.None? ==> forall j :: from <= j ==> !OccursAt(h, n, j)
    decreases |h| - from
  {
    if from + |n| > |h| then None
    else if h[from..from + |n|] == n then Some(from)
    else StrPosFrom(h, n, from + 1)
  }

  /** PHP's `strpos($h, $n)`: the first index at which `n` occurs, or none (`false`). */
  function StrPos(h: string, n: string): (r: Option<nat>)
    ensures r.Some? <==> Contains(h, n)
    ensures r.Some? ==> OccursAt(h, n, r.value) && forall j :: 0 <= j < r.value ==> !OccursAt(h, n, j)
  {
    var r := StrPosFrom(h, n, 0);
    if r.Some? then assert OccursAt(h, n, r.value); r else r
  }
}
