/**
 * The JavaScript built-ins that the dashboard's logic leans on, stated over
 * Dafny's unbounded integers and `seq<char>` strings: the `%` operator,
 * number-to-string formatting in template literals, `String.prototype`
 * `toLowerCase` and `includes`, the global `parseInt`, and
 * `Array.prototype.slice`.
 */
module JsBuiltins {

  datatype Option<+T> = None | Some(value: T)

  function Min(a: int, b: int): int { if a <= b then a else b }

  function Max(a: int, b: int): int { if a >= b then a else b }

  /** JavaScript's `%` on integers: the remainder takes the sign of the dividend. */
  function JsRem(a: int, b: int): (r: int)
    requires b > 0
    ensures a >= 0 ==> 0 <= r < b && r == a % b
    ensures a < 0 ==> -b < r <= 0
    ensures (a - r) % b == 0
  {
    if a >= 0 then
      assert a - a % b == (a / b) * b;
      MultipleRem(a / b, b);
      a % b
    else
      var q := (-a) / b;
      assert -a == b * q + (-a) % b;
      assert a - -((-a) % b) == -(b * q);
      assert -(b * q) == (-q) * b;
      MultipleRem(-q, b);
      -((-a) % b)
  }

  /** A multiple of `b` leaves no remainder. */
  lemma MultipleRem(q: int, b: int)
    requires b > 0
    ensures (q * b) % b == 0
  {
    var x := q * b;
    var k := q - x / b;
    assert b * k == x % b;
  }

  // ---------------------------------------------------------------------
  // Decimal digits: `${n}` for a non-negative integer, and reading it back
  // ---------------------------------------------------------------------

  predicate IsDigit(c: char) { '0' <= c <= '9' }

  predicate AllDigits(s: string) { forall i :: 0 <= i < |s| ==> IsDigit(s[i]) }

  function DigitChar(d: int): (c: char)
    requires 0 <= d < 10
    ensures IsDigit(c) && c as int - '0' as int == d
  {
    ('0' as int + d) as char
  }

  /** The decimal text of `n`, as a template literal prints a non-negative integer. */
  function Decimal(n: nat): (s: string)
    ensures |s| >= 1 && AllDigits(s)
    ensures n > 0 ==> s[0] != '0'
    decreases n
  {
    if n < 10 then [DigitChar(n)] else Decimal(n / 10) + [DigitChar(n % 10)]
  }

  /** The value of a string of decimal digits, most significant digit first. */
  function DigitsValue(s: string): nat
    requires AllDigits(s)
  {
    if s == [] then 0 else DigitsValue(s[..|s| - 1]) * 10 + (s[|s| - 1] as int - '0' as int)
  }

  lemma {:induction false} DecimalRoundTrip(n: nat)
    ensures DigitsValue(Decimal(n)) == n
    decreases n
  {
    var s := Decimal(n);
    if n >= 10 {
      assert s[..|s| - 1] == Decimal(n / 10);
      DecimalRoundTrip(n / 10);
    }
  }

  /** Different integers print differently. */
  lemma DecimalInjective(m: nat, n: nat)
    ensures Decimal(m) == Decimal(n) ==> m == n
  {
    DecimalRoundTrip(m);
    DecimalRoundTrip(n);
  }

  // ---------------------------------------------------------------------
  // toLowerCase and includes
  // ---------------------------------------------------------------------

  function LowerChar(c: char): (d: char)
    ensures 'A' <= c <= 'Z' ==> d as int == c as int + 32
    ensures !('A' <= c <= 'Z') ==> d == c
  {
    if 'A' <= c <= 'Z' then (c as int + 32) as char else c
  }

  /** `s.toLowerCase()`, restricted to the ASCII letters. */
  function ToLower(s: string): (r: string)
    ensures |r| == |s|
    ensures forall i :: 0 <= i < |s| ==> r[i] == LowerChar(s[i])
  {
    seq(|s|, i requires 0 <= i < |s| => LowerChar(s[i]))
  }

  lemma ToLowerIdempotent(s: string)
    ensures ToLower(ToLower(s)) == ToLower(s)
  {
  }

  /** `t` occurs in `s` at offset `i`. */
  predicate OccursAt(s: string, t: string, i: int)
  {
    0 <= i && i + |t| <= |s| && s[i..i + |t|] == t
  }

  /** `s.includes(t)`: `t` is a contiguous piece of `s`. */
  function Includes(s: string, t: string): (r: bool)
    ensures r <==> exists i :: OccursAt(s, t, i)
    decreases |s|
  {
    if |t| > |s| then
      assert forall i :: !OccursAt(s, t, i);
      false
    else if s[..|t|] == t then
      assert OccursAt(s, t, 0);
      true
    else
      var rest := Includes(s[1..], t);
      assert forall i :: OccursAt(s, t, i) && i > 0 ==> OccursAt(s[1..], t, i - 1);
      assert forall i :: OccursAt(s[1..], t, i) ==> OccursAt(s, t, i + 1);
      assert !OccursAt(s, t, 0);
      rest
  }

  // ---------------------------------------------------------------------
  // parseInt(text), called without a radix
  // ---------------------------------------------------------------------

  /**
   * The white-space and line-terminator characters `parseInt` skips first:
   * tab, vertical tab, form feed, the byte-order mark, every space separator
   * (U+0020, U+00A0, U+1680, U+2000 to U+200A, U+202F, U+205F, U+3000) and
   * the line terminators LF, CR, U+2028 and U+2029.
   */
  predicate IsSpace(c: char)
  {
    c == ' ' || c == '\t' || c == '\n' || c == '\r' || c == '\U{000B}' || c == '\U{000C}'
    || c == '\U{00A0}' || c == '\U{FEFF}' || c == '\U{2028}' || c == '\U{2029}'
    || c == '\U{1680}' || ('\U{2000}' <= c <= '\U{200A}') || c == '\U{202F}' || c == '\U{205F}'
    || c == '\U{3000}'
  }

  function TrimStart(s: string): (r: string)
    ensures |r| <= |s| && r == s[|s| - |r|..]
    ensures forall i :: 0 <= i < |s| - |r| ==> IsSpace(s[i])
    ensures r == [] || !IsSpace(r[0])
  {
    if s != [] && IsSpace(s[0]) then TrimStart(s[1..]) else s
  }

  /** The value of `c` as a digit in `radix` (10 or 16), if it is one. */
  function DigitIn(c: char, radix: int): (d: Option<nat>)
    ensures d.Some? ==> d.value < radix
    ensures radix == 10 ==> (d.Some? <==> IsDigit(c))
    ensures radix == 10 && IsDigit(c) ==> d == Some(c as int - '0' as int)
  {
    if IsDigit(c) && c as int - '0' as int < radix then Some(c as int - '0' as int)
    else if radix == 16 && 'a' <= c <= 'f' then Some(c as int - 'a' as int + 10)
    else if radix == 16 && 'A' <= c <= 'F' then Some(c as int - 'A' as int + 10)
    else None
  }

  /** The longest prefix of `s` made of digits in `radix`. */
  function LeadingDigits(s: string, radix: int): (r: string)
    ensures |r| <= |s| && r == s[..|r|]
    ensures forall i :: 0 <= i < |r| ==> DigitIn(r[i], radix).Some?
    ensures |r| < |s| ==> DigitIn(s[|r|], radix).None?
  {
    if s != [] && DigitIn(s[0], radix).Some? then [s[0]] + LeadingDigits(s[1..], radix) else []
  }

  /** The value of a string of digits in `radix`, most significant digit first. */
  function RadixValue(ds: string, radix: int): nat
    requires forall i :: 0 <= i < |ds| ==> DigitIn(ds[i], radix).Some?
  {
    if ds == [] then 0
    else RadixValue(ds[..|ds| - 1], radix) * Max(radix, 0) + DigitIn(ds[|ds| - 1], radix).value
  }

  /** The text after an optional leading sign. */
  function AfterSign(t: string): (u: string)
    ensures u == t || (t != [] && u == t[1..] && (t[0] == '-' || t[0] == '+'))
  {
    if t != [] && (t[0] == '-' || t[0] == '+') then t[1..] else t
  }

  /**
   * The unsigned part of `parseInt`: radix 16 after a `0x`/`0X` prefix,
   * otherwise radix 10, then the longest run of digits; `None` if that run is empty.
   */
  function ParseMagnitude(u: string): (r: Option<nat>)
    ensures (u == [] || !IsDigit(u[0])) ==> r.None?
    ensures u != [] && IsDigit(u[0]) && !(|u| >= 2 && u[0] == '0' && (u[1] == 'x' || u[1] == 'X')) ==> r.Some?
  {
    var hex := |u| >= 2 && u[0] == '0' && (u[1] == 'x' || u[1] == 'X');
    var radix := if hex then 16 else 10;
    var ds := LeadingDigits(if hex then u[2..] else u, radix);
    if ds == [] then None else Some(RadixValue(ds, radix))
  }

  /**
   * `parseInt(s)`: skip leading white space, read an optional sign, then the
   * magnitude. `None` stands for NaN: no digit of the radix follows the white
   * space, the sign and any `0x` prefix. Trailing text is ignored.
   */
  function ParseInt(s: string): (r: Option<int>)
    ensures r.None? <==> ParseMagnitude(AfterSign(TrimStart(s))).None?
    ensures r.Some? && r.value < 0 ==> TrimStart(s) != [] && TrimStart(s)[0] == '-'
    ensures r.Some? && TrimStart(s) != [] && TrimStart(s)[0] == '-' ==> r.value <= 0
  {
    var t := TrimStart(s);
    match ParseMagnitude(AfterSign(t))
    case None => None
    case Some(v) =>
      var value: int := if t != [] && t[0] == '-' then -(v as int) else v as int;
      Some(value)
  }

  lemma {:induction false} RadixValueDecimal(ds: string)
    requires AllDigits(ds)
    ensures forall i :: 0 <= i < |ds| ==> DigitIn(ds[i], 10).Some?
    ensures RadixValue(ds, 10) == DigitsValue(ds)
    decreases |ds|
  {
    if ds != [] {
      RadixValueDecimal(ds[..|ds| - 1]);
    }
  }

  lemma {:induction false} LeadingDigitsOfDecimal(ds: string, rest: string)
    requires AllDigits(ds)
    requires rest == [] || !IsDigit(rest[0])
    ensures LeadingDigits(ds + rest, 10) == ds
    decreases |ds|
  {
    if ds != [] {
      assert (ds + rest)[1..] == ds[1..] + rest;
      LeadingDigitsOfDecimal(ds[1..], rest);
    } else {
      assert ds + rest == rest;
    }
  }

  /** `parseInt` on text that starts with a digit and has no hex prefix is its magnitude. */
  lemma ParseIntUnsigned(s: string)
    requires s != [] && IsDigit(s[0])
    ensures ParseMagnitude(s).None? ==> ParseInt(s).None?
    ensures ParseMagnitude(s).Some? ==> ParseInt(s) == Some(ParseMagnitude(s).value as int)
  {
    assert !IsSpace(s[0]);
    assert TrimStart(s) == s;
    assert AfterSign(s) == s;
    assert !(s[0] == '-');
  }

  /** A `0x` prefix with no hex digit after it is NaN, although a digit `0` starts the text. */
  lemma ParseIntBarePrefix(rest: string)
    requires rest == [] || DigitIn(rest[0], 16).None?
    ensures ParseInt("0x" + rest).None?
  {
    var s := "0x" + rest;
    assert s[0] == '0' && s[1] == 'x' && s[2..] == rest;
    ParseIntUnsigned(s);
    assert LeadingDigits(rest, 16) == [];
  }

  /** `parseInt` on a run of decimal digits followed by text that does not continue it. */
  lemma ParseIntDigits(ds: string, rest: string)
    requires |ds| >= 1 && AllDigits(ds)
    requires ds[0] == '0' ==> |ds| == 1
    requires rest == [] || (!IsDigit(rest[0]) && rest[0] != 'x' && rest[0] != 'X')
    ensures ParseInt(ds + rest) == Some(DigitsValue(ds))
  {
    var s := ds + rest;
    assert s[0] == ds[0];
    ParseIntUnsigned(s);
    assert !(|s| >= 2 && s[0] == '0' && (s[1] == 'x' || s[1] == 'X')) by {
      if |s| >= 2 && s[0] == '0' {
        assert s[1] == rest[0];
      }
    }
    assert LeadingDigits(s, 10) == ds by {
      LeadingDigitsOfDecimal(ds, rest);
    }
    assert RadixValue(ds, 10) == DigitsValue(ds) by {
      RadixValueDecimal(ds);
    }
  }

  /**
   * `parseInt` reads back the decimal text of a non-negative integer, also
   * when text follows that starts with neither a digit nor an `x` (so "2.5"
   * reads as 2; "0x5" would switch to radix 16).
   */
  lemma ParseIntDecimal(n: nat, rest: string)
    requires rest == [] || (!IsDigit(rest[0]) && rest[0] != 'x' && rest[0] != 'X')
    ensures ParseInt(Decimal(n) + rest) == Some(n)
  {
    if n == 0 {
      assert |Decimal(0)| == 1;
    }
    ParseIntDigits(Decimal(n), rest);
    DecimalRoundTrip(n);
  }

  /** Text without any decimal digit (and without a hex prefix) is NaN. */
  lemma ParseIntNoDigits(s: string)
    ensures (forall i :: 0 <= i < |s| ==> !IsDigit(s[i])) ==> ParseInt(s) == None
  {
    if forall i :: 0 <= i < |s| ==> !IsDigit(s[i]) {
      var t := TrimStart(s);
      var u := AfterSign(t);
      if u != [] {
        assert u[0] == s[|s| - |u|];
        assert !IsDigit(u[0]);
      }
      assert LeadingDigits(u, 10) == [];
      assert ParseMagnitude(u) == None;
    }
  }

  // ---------------------------------------------------------------------
  // Array.prototype.slice(start, end)
  // ---------------------------------------------------------------------

  /** A relative index of `slice`: negative counts from the end, then clamp to [0, len]. */
  function RelativeIndex(k: int, len: nat): (r: nat)
    ensures r <= len
    ensures 0 <= k ==> r == Min(k, len)
  {
    if k < 0 then Max(len + k, 0) else Min(k, len)
  }

  function Slice<T>(s: seq<T>, start: int, end: int): (r: seq<T>)
    ensures 0 <= start && 0 <= end ==> |r| <= Max(end - start, 0)
    ensures 0 <= start && 0 <= end ==> r == (if Min(start, |s|) <= Min(end, |s|) then s[Min(start, |s|)..Min(end, |s|)] else [])
    ensures end == 0 ==> r == []
  {
    var from, to := RelativeIndex(start, |s|), RelativeIndex(end, |s|);
    if from < to then s[from..to] else []
  }
}
