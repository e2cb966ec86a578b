/**
 * The two conversions between JavaScript numbers and decimal text that the
 * application relies on whenever it persists a counter in local storage:
 * `Number.prototype.toString()` (radix 10) and the global `parseInt(text)`
 * without a radix argument.  Only integral values are modelled; a value that
 * is not a number at all is `NaN`.
 */
module JsNumber {

  import opened Wrappers

  /** An integral JavaScript number, or NaN. */
  datatype Num = Int(value: int) | NaN

  /** `a + p` on JavaScript numbers: NaN absorbs every addend. */
  function Plus(a: Num, p: int): Num
  {
    match a
    case Int(v) => Int(v + p)
    case NaN => NaN
  }

  /** `score > high` on JavaScript numbers: every comparison with NaN is false. */
  predicate Greater(s: int, high: Num)
  {
    high.Int? && s > high.value
  }

  // ---------------------------------------------------------------------
  // toString

  function DigitChar(d: nat): (c: char)
    requires d < 10
    ensures '0' <= c <= '9' && c as int - '0' as int == d
  {
    ('0' as int + d) as char
  }

  /** The decimal digits of `n`, most significant first, without leading zeros. */
  function NatToText(n: nat): (s: string)
    decreases n
  {
    if n < 10 then [DigitChar(n)] else NatToText(n / 10) + [DigitChar(n % 10)]
  }

  /** `x.toString()` for an integral number or NaN. */
  function ToText(x: Num): string
  {
    match x
    case NaN => "NaN"
    case Int(v) => if v < 0 then "-" + NatToText(-v) else NatToText(v)
  }

  // ---------------------------------------------------------------------
  // parseInt

  /**
   * The characters `parseInt` skips before the number: the ECMAScript
   * WhiteSpace and LineTerminator code points (TAB, VT, FF, SP, NBSP, ZWNBSP,
   * every space separator of category Zs, LF, CR, LS and PS).
   */
  predicate IsJsWhitespace(c: char)
  {
    c == '\t' || c == '\U{B}' || c == '\U{C}' || c == ' ' || c == '\U{A0}' || c == '\U{FEFF}'
    || c == '\U{1680}' || ('\U{2000}' <= c <= '\U{200A}') || c == '\U{202F}' || c == '\U{205F}'
    || c == '\U{3000}' || c == '\n' || c == '\r' || c == '\U{2028}' || c == '\U{2029}'
  }

  predicate AllWhitespace(w: string)
  {
    forall i :: 0 <= i < |w| ==> IsJsWhitespace(w[i])
  }

  /** `t` is what remains of `s` after a run of leading whitespace. */
  predicate StripsLeadingWhitespace(s: string, t: string)
  {
    |t| <= |s| && t == s[|s| - |t|..] && AllWhitespace(s[..|s| - |t|])
  }

  /** `s` with its leading whitespace removed. */
  function TrimStart(s: string): (t: string)
    ensures t != [] ==> !IsJsWhitespace(t[0])
    ensures StripsLeadingWhitespace(s, t)
  {
    if s != [] && IsJsWhitespace(s[0]) then
      var t := TrimStart(s[1..]);
      assert StripsLeadingWhitespace(s, t) by {
        var w := s[1..][..|s| - 1 - |t|];
        assert AllWhitespace(w);
        assert s[..|s| - |t|] == [s[0]] + w;
        assert s[1..][|s| - 1 - |t|..] == s[|s| - |t|..];
      }
      t
    else
      assert s[..0] == [];
      s
  }

  /** The value of `c` as a digit of `radix` (10 or 16), or -1 if it is none. */
  function DigitValue(c: char, radix: nat): (d: int)
    requires radix == 10 || radix == 16
    ensures -1 <= d < radix as int
  {
    if '0' <= c <= '9' then c as int - '0' as int
    else if radix == 16 && 'a' <= c <= 'f' then c as int - 'a' as int + 10
    else if radix == 16 && 'A' <= c <= 'F' then c as int - 'A' as int + 10
    else -1
  }

  predicate IsDigit(c: char, radix: nat)
    requires radix == 10 || radix == 16
  {
    DigitValue(c, radix) >= 0
  }

  /** The longest prefix of `s` that consists of digits of `radix`. */
  function DigitPrefix(s: string, radix: nat): (p: string)
    requires radix == 10 || radix == 16
    ensures forall i :: 0 <= i < |p| ==> IsDigit(p[i], radix)
    ensures |p| <= |s| && p == s[..|p|]
    ensures |p| < |s| ==> !IsDigit(s[|p|], radix)
  {
    if s != [] && IsDigit(s[0], radix) then [s[0]] + DigitPrefix(s[1..], radix) else []
  }

  /** The value of a string of digits of `radix`, most significant first. */
  function DigitsValue(s: string, radix: nat): (v: nat)
    requires radix == 10 || radix == 16
    requires forall i :: 0 <= i < |s| ==> IsDigit(s[i], radix)
  {
    if s == [] then 0
    else
      assert IsDigit(s[|s| - 1], radix);
      DigitsValue(s[..|s| - 1], radix) * radix + DigitValue(s[|s| - 1], radix)
  }

  /** Whether `u` starts with the hexadecimal prefix `0x` or `0X`. */
  predicate HasHexPrefix(u: string)
  {
    |u| >= 2 && u[0] == '0' && (u[1] == 'x' || u[1] == 'X')
  }

  /** The sign `parseInt` reads after the whitespace, and the text after it. */
  function SplitSign(t: string): (int, string)
  {
    if t != [] && t[0] == '-' then (-1, t[1..])
    else if t != [] && t[0] == '+' then (1, t[1..])
    else (1, t)
  }

  /** The magnitude `parseInt` reads from the unsigned text `u`, if any digit follows. */
  function ParseMagnitude(u: string): Option<nat>
  {
    var radix := if HasHexPrefix(u) then 16 else 10;
    var digits := DigitPrefix(if HasHexPrefix(u) then u[2..] else u, radix);
    if digits == [] then None else Some(DigitsValue(digits, radix))
  }

  /**
   * `parseInt(s)`: skip whitespace, read an optional sign, switch to radix 16
   * after a `0x`/`0X` prefix, then take the longest run of digits; NaN when
   * that run is empty.
   */
  function ParseInt(s: string): Num
  {
    var (sign, u) := SplitSign(TrimStart(s));
    match ParseMagnitude(u)
    case None => NaN
    case Some(m) => Int(sign * m)
  }

  // ---------------------------------------------------------------------
  // Round trip

  lemma {:induction false} NatToTextDigits(n: nat)
    ensures NatToText(n) != []
    ensures forall i :: 0 <= i < |NatToText(n)| ==> '0' <= NatToText(n)[i] <= '9'
    ensures DigitsValue(NatToText(n), 10) == n
    decreases n
  {
    if n >= 10 {
      NatToTextDigits(n / 10);
      var s := NatToText(n);
      assert s[..|s| - 1] == NatToText(n / 10);
    }
  }

  lemma {:induction false} DigitPrefixOfDigits(s: string)
    requires forall i :: 0 <= i < |s| ==> '0' <= s[i] <= '9'
    ensures DigitPrefix(s, 10) == s
    decreases |s|
  {
    if s != [] {
      DigitPrefixOfDigits(s[1..]);
    }
  }

  lemma ParseMagnitudeOfDigits(t: string)
    requires t != [] && forall i :: 0 <= i < |t| ==> '0' <= t[i] <= '9'
    ensures ParseMagnitude(t) == Some(DigitsValue(t, 10))
  {
    assert !HasHexPrefix(t) by {
      if |t| >= 2 { assert '0' <= t[1] <= '9'; }
    }
    DigitPrefixOfDigits(t);
  }

  /** Text made of decimal digits, with or without a minus sign, parses as its own value. */
  lemma ParseIntOfDigits(t: string, sign: int)
    requires sign == 1 || sign == -1
    requires t != [] && forall i :: 0 <= i < |t| ==> '0' <= t[i] <= '9'
    ensures ParseInt(if sign < 0 then "-" + t else t) == Int(sign * DigitsValue(t, 10))
  {
    var s := if sign < 0 then "-" + t else t;
    assert !IsJsWhitespace(s[0]) by { assert s[0] == '-' || '0' <= s[0] <= '9'; }
    assert TrimStart(s) == s;
    assert SplitSign(s) == (sign, t);
    ParseMagnitudeOfDigits(t);
  }

  /** The text `NaN` has no digits, so `parseInt` reads it as NaN. */
  lemma ParseIntNaN()
    ensures ParseInt("NaN") == NaN
  {
    assert !IsJsWhitespace('N');
    assert TrimStart("NaN") == "NaN";
    assert SplitSign("NaN") == (1, "NaN");
    assert !HasHexPrefix("NaN");
    assert !IsDigit('N', 10);
    assert DigitPrefix("NaN", 10) == [];
  }

  /** Reading back the decimal text of a number with `parseInt` gives the number again. */
  lemma ParseIntToText(x: Num)
    ensures ParseInt(ToText(x)) == x
  {
    match x
    case NaN =>
      ParseIntNaN();
    case Int(v) =>
      var m: nat := if v < 0 then -v else v;
      var sign := if v < 0 then -1 else 1;
      var t := NatToText(m);
      NatToTextDigits(m);
      assert ToText(x) == if sign < 0 then "-" + t else t;
      ParseIntOfDigits(t, sign);
      assert sign * DigitsValue(t, 10) == v;
  }
}
