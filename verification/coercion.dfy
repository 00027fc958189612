/** How JavaScript evaluates `x.length > 0` when `x` is a loaded mapping
    and `x.length` is whatever the document put under "length".  The
    relational comparison turns both sides into numbers (ToNumber, section
    7.1.4 of ECMA-262); an array reaches ToNumber as the string
    `Array.prototype.join` makes of it, a plain mapping as
    "[object Object]".  Numbers of the tree are integers, so only strings
    need the full numeric-literal grammar (section 7.1.4.1.1,
    StringToNumber). */
module Coercion {
  import opened Values
  import opened Errors
  import opened Identifiers

  /** `v.length > 0` for a value that is present: an array or a string
      by its own length, a mapping by what it stores under "length". */
  predicate HasPositiveLength(v: Value)
  {
    match v
    case Arr(items) => |items| > 0
    case Str(s) => |s| > 0
    case Obj(fs) => (
        match Get(fs, "length")
        case Some(l) => Positive(l)
        case None => false)
    case _ => false
  }

  /** `x > 0` for a loaded value: `null` is 0, a boolean 0 or 1, and
      anything else is compared as the text `${x}` renders. */
  predicate Positive(x: Value)
  {
    match x
    case Null => false
    case Bool(b) => b
    case Num(n) => n > 0
    case _ => StringPositive(RenderValue(x))
  }

  /** `Number(s) > 0`: the literal left after trimming white space. */
  predicate StringPositive(s: string)
  {
    LiteralPositive(Trim(s))
  }

  /** A trimmed string read as a number is above 0.  A `0x`, `0o` or `0b`
      literal takes no sign; a leading minus makes any literal negative,
      -0 or NaN; otherwise the literal is `Infinity` or a decimal whose
      digits before the exponent are not all zero. */
  predicate LiteralPositive(t: string)
  {
    if IsNonDecimal(t) then
      |t| > 2 && AllIn(t[2..], Radix(t[1])) && HasNonzeroDigit(t[2..])
    else if |t| > 0 && t[0] == '-' then false
    else
      var body := if |t| > 0 && t[0] == '+' then t[1..] else t;
      body == "Infinity" || (IsUnsignedDecimal(body) && HasNonzeroDigit(body[..ExponentAt(body)]))
  }

  predicate IsNonDecimal(t: string)
  {
    |t| >= 2 && t[0] == '0' && Radix(t[1]) != 0
  }

  /** The base a `0x`, `0o` or `0b` prefix announces, 0 for any other
      letter. */
  function Radix(c: char): nat
  {
    if c == 'x' || c == 'X' then 16
    else if c == 'o' || c == 'O' then 8
    else if c == 'b' || c == 'B' then 2
    else 0
  }

  predicate IsDecimalDigit(c: char)
  {
    '0' <= c <= '9'
  }

  predicate IsHexDigit(c: char)
  {
    IsDecimalDigit(c) || 'a' <= c <= 'f' || 'A' <= c <= 'F'
  }

  /** `c` is a digit of base 16, 8 or 2. */
  predicate InBase(c: char, base: nat)
  {
    if base == 16 then IsHexDigit(c) else '0' <= c && (c as int) < '0' as int + base
  }

  predicate AllIn(ds: string, base: nat)
  {
    forall i | 0 <= i < |ds| :: InBase(ds[i], base)
  }

  /** Some digit is not a zero (a decimal point is no digit). */
  predicate HasNonzeroDigit(ds: string)
  {
    exists i | 0 <= i < |ds| :: ds[i] != '0' && ds[i] != '.'
  }

  /** Where the exponent starts: the first `e` or `E`, or the end. */
  function ExponentAt(s: string): (e: nat)
    ensures e <= |s|
    ensures e < |s| ==> s[e] == 'e' || s[e] == 'E'
    ensures forall j | 0 <= j < e :: s[j] != 'e' && s[j] != 'E'
  {
    if |s| == 0 || s[0] == 'e' || s[0] == 'E' then 0 else 1 + ExponentAt(s[1..])
  }

  /** An unsigned decimal literal other than `Infinity`: digits with at
      most one point and at least one digit, then optionally an exponent. */
  predicate IsUnsignedDecimal(s: string)
  {
    var e := ExponentAt(s);
    IsMantissa(s[..e]) && (e == |s| || IsExponent(s[e + 1..]))
  }

  predicate IsMantissa(m: string)
  {
    && (forall i | 0 <= i < |m| :: IsDecimalDigit(m[i]) || m[i] == '.')
    && multiset(m)['.'] <= 1
    && (exists i | 0 <= i < |m| :: IsDecimalDigit(m[i]))
  }

  /** What follows the `e`: an optional sign and at least one digit. */
  predicate IsExponent(x: string)
  {
    if |x| > 0 && (x[0] == '+' || x[0] == '-') then AllDigits(x[1..]) else AllDigits(x)
  }

  /** One decimal digit or more. */
  predicate AllDigits(ds: string)
  {
    |ds| > 0 && forall i | 0 <= i < |ds| :: IsDecimalDigit(ds[i])
  }

  /** A character no numeric literal contains, once trimmed. */
  predicate Foreign(c: char)
  {
    !IsWhitespace(c) && !IsHexDigit(c) && c !in "+-.xXoOInity"
  }

  /** A string holding such a character is NaN, not above 0. */
  lemma {:induction false} ForeignNotPositive(s: string, k: int)
    requires 0 <= k < |s| && Foreign(s[k])
    ensures !StringPositive(s)
  {
    var t := Trim(s);
    var i :| Strips(s, i, t);
    assert !IsWhitespace(s[k]);
    assert i <= k < i + |t|;
    assert t[k - i] == s[k];
    LiteralForeign(t, k - i);
  }

  lemma LiteralForeign(t: string, j: int)
    requires 0 <= j < |t| && Foreign(t[j])
    ensures !LiteralPositive(t)
  {
    if IsNonDecimal(t) {
      assert t[2..][j - 2] == t[j];
    } else if !(t[0] == '-') {
      var body := if t[0] == '+' then t[1..] else t;
      var jb := if t[0] == '+' then j - 1 else j;
      assert body[jb] == t[j];
      assert body[jb] !in "Infinity";
      assert body != "Infinity";
      BodyForeign(body, jb);
    }
  }

  lemma BodyForeign(body: string, jb: int)
    requires 0 <= jb < |body| && Foreign(body[jb])
    ensures !IsUnsignedDecimal(body)
  {
    var e := ExponentAt(body);
    if jb < e {
      MantissaForeign(body[..e], jb);
    } else if jb > e {
      ExponentForeign(body[e + 1..], jb - e - 1);
    }
  }

  lemma MantissaForeign(m: string, j: int)
    requires 0 <= j < |m| && Foreign(m[j])
    ensures !IsMantissa(m)
  {
    assert !IsDecimalDigit(m[j]) && m[j] != '.';
  }

  lemma ExponentForeign(x: string, j: int)
    requires 0 <= j < |x| && Foreign(x[j])
    ensures !IsExponent(x)
  {
    assert !IsDecimalDigit(x[j]) && x[j] != '+' && x[j] != '-';
    var signed := x[0] == '+' || x[0] == '-';
    var ds := if signed then x[1..] else x;
    var i := if signed then j - 1 else j;
    assert 0 <= i < |ds| && ds[i] == x[j];
  }

  /** A joined list of two or more elements holds a comma and is NaN. */
  lemma JoinedNotPositive(items: seq<Value>)
    requires |items| >= 2
    ensures !Positive(Arr(items))
  {
    var parts := seq(|items|, i requires 0 <= i < |items| =>
      if items[i].Null? then "" else RenderValue(items[i]));
    var s := RenderValue(Arr(items));
    assert s == parts[0] + "," + Join(parts[1..]);
    assert s[|parts[0]|] == ',';
    ForeignNotPositive(s, |parts[0]|);
  }

  /** A mapping written out is "[object Object]", which is NaN. */
  lemma ObjectNotPositive(fs: seq<Entry>)
    ensures !Positive(Obj(fs))
  {
    var s := RenderValue(Obj(fs));
    assert s[0] == '[';
    ForeignNotPositive(s, 0);
  }

  /** The digits of a positive number are not all zeros. */
  lemma {:induction false} DecimalNonzero(n: nat)
    requires n > 0
    ensures HasNonzeroDigit(Decimal(n))
  {
    var d := ['0' + (n % 10) as char];
    if n < 10 {
      assert Decimal(n)[0] == d[0];
    } else if n % 10 != 0 {
      assert Decimal(n)[|Decimal(n)| - 1] == d[0];
    } else {
      DecimalNonzero(n / 10);
      var i :| 0 <= i < |Decimal(n / 10)| && Decimal(n / 10)[i] != '0' && Decimal(n / 10)[i] != '.';
      assert Decimal(n)[i] == Decimal(n / 10)[i];
    }
  }

  /** Reading back what `String(n)` writes: the text is positive exactly
      when the number is. */
  lemma NumberTextPositive(n: int)
    ensures StringPositive(RenderValue(Num(n))) <==> n > 0
  {
    if n > 0 {
      DecimalPositive(n);
    } else if n == 0 {
      ZeroNotPositive();
    } else {
      NegativeNotPositive(n);
    }
  }

  lemma DecimalPositive(n: nat)
    requires n > 0
    ensures StringPositive(Decimal(n))
  {
    var t := Decimal(n);
    DigitNotWhitespace(t[0]);
    DigitNotWhitespace(t[|t| - 1]);
    assert Trim(t) == t;
    DecimalNonzero(n);
    AllDigitsPositive(t);
  }

  /** A run of decimal digits, not all zero, is a positive literal. */
  lemma AllDigitsPositive(t: string)
    requires |t| > 0 && forall i | 0 <= i < |t| :: IsDecimalDigit(t[i])
    requires HasNonzeroDigit(t)
    ensures LiteralPositive(t)
  {
    assert !IsNonDecimal(t) by {
      if |t| >= 2 {
        assert IsDecimalDigit(t[1]);
      }
    }
    var e := ExponentAt(t);
    assert e == |t|;
    assert t[..e] == t;
    assert '.' !in t;
    assert multiset(t)['.'] == 0;
    assert IsDecimalDigit(t[0]);
  }

  lemma DigitNotWhitespace(c: char)
    requires IsDecimalDigit(c)
    ensures !IsWhitespace(c)
  {
  }

  lemma ZeroNotPositive()
    ensures !StringPositive(RenderValue(Num(0)))
  {
    assert RenderValue(Num(0)) == Decimal(0) == "0";
    ZeroTextNotPositive("0");
  }

  lemma ZeroTextNotPositive(t: string)
    requires t == "0"
    ensures !StringPositive(t)
  {
    DigitNotWhitespace(t[0]);
    assert Trim(t) == t;
    assert ExponentAt(t) == 1;
    assert !HasNonzeroDigit(t[..1]);
  }

  lemma NegativeNotPositive(n: int)
    requires n < 0
    ensures !StringPositive(RenderValue(Num(n)))
  {
    var ds := Decimal(-n);
    var t := "-" + ds;
    assert RenderValue(Num(n)) == t;
    assert t[|t| - 1] == ds[|ds| - 1];
    DigitNotWhitespace(t[|t| - 1]);
    MinusNotPositive(t);
  }

  /** A literal with a leading minus is not above 0. */
  lemma MinusNotPositive(t: string)
    requires |t| > 0 && t[0] == '-' && !IsWhitespace(t[|t| - 1])
    ensures !StringPositive(t)
  {
    assert Trim(t) == t;
  }

  /** An array of one number, string or array reads as that element. */
  lemma SingletonPositive(x: Value)
    requires x.Num? || x.Str? || x.Arr?
    ensures Positive(Arr([x])) <==> Positive(x)
  {
    assert RenderValue(Arr([x])) == Join([RenderValue(x)]) == RenderValue(x);
    if x.Num? {
      NumberTextPositive(x.n);
    }
  }
}
