/**
 * The integer semantics of the debugger command language
 * (src/debugger/dbglanguage.rs, semantic actions __action6, __action7..10
 * and __action14..__action26): i32 literals read with from_str and
 * from_str_radix, the five i32 operators, the decimal rendering that Echo
 * carries, and the `as u16` truncation of addresses.
 */
module DbgNumbers {
  import opened DbgLexer
  import opened DbgLanguage

  const I32Min: int := -0x8000_0000
  const I32Max: int := 0x7FFF_FFFF

  predicate InI32(v: int) { I32Min <= v <= I32Max }

  /**
   * What running the parser on an input comes to: a value; Rejected, the
   * ParseError returned for an input the grammar does not derive or the
   * matcher cannot read; or Panic, a panic inside a semantic action (an
   * unwrap of an Err, an arithmetic overflow, a division by zero).
   */
  datatype Outcome<T> = Ok(value: T) | Rejected | Panic

  /** The value of one hexadecimal (or decimal) digit. */
  function DigitValue(c: char): (d: nat)
    requires IsHexDigit(c)
    ensures d < 16 && (IsDigit(c) ==> d < 10)
  {
    if IsDigit(c) then c as int - '0' as int
    else if 'a' <= c <= 'f' then c as int - 'a' as int + 10
    else c as int - 'A' as int + 10
  }

  /** The value of a string of digits in `base`, most significant digit first. */
  function DigitsValue(s: string, base: nat): nat
    requires AllHexDigits(s)
    decreases |s|
  {
    if s == [] then 0 else DigitsValue(s[..|s| - 1], base) * base + DigitValue(s[|s| - 1])
  }

  /** The value of one digit, and of two. */
  lemma ShortDigits(a: char, b: char, base: nat)
    requires IsHexDigit(a) && IsHexDigit(b)
    ensures DigitsValue([a], base) == DigitValue(a)
    ensures DigitsValue([a, b], base) == DigitValue(a) * base + DigitValue(b)
  {
    assert [a][..0] == [];
    assert [a, b][..1] == [a];
  }

  /** The value of a -?[0-9]+ literal. */
  function DecimalValue(s: string): int
    requires IsDecimal(s)
  {
    if s[0] == '-' then 0 - DigitsValue(s[1..], 10) else DigitsValue(s, 10)
  }

  /** The value of a 0(x|X)[0-9a-fA-F]+ literal: the digits after the prefix in base 16. */
  function HexValue(s: string): nat
    requires IsHex(s)
  {
    DigitsValue(s[2..], 16)
  }

  /** __action26: `i32::from_str(text).unwrap()`, which panics when the value does not fit. */
  function FromStr(s: string): Outcome<int>
  {
    if IsDecimal(s) && InI32(DecimalValue(s)) then Ok(DecimalValue(s)) else Panic
  }

  /** __action25: `i32::from_str_radix(&text[2..], 16).unwrap()`, which panics above i32::MAX. */
  function FromHex(s: string): Outcome<int>
  {
    if IsHex(s) && HexValue(s) <= I32Max then Ok(HexValue(s)) else Panic
  }

  /** The character of a decimal digit. */
  function DigitChar(d: nat): (c: char)
    requires d < 10
    ensures IsDigit(c) && DigitValue(c) == d
  {
    ('0' as int + d) as char
  }

  /** The decimal digits of a natural number, most significant first. */
  function NatDigits(n: nat): (s: string)
    ensures |s| >= 1 && AllDigits(s)
    decreases n
  {
    if n < 10 then [DigitChar(n)] else NatDigits(n / 10) + [DigitChar(n % 10)]
  }

  /** `format!("{}", v)` of an integer: a minus sign for negative values, then the digits. */
  function Render(v: int): string
  {
    if v < 0 then "-" + NatDigits(-v) else NatDigits(v)
  }

  /** The digits read back as the number, and only zero is written with a leading zero. */
  lemma {:induction false} NatDigitsValue(n: nat)
    ensures DigitsValue(NatDigits(n), 10) == n
    ensures (NatDigits(n)[0] == '0') == (n == 0)
    decreases n
  {
    if n >= 10 {
      NatDigitsValue(n / 10);
      var s := NatDigits(n);
      assert s[..|s| - 1] == NatDigits(n / 10);
    }
  }

  /**
   * Echo's text is a decimal literal of the language that reads back as the
   * value, written without leading zeros and without "-0".
   */
  lemma RenderReadsBack(v: int)
    ensures IsDecimal(Render(v)) && DecimalValue(Render(v)) == v
    ensures InI32(v) ==> FromStr(Render(v)) == Ok(v)
    ensures Render(v) == "0" || (Render(v)[0] != '0' && (Render(v)[0] == '-' ==> Render(v)[1] != '0'))
  {
    if v < 0 {
      NatDigitsValue(-v);
      assert Render(v)[1..] == NatDigits(-v);
    } else {
      NatDigitsValue(v);
      if v == 0 {
        assert Render(v) == "0";
      }
    }
  }

  function Abs(v: int): nat { if v < 0 then -v else v }

  /** Rust's `/` on integers, which truncates toward zero. */
  function TruncDiv(a: int, b: int): int
    requires b != 0
  {
    if (a < 0) == (b < 0) then Abs(a) / Abs(b) else -(Abs(a) / Abs(b))
  }

  /** Rust's `%` on integers, whose result takes the sign of the dividend. */
  function TruncRem(a: int, b: int): int
    requires b != 0
  {
    if a < 0 then -(Abs(a) % Abs(b)) else Abs(a) % Abs(b)
  }

  /**
   * The quotient and remainder of Rust's integer division: the dividend is
   * divisor * quotient + remainder, the remainder is smaller than the
   * divisor and has the dividend's sign, and the quotient is rounded
   * toward zero.
   */
  lemma DivRem(a: int, b: int)
    requires b != 0
    ensures a == b * TruncDiv(a, b) + TruncRem(a, b)
    ensures Abs(TruncRem(a, b)) < Abs(b)
    ensures TruncRem(a, b) == 0 || ((TruncRem(a, b) < 0) == (a < 0))
    ensures Abs(b) * Abs(TruncDiv(a, b)) <= Abs(a)
  {
    var q: int, r: int := Abs(a) / Abs(b), Abs(a) % Abs(b);
    Euclid(Abs(a), Abs(b));
    SignedDivision(a, b, q, r, TruncDiv(a, b), TruncRem(a, b));
  }

  /** Euclidean division of magnitudes. */
  lemma Euclid(n: int, m: int)
    requires n >= 0 && m > 0
    ensures n == m * (n / m) + n % m && 0 <= n % m < m
  {
  }

  /** Restoring the signs of a division of magnitudes. */
  lemma SignedDivision(a: int, b: int, q: int, r: int, tq: int, tr: int)
    requires b != 0 && q >= 0 && Abs(a) == Abs(b) * q + r && 0 <= r < Abs(b)
    requires tq == (if (a < 0) == (b < 0) then q else -q) && tr == (if a < 0 then -r else r)
    ensures a == b * tq + tr
  {
    NegateProduct(Abs(b), q);
    if a < 0 && b < 0 {
      assert a == b * q - r;
    } else if a < 0 {
      assert a == b * -q - r;
    } else if b < 0 {
      assert a == b * -q + r;
    }
  }

  /** Negating either factor negates the product. */
  lemma NegateProduct(x: int, y: int)
    ensures (-x) * y == -(x * y) && x * (-y) == -(x * y) && (-x) * (-y) == x * y
  {
  }

  /** The five operators of Expression and Factor. */
  datatype Op = Add | Sub | Mul | Div | Rem

  /** An i32 result, or the panic of an overflowing operation. */
  function Checked(v: int): Outcome<int>
  {
    if InI32(v) then Ok(v) else Panic
  }

  /** A quotient of i32 values other than i32::MIN / -1 fits in an i32. */
  lemma QuotientFits(a: int, b: int)
    requires InI32(a) && InI32(b) && b != 0 && !(a == I32Min && b == -1)
    ensures InI32(TruncDiv(a, b)) && InI32(TruncRem(a, b))
  {
    DivRem(a, b);
    var q := TruncDiv(a, b);
    assert Abs(q) <= Abs(a) by {
      assert Abs(b) * Abs(q) >= Abs(q);
    }
  }

  /**
   * __action14, __action15, __action17, __action18 and __action19: the i32
   * operators, where an overflow, a division by zero and i32::MIN / -1 or
   * i32::MIN % -1 panic.
   */
  function Apply(op: Op, a: int, b: int): (r: Outcome<int>)
    requires InI32(a) && InI32(b)
    ensures r != Rejected && (r.Ok? ==> InI32(r.value))
  {
    match op
    case Add => Checked(a + b)
    case Sub => Checked(a - b)
    case Mul => Checked(a * b)
    case Div =>
      if b == 0 || (a == I32Min && b == -1) then Panic
      else QuotientFits(a, b); Ok(TruncDiv(a, b))
    case Rem =>
      if b == 0 || (a == I32Min && b == -1) then Panic
      else QuotientFits(a, b); Ok(TruncRem(a, b))
  }

  /** `v as u16`: the low sixteen bits of the two's complement value, the u16 congruent to `v`. */
  function AsU16(v: int): (a: Addr)
    ensures (a - v) % 0x1_0000 == 0
  {
    Residue(v, 0x1_0000);
    v % 0x1_0000
  }

  /** A residue differs from its number by a multiple of the modulus. */
  lemma Residue(v: int, m: int)
    requires m > 0
    ensures (v % m - v) % m == 0
  {
    var q := v / m;
    assert v % m - v == m * (0 - q);
    MultipleMod(m, 0 - q);
  }

  lemma MultipleMod(m: int, k: int)
    requires m > 0
    ensures (m * k) % m == 0
  {
    var q, r := (m * k) / m, (m * k) % m;
    assert m * k == m * q + r && 0 <= r < m;
    var d := k - q;
    assert m * d == m * k - m * q;
  }
}
