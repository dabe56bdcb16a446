/** C's `atoi` on a token, and the conversion of its `int` result to `uint8_t`,
    which is how the `plot` verb reads its column number. */
module Numerals {

  /** `isspace` in the C locale: space, and `\t` `\n` `\v` `\f` `\r`. */
  predicate IsSpace(c: char) {
    c == ' ' || '\t' <= c <= '\r'
  }

  predicate IsDigit(c: char) {
    '0' <= c <= '9'
  }

  predicate AllDigits(s: string) {
    forall i :: 0 <= i < |s| ==> IsDigit(s[i])
  }

  /** The text after the leading white space: only white space is dropped, and what
      remains does not start with any. */
  function SkipSpace(s: string): (t: string)
    ensures |t| <= |s| && t == s[|s| - |t|..]
    ensures forall i :: 0 <= i < |s| - |t| ==> IsSpace(s[i])
    ensures t == [] || !IsSpace(t[0])
  {
    if s != [] && IsSpace(s[0]) then SkipSpace(s[1..]) else s
  }

  /** The longest run of decimal digits at the start of `s`. */
  function DigitPrefix(s: string): (ds: string)
    ensures ds <= s && AllDigits(ds)
    ensures |ds| < |s| ==> !IsDigit(s[|ds|])
  {
    if s != [] && IsDigit(s[0]) then [s[0]] + DigitPrefix(s[1..]) else []
  }

  /** The number a run of decimal digits denotes. */
  function Value(ds: string): nat
    requires AllDigits(ds)
  {
    if ds == [] then 0 else Value(ds[..|ds| - 1]) * 10 + (ds[|ds| - 1] as int - '0' as int)
  }

  /** `atoi`: leading white space, an optional sign, then as many digits as there are;
      text without a leading number gives 0. */
  function Atoi(s: string): int
  {
    var t := SkipSpace(s);
    if t != [] && t[0] == '-' then -(Value(DigitPrefix(t[1..])) as int)
    else if t != [] && t[0] == '+' then Value(DigitPrefix(t[1..]))
    else Value(DigitPrefix(t))
  }

  /** `atoi` is undefined when the number does not fit a 32-bit `int`. */
  predicate AtoiDefined(s: string) {
    -0x8000_0000 <= Atoi(s) < 0x8000_0000
  }

  /** Conversion of an `int` to `uint8_t`: the value modulo 2^8. */
  function ToUint8(v: int): (b: nat)
    ensures b < 0x100 && (v - b) % 0x100 == 0
  {
    v % 0x100
  }

  /** The decimal numeral of `n`, without leading zeros. */
  function Decimal(n: nat): (s: string)
    ensures s != [] && AllDigits(s)
  {
    if n < 10 then [('0' as int + n) as char]
    else Decimal(n / 10) + [('0' as int + n % 10) as char]
  }

  lemma {:induction false} DigitPrefixAll(s: string)
    requires AllDigits(s)
    ensures DigitPrefix(s) == s
  {
    if s != [] {
      DigitPrefixAll(s[1..]);
    }
  }

  lemma {:induction false} ValueDecimal(n: nat)
    ensures Value(Decimal(n)) == n
  {
    if n >= 10 {
      var s := Decimal(n);
      assert s[..|s| - 1] == Decimal(n / 10);
      ValueDecimal(n / 10);
    }
  }

  /** The digits read stop where the run of digits stops, whatever follows. */
  lemma {:induction false} DigitPrefixAppend(ds: string, rest: string)
    requires AllDigits(ds) && (rest == [] || !IsDigit(rest[0]))
    ensures DigitPrefix(ds + rest) == ds
  {
    if ds == [] {
      assert ds + rest == rest;
    } else {
      assert (ds + rest)[1..] == ds[1..] + rest;
      DigitPrefixAppend(ds[1..], rest);
    }
  }

  /** A run of digits followed by text that is not a digit reads as the run: `plot 2x`
      plots column 2. */
  lemma AtoiLeadingDigits(ds: string, rest: string)
    requires ds != [] && AllDigits(ds) && (rest == [] || !IsDigit(rest[0]))
    ensures Atoi(ds + rest) == Value(ds)
  {
    DigitPrefixAppend(ds, rest);
    NoLeadingSpace(ds + rest);
  }

  /** Text that does not start with white space has none to skip. */
  lemma NoLeadingSpace(t: string)
    requires t != [] && !IsSpace(t[0])
    ensures SkipSpace(t) == t
  {
  }

  /** A run of digits reads as the number it denotes. */
  lemma AtoiDigits(s: string)
    requires s != [] && AllDigits(s)
    ensures Atoi(s) == Value(s)
  {
    DigitPrefixAll(s);
    NoLeadingSpace(s);
  }

  /** A minus sign and a run of digits read as the negated number. */
  lemma AtoiMinus(s: string)
    requires AllDigits(s)
    ensures Atoi("-" + s) == -(Value(s) as int)
  {
    var m := "-" + s;
    assert m[1..] == s;
    NoLeadingSpace(m);
    DigitPrefixAll(s);
  }

  /** `atoi` reads back every numeral `Decimal` writes. */
  lemma AtoiDecimal(n: nat)
    ensures Atoi(Decimal(n)) == n
    ensures Atoi("-" + Decimal(n)) == -(n as int)
  {
    ValueDecimal(n);
    AtoiDigits(Decimal(n));
    AtoiMinus(Decimal(n));
  }

  /** A token that does not start with white space, a sign or a digit reads as 0. */
  lemma AtoiNonNumeric(s: string)
    requires s != [] && !IsSpace(s[0]) && !IsDigit(s[0]) && s[0] != '-' && s[0] != '+'
    ensures Atoi(s) == 0
  {
  }

  /** Column numbers below 256 written in decimal select that very column. */
  lemma ColumnNumber(n: nat)
    requires n < 0x100
    ensures AtoiDefined(Decimal(n)) && ToUint8(Atoi(Decimal(n))) == n
  {
    AtoiDecimal(n);
    SmallByte(n);
  }

  /** A value already below 2^8 converts to itself. */
  lemma SmallByte(v: int)
    requires 0 <= v < 0x100
    ensures ToUint8(v) == v
  {
  }
}
