/** Numbers as fixed-width digit strings, the way time, UUID and strconv print and
    read them. */
module Numerals {
  import opened Prelude

  function Pow(base: nat, width: nat): nat {
    if width == 0 then 1 else base * Pow(base, width - 1)
  }

  function DigitChar(d: nat): char
    requires d < 16
  {
    if d < 10 then '0' + d as char else 'a' + (d - 10) as char
  }

  /** The value of a digit, whatever the case of a letter. */
  function DigitValue(c: char, base: nat): Option<nat> {
    var value :=
      if '0' <= c <= '9' then c as int - '0' as int
      else if 'a' <= c <= 'f' then c as int - 'a' as int + 10
      else if 'A' <= c <= 'F' then c as int - 'A' as int + 10
      else base;
    if value < base then Some(value) else None
  }

  predicate IsDigit(c: char) { '0' <= c <= '9' }

  /** The last `width` digits of n, with leading zeros. */
  function Numeral(n: nat, base: nat, width: nat): (s: string)
    requires 2 <= base <= 16
    ensures |s| == width
    ensures forall c :: c in s ==> DigitValue(c, base).Some?
    decreases width
  {
    if width == 0 then "" else Numeral(n / base, base, width - 1) + [DigitChar(n % base)]
  }

  /** The number that a digit string spells. */
  function Number(s: string, base: nat): Option<nat> {
    if s == "" then Some(0)
    else
      var high := Number(s[..|s| - 1], base);
      var low := DigitValue(s[|s| - 1], base);
      if high.Some? && low.Some? then Some(high.value * base + low.value) else None
  }

  lemma {:induction false} NumberFits(s: string, base: nat)
    ensures Number(s, base).Some? ==> Number(s, base).value < Pow(base, |s|)
  {
    if Number(s, base).Some? && s != "" {
      NumberFits(s[..|s| - 1], base);
      NextPlace(Number(s[..|s| - 1], base).value, DigitValue(s[|s| - 1], base).value, base, Pow(base, |s| - 1));
    }
  }

  lemma NextPlace(high: nat, low: nat, base: nat, limit: nat)
    requires high < limit && low < base
    ensures high * base + low < base * limit
  {
    assert (high + 1) * base <= limit * base;
  }

  lemma Split(n: nat, base: nat, limit: nat)
    requires 2 <= base && n < base * limit
    ensures n / base < limit && n == (n / base) * base + n % base
  {
    if n / base >= limit {
      TooLarge(n / base, base, limit);
    }
  }

  lemma TooLarge(high: nat, base: nat, limit: nat)
    requires high >= limit
    ensures base * high >= base * limit
  {
  }

  lemma OneMoreDigit(s: string, d: nat, base: nat)
    requires 2 <= base <= 16 && d < base && Number(s, base).Some?
    ensures Number(s + [DigitChar(d)], base) == Some(Number(s, base).value * base + d)
  {
    var t := s + [DigitChar(d)];
    assert t[..|t| - 1] == s;
    assert DigitValue(t[|t| - 1], base) == Some(d);
  }

  lemma LastDigit(n: nat, base: nat, width: nat) returns (high: nat, low: nat)
    requires 2 <= base <= 16 && width > 0 && n < Pow(base, width)
    ensures high < Pow(base, width - 1) && low < base && n == high * base + low
    ensures Numeral(n, base, width) == Numeral(high, base, width - 1) + [DigitChar(low)]
  {
    Split(n, base, Pow(base, width - 1));
    high, low := n / base, n % base;
  }

  /** Printing a number that fits and reading it back gives the number. */
  lemma {:induction false} NumberOfNumeral(n: nat, base: nat, width: nat)
    requires 2 <= base <= 16 && n < Pow(base, width)
    ensures Number(Numeral(n, base, width), base) == Some(n)
    decreases width
  {
    if width > 0 {
      var high, low := LastDigit(n, base, width);
      NumberOfNumeral(high, base, width - 1);
      OneMoreDigit(Numeral(high, base, width - 1), low, base);
    }
  }

  /** strconv.Atoi: an optional sign, at least one digit, within 64 bits. */
  function Atoi(s: string): Option<int> {
    var signed := s != "" && s[0] in "+-";
    var digits := if signed then s[1..] else s;
    var n := Number(digits, 10);
    if digits == "" || n.None? then None
    else
      var value: int := if signed && s[0] == '-' then -(n.value as int) else n.value;
      if -0x8000_0000_0000_0000 <= value < 0x8000_0000_0000_0000 then Some(value) else None
  }

  lemma SplitDigit(high: nat, low: nat)
    requires low < 10
    ensures (high * 10 + low) / 10 == high && (high * 10 + low) % 10 == low
  {
  }

  /** A decimal digit string is the numeral of the number it spells. */
  lemma {:induction false} NumeralOfNumber(s: string)
    requires Number(s, 10).Some?
    ensures s == Numeral(Number(s, 10).value, 10, |s|)
    decreases |s|
  {
    if s != "" {
      var before, c := s[..|s| - 1], s[|s| - 1];
      NumeralOfNumber(before);
      SplitDigit(Number(before, 10).value, DigitValue(c, 10).value);
      assert s == before + [c];
    }
  }

  /** The string spells n in decimal digits, with or without leading zeros. */
  predicate Spells(digits: string, n: nat) {
    digits != "" && n < Pow(10, |digits|) && digits == Numeral(n, 10, |digits|)
  }

  lemma SpellsIff(digits: string, n: nat)
    ensures Spells(digits, n) <==> digits != "" && Number(digits, 10) == Some(n)
  {
    if Spells(digits, n) { NumberOfNumeral(n, 10, |digits|); }
    if digits != "" && Number(digits, 10) == Some(n) {
      NumeralOfNumber(digits);
      NumberFits(digits, 10);
    }
  }

  /** What Atoi reads: a 64-bit number in decimal digits, with an optional sign. */
  ghost predicate Reads(s: string, v: int) {
    && -0x8000_0000_0000_0000 <= v < 0x8000_0000_0000_0000
    && ((v >= 0 && Spells(s, v))
        || (v >= 0 && s != "" && s[0] == '+' && Spells(s[1..], v))
        || (v <= 0 && s != "" && s[0] == '-' && Spells(s[1..], -v)))
  }

  lemma SignIsNoDigit(s: string)
    requires s != "" && s[0] in "+-"
    ensures Number(s, 10).None?
  {
    if |s| > 1 { SignIsNoDigit(s[..|s| - 1]); }
  }

  lemma AtoiIff(s: string, v: int)
    ensures Atoi(s) == Some(v) <==> Reads(s, v)
  {
    if s != "" && s[0] in "+-" {
      SignIsNoDigit(s);
      if v >= 0 { SpellsIff(s[1..], v); SpellsIff(s, v); }
      if v <= 0 { SpellsIff(s[1..], -v); }
      if Atoi(s).Some? { SpellsIff(s[1..], Number(s[1..], 10).value); }
    } else {
      if v >= 0 { SpellsIff(s, v); }
      if Atoi(s).Some? { SpellsIff(s, Number(s, 10).value); }
    }
  }

  /** The digits of every base up to 16, in either case, and nothing else. */
  lemma DigitsAre(d: nat, c: char)
    requires d < 16
    ensures DigitChar(d) == "0123456789abcdef"[d]
    ensures forall base :: d < base <= 16 ==>
      (DigitValue(c, base) == Some(d) <==> c == "0123456789abcdef"[d] || c == "0123456789ABCDEF"[d])
  {
  }
}
