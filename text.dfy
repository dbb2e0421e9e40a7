/** String helpers the core relies on: ASCII case mapping, substring search,
    the text before the first separator, and the decimal text of integers and
    of money amounts as a JavaScript number prints them. */
module Text {
  import opened Wrappers

  function LowerChar(c: char): char {
    if 'A' <= c <= 'Z' then (c as int + 32) as char else c
  }

  function UpperChar(c: char): char {
    if 'a' <= c <= 'z' then (c as int - 32) as char else c
  }

  /** `String.prototype.toLowerCase` on ASCII text. */
  function ToLower(s: string): (r: string)
    ensures |r| == |s|
    ensures forall i :: 0 <= i < |s| ==> r[i] == LowerChar(s[i])
  {
    if s == [] then [] else [LowerChar(s[0])] + ToLower(s[1..])
  }

  /** `String.prototype.toUpperCase` on ASCII text. */
  function ToUpper(s: string): (r: string)
    ensures |r| == |s|
    ensures forall i :: 0 <= i < |s| ==> r[i] == UpperChar(s[i])
  {
    if s == [] then [] else [UpperChar(s[0])] + ToUpper(s[1..])
  }

  /** `s.includes(sub)`. */
  predicate Contains(s: string, sub: string) {
    exists i :: 0 <= i <= |s| - |sub| && OccursAt(s, sub, i)
  }

  predicate OccursAt(s: string, sub: string, i: int)
    requires 0 <= i <= |s| - |sub|
  {
    s[i..i + |sub|] == sub
  }

  /** `s.split(c)[0]`: everything before the first `c`, or all of `s`. */
  function BeforeFirst(s: string, c: char): (r: string)
    ensures |r| <= |s| && r == s[..|r|]
    ensures c !in r
    ensures |r| < |s| ==> s[|r|] == c
  {
    if s == [] || s[0] == c then [] else [s[0]] + BeforeFirst(s[1..], c)
  }

  predicate IsDigit(c: char) { '0' <= c <= '9' }

  predicate AllDigits(s: string) { forall i :: 0 <= i < |s| ==> IsDigit(s[i]) }

  function Digit(d: nat): (c: char)
    requires d < 10
    ensures IsDigit(c)
  {
    ('0' as int + d) as char
  }

  /** The decimal text of a natural number, without leading zeros. */
  function NatToString(n: nat): (r: string)
    ensures |r| > 0 && AllDigits(r)
    ensures r[0] == '0' ==> n == 0
  {
    if n < 10 then [Digit(n)] else NatToString(n / 10) + [Digit(n % 10)]
  }

  /** `${i}` for an integer-valued JavaScript number. */
  function IntToString(i: int): string {
    if i < 0 then "-" + NatToString(-i) else NatToString(i)
  }

  /** The value of a string of decimal digits. */
  function DigitsValue(s: string): nat
    requires AllDigits(s)
  {
    if s == [] then 0 else DigitsValue(s[..|s| - 1]) * 10 + (s[|s| - 1] as int - '0' as int)
  }

  /** `parseInt` restricted to canonical digit strings. */
  function ParseNat(s: string): Option<nat> {
    if s != [] && AllDigits(s) then Some(DigitsValue(s)) else None
  }

  lemma {:induction false} NatToStringRoundTrip(n: nat)
    ensures DigitsValue(NatToString(n)) == n
    ensures ParseNat(NatToString(n)) == Some(n)
  {
    var r := NatToString(n);
    if n >= 10 {
      NatToStringRoundTrip(n / 10);
      assert r[..|r| - 1] == NatToString(n / 10);
    }
  }

  /** Printing is injective: distinct numbers never print alike. */
  lemma NatToStringInjective(m: nat, n: nat)
    requires NatToString(m) == NatToString(n)
    ensures m == n
  {
    NatToStringRoundTrip(m);
    NatToStringRoundTrip(n);
  }

  /** A money amount is an exact number of cents; JavaScript prints the
      number cents/100 as its shortest decimal: no trailing zeros in the
      fraction and no fraction at all for whole amounts. */
  function MoneyToString(cents: int): string {
    if cents < 0 then "-" + UnsignedMoney(-cents) else UnsignedMoney(cents)
  }

  function UnsignedMoney(c: nat): string {
    var whole, frac := c / 100, c % 100;
    NatToString(whole) +
    (if frac == 0 then ""
     else if frac % 10 == 0 then "." + [Digit(frac / 10)]
     else "." + [Digit(frac / 10), Digit(frac % 10)])
  }

  /** Reads back a decimal with at most two fraction digits, in cents. */
  function ParseMoney(s: string): Option<int> {
    if |s| > 0 && s[0] == '-' then
      match ParseUnsignedMoney(s[1..])
      case Some(c) => Some(0 - c as int)
      case None => None
    else ParseUnsignedMoney(s)
  }

  function ParseUnsignedMoney(s: string): Option<nat> {
    var whole := BeforeFirst(s, '.');
    if whole == [] || !AllDigits(whole) then None
    else if |whole| == |s| then Some(DigitsValue(whole) * 100)
    else
      var frac := s[|whole| + 1..];
      if |frac| == 1 && IsDigit(frac[0]) then
        Some(DigitsValue(whole) * 100 + (frac[0] as int - '0' as int) * 10)
      else if |frac| == 2 && AllDigits(frac) then
        Some(DigitsValue(whole) * 100 + DigitsValue(frac))
      else None
  }

  lemma UnsignedMoneyRoundTrip(c: nat)
    ensures ParseUnsignedMoney(UnsignedMoney(c)) == Some(c)
  {
    var whole, frac := c / 100, c % 100;
    var w := NatToString(whole);
    NatToStringRoundTrip(whole);
    var s := UnsignedMoney(c);
    assert s[..|w|] == w;
    assert BeforeFirst(s, '.') == w by {
      BeforeFirstOfDigits(w, s[|w|..]);
      assert s == w + s[|w|..];
    }
    if frac != 0 {
      var f := s[|w| + 1..];
      if frac % 10 == 0 {
        assert f == [Digit(frac / 10)];
      } else {
        assert f == [Digit(frac / 10), Digit(frac % 10)];
        assert f[..1] == [Digit(frac / 10)];
        assert DigitsValue(f[..1]) == frac / 10;
        assert DigitsValue(f) == frac;
      }
    }
  }

  lemma BeforeFirstOfDigits(w: string, rest: string)
    requires AllDigits(w)
    requires rest == [] || rest[0] == '.'
    ensures BeforeFirst(w + rest, '.') == w
  {
    if w != [] {
      assert (w + rest)[1..] == w[1..] + rest;
      BeforeFirstOfDigits(w[1..], rest);
    }
  }

  /** The text of every amount reads back as that amount. */
  lemma MoneyRoundTrip(cents: int)
    ensures ParseMoney(MoneyToString(cents)) == Some(cents)
  {
    if cents < 0 {
      UnsignedMoneyRoundTrip(-cents);
      assert ("-" + UnsignedMoney(-cents))[1..] == UnsignedMoney(-cents);
    } else {
      UnsignedMoneyRoundTrip(cents);
      assert UnsignedMoney(cents)[0] != '-';
    }
  }
}
