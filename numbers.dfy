/**
 * Integers as text: JavaScript's `parseInt(s, 10)` and `parseInt(s)` without
 * a radix (with NaN as `None`), and the decimal rendering that template
 * literals give an integer.
 */
module Numbers {
  import opened Wrappers
  import Text

  predicate IsDigit(c: char) {
    '0' <= c <= '9'
  }

  predicate AllDigits(d: string) {
    forall i :: 0 <= i < |d| ==> IsDigit(d[i])
  }

  function DigitValue(c: char): nat
    requires IsDigit(c)
  {
    c as int - '0' as int
  }

  function DigitChar(n: nat): char
    requires n < 10
  {
    ('0' as int + n) as char
  }

  /** The value of a string of decimal digits, most significant first. */
  function DigitsValue(d: string): nat
    requires AllDigits(d)
    decreases |d|
  {
    if d == [] then 0 else 10 * DigitsValue(d[..|d| - 1]) + DigitValue(d[|d| - 1])
  }

  /** The longest prefix of `s` made of decimal digits. */
  function LeadingDigits(s: string): (r: string)
    ensures |r| <= |s| && r == s[..|r|]
    ensures AllDigits(r)
    ensures |r| < |s| ==> !IsDigit(s[|r|])
    decreases |s|
  {
    if s != [] && IsDigit(s[0]) then
      var rest := LeadingDigits(s[1..]);
      assert [s[0]] + rest == s[..|rest| + 1];
      [s[0]] + rest
    else []
  }

  /** What `parseInt` reads digits from: `s` after its leading white space and an optional sign. */
  function Unsigned(s: string): string {
    var t := Text.TrimStart(s);
    if t != [] && (t[0] == '-' || t[0] == '+') then t[1..] else t
  }

  /** The sign `parseInt` reads: a "-" as the first character after the white space. */
  predicate Negative(s: string) {
    var t := Text.TrimStart(s);
    t != [] && t[0] == '-'
  }

  function Signed(negative: bool, magnitude: nat): int {
    if negative then -(magnitude as int) else magnitude
  }

  /**
   * `parseInt(s, 10)`: skip leading white space, read an optional sign and then
   * the longest run of digits; no digit at all is NaN (`None`). Anything after
   * the digits is ignored.
   */
  function ParseInt(s: string): (r: Option<int>)
    ensures r.None? <==> LeadingDigits(Unsigned(s)) == []
    ensures r.Some? && !Negative(s) ==> r.value >= 0
    ensures r.Some? && Negative(s) ==> r.value <= 0
  {
    var digits := LeadingDigits(Unsigned(s));
    if digits == [] then None else Some(Signed(Negative(s), DigitsValue(digits)))
  }

  /** Without a radix, a "0x" or "0X" in front of the digits switches `parseInt` to base 16. */
  predicate HasHexPrefix(body: string) {
    |body| >= 2 && body[0] == '0' && (body[1] == 'x' || body[1] == 'X')
  }

  predicate IsHexDigit(c: char) {
    IsDigit(c) || 'a' <= c <= 'f' || 'A' <= c <= 'F'
  }

  predicate AllHexDigits(d: string) {
    forall i :: 0 <= i < |d| ==> IsHexDigit(d[i])
  }

  function HexDigitValue(c: char): (v: nat)
    requires IsHexDigit(c)
    ensures v < 16
  {
    if IsDigit(c) then DigitValue(c)
    else if 'a' <= c <= 'f' then c as int - 'a' as int + 10
    else c as int - 'A' as int + 10
  }

  /** The value of a string of hexadecimal digits, most significant first. */
  function HexValue(d: string): nat
    requires AllHexDigits(d)
    decreases |d|
  {
    if d == [] then 0 else 16 * HexValue(d[..|d| - 1]) + HexDigitValue(d[|d| - 1])
  }

  /** The longest prefix of `s` made of hexadecimal digits. */
  function LeadingHexDigits(s: string): (r: string)
    ensures |r| <= |s| && r == s[..|r|]
    ensures AllHexDigits(r)
    ensures |r| < |s| ==> !IsHexDigit(s[|r|])
    decreases |s|
  {
    if s != [] && IsHexDigit(s[0]) then
      var rest := LeadingHexDigits(s[1..]);
      assert [s[0]] + rest == s[..|rest| + 1];
      [s[0]] + rest
    else []
  }

  /**
   * `parseInt(s)` with no radix: as `parseInt(s, 10)`, except that a "0x" or
   * "0X" after the sign makes it read hexadecimal digits instead; a prefix
   * with no hexadecimal digit after it is NaN.
   */
  function ParseIntAutoRadix(s: string): (r: Option<int>)
    ensures !HasHexPrefix(Unsigned(s)) ==> r == ParseInt(s)
    ensures HasHexPrefix(Unsigned(s)) ==> (r.None? <==> LeadingHexDigits(Unsigned(s)[2..]) == [])
  {
    var body := Unsigned(s);
    if HasHexPrefix(body) then
      var digits := LeadingHexDigits(body[2..]);
      if digits == [] then None else Some(Signed(Negative(s), HexValue(digits)))
    else ParseInt(s)
  }

  /** `${n}` for a natural number: its decimal digits, no leading zero. */
  function NatToString(n: nat): (r: string)
    ensures r != [] && AllDigits(r)
    ensures DigitsValue(r) == n
    ensures |r| > 1 ==> r[0] != '0'
    decreases n
  {
    if n < 10 then [DigitChar(n)]
    else
      var prefix := NatToString(n / 10);
      var r := prefix + [DigitChar(n % 10)];
      assert r[..|r| - 1] == prefix;
      r
  }

  /** `${i}` for any integer. */
  function IntToString(i: int): (r: string)
    ensures r != []
  {
    if i < 0 then "-" + NatToString(-i) else NatToString(i)
  }

  /** Digits that fill the whole string are all read. */
  lemma LeadingDigitsOfDigits(d: string)
    requires AllDigits(d)
    ensures LeadingDigits(d) == d
  {
  }

  /** A rendered natural number is read back whole: no white space, no sign. */
  lemma ReadDigits(d: string)
    requires d != [] && AllDigits(d)
    ensures Unsigned(d) == d && !Negative(d)
    ensures LeadingDigits(d) == d
  {
    assert Text.TrimStart(d) == d;
    LeadingDigitsOfDigits(d);
  }

  /** "-" and digits: the digits are read, with a minus sign. */
  lemma ReadNegativeDigits(d: string)
    requires d != [] && AllDigits(d)
    ensures Unsigned("-" + d) == d && Negative("-" + d)
  {
    var s := "-" + d;
    assert Text.TrimStart(s) == s;
    assert s[1..] == d;
  }

  /** Reading back what `${i}` printed gives `i`: a rendered number is always accepted by `parseInt`. */
  lemma ParseIntToString(i: int)
    ensures ParseInt(IntToString(i)) == Some(i)
  {
    var d := NatToString(if i < 0 then -i else i);
    ReadDigits(d);
    if i < 0 {
      ReadNegativeDigits(d);
    }
  }

  /** A positive number's rendering does not start with "0". */
  lemma NatToStringLeading(n: nat)
    requires n >= 1
    ensures NatToString(n)[0] != '0'
  {
    if n >= 10 {
      assert |NatToString(n)| > 1;
    }
  }

  /** The radix-less `parseInt` also reads back what `${i}` printed: no rendering starts with "0x". */
  lemma ParseIntAutoRadixToString(i: int)
    ensures ParseIntAutoRadix(IntToString(i)) == Some(i)
  {
    var d := NatToString(if i < 0 then -i else i);
    ReadDigits(d);
    if i < 0 {
      ReadNegativeDigits(d);
    }
    assert Unsigned(IntToString(i)) == d;
    assert !HasHexPrefix(d);
    ParseIntToString(i);
  }

  /** Without a radix, "0x11" is seventeen. */
  lemma HexSeventeen()
    ensures ParseIntAutoRadix("0x11") == Some(17)
  {
    assert Text.TrimStart("0x11") == "0x11";
    assert Unsigned("0x11") == "0x11" && !Negative("0x11");
    assert "0x11"[2..] == "11";
    assert LeadingHexDigits("11") == "11";
    assert "11"[..1] == "1";
    assert HexValue("11") == 17;
  }

  /** A sign and an upper-case prefix: "-0X1f" is minus thirty-one. */
  lemma NegativeHex()
    ensures ParseIntAutoRadix("-0X1f") == Some(-31)
  {
    assert Text.TrimStart("-0X1f") == "-0X1f";
    assert Unsigned("-0X1f") == "0X1f" && Negative("-0X1f");
    assert "0X1f"[2..] == "1f";
    assert LeadingHexDigits("1f") == "1f";
    assert "1f"[..1] == "1";
    assert HexValue("1f") == 31;
  }

  /** A prefix with no hexadecimal digit after it is NaN. */
  lemma BareHexPrefix()
    ensures ParseIntAutoRadix("0x") == None
  {
    assert Text.TrimStart("0x") == "0x";
    assert Unsigned("0x") == "0x";
    assert HasHexPrefix("0x");
    assert "0x"[2..] == [];
    assert LeadingHexDigits([]) == [];
  }

  /** With radix 10, "0x11" reads as 0: the digits stop at the "x". */
  lemma DecimalStopsAtX()
    ensures ParseInt("0x11") == Some(0)
  {
    assert Text.TrimStart("0x11") == "0x11";
    assert Unsigned("0x11") == "0x11" && !Negative("0x11");
    assert "0x11"[1..] == "x11";
    assert LeadingDigits("x11") == [];
    assert LeadingDigits("0x11") == "0";
    assert DigitsValue("0") == 0;
  }

  /** The radix decides: "0x11" is seventeen without one and zero with radix 10; a bare prefix is NaN. */
  lemma HexPrefixScenarios()
    ensures ParseIntAutoRadix("0x11") == Some(17)
    ensures ParseIntAutoRadix("-0X1f") == Some(-31)
    ensures ParseIntAutoRadix("0x") == None
    ensures ParseInt("0x11") == Some(0)
  {
    HexSeventeen();
    NegativeHex();
    BareHexPrefix();
    DecimalStopsAtX();
  }

  /** The digits are read from a tail of `s`. */
  lemma UnsignedIsSuffix(s: string)
    ensures |Unsigned(s)| <= |s| && Unsigned(s) == s[|s| - |Unsigned(s)|..]
  {
  }

  /** A sign-free text whose body opens with the digits `d`, and no `0x`, reads as their decimal value. */
  lemma DecimalRead(s: string, d: string)
    requires !Negative(s) && !HasHexPrefix(Unsigned(s))
    requires d != [] && LeadingDigits(Unsigned(s)) == d
    ensures ParseIntAutoRadix(s) == Some(DigitsValue(d))
  {
  }

  /** A string without any digit is NaN to `parseInt`, with or without a radix. */
  lemma ParseIntWithoutDigits(s: string)
    requires forall i :: 0 <= i < |s| ==> !IsDigit(s[i])
    ensures ParseInt(s) == None
    ensures ParseIntAutoRadix(s) == None
  {
    var body := Unsigned(s);
    if HasHexPrefix(body) {
      UnsignedIsSuffix(s);
      assert IsDigit(s[|s| - |body|]);
    }
  }
}
