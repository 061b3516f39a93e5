/** Decoding the number at the end of an isotope name ("Cs137" -> 137), as the
    source's getNum does: the last character must be a digit, the two before it
    add tens and hundreds only when they are digits themselves. */
module IsotopeNames {
  import opened Outcomes

  predicate IsDigit(c: char) { '0' <= c <= '9' }

  function DigitValue(c: char): (d: nat)
    requires IsDigit(c)
    ensures d < 10
  {
    c as int - '0' as int
  }

  function DigitChar(d: nat): (c: char)
    requires d < 10
    ensures IsDigit(c) && DigitValue(c) == d
  {
    ('0' as int + d) as char
  }

  /** The metastable flag: a name whose last character is 'M'. */
  predicate IsMetastable(name: string) {
    |name| > 0 && name[|name| - 1] == 'M'
  }

  /** Names as the nuclear-data library renders them: non-empty, ending in a
      digit of the mass number or in the metastable flag. */
  predicate WellFormedName(name: string) {
    |name| > 0 && (IsDigit(name[|name| - 1]) || name[|name| - 1] == 'M')
  }

  predicate EndsInDigit(name: string) {
    |name| > 0 && IsDigit(name[|name| - 1])
  }

  /** Every name decodes: none is metastable, none is empty. */
  predicate AllEndInDigit(names: seq<string>) {
    forall k :: 0 <= k < |names| ==> EndsInDigit(names[k])
  }

  /** Value of the character |s|-k as a digit of weight 10^(k-1), or 0 when
      that position is missing or not a digit (the source's `except` branch). */
  function PlaceValue(s: string, k: nat, weight: nat): nat
    requires 1 <= k
  {
    if k <= |s| && IsDigit(s[|s| - k]) then DigitValue(s[|s| - k]) * weight else 0
  }

  /** getNum: fails (None) exactly when the last character is not a digit,
      as `int(elementString[-1])` raises; otherwise at most three digits. */
  function GetNum(s: string): (r: Option<nat>)
    ensures r.Some? <==> EndsInDigit(s)
    ensures r.Some? ==> r.value < 1000 && r.value % 10 == DigitValue(s[|s| - 1])
    ensures IsMetastable(s) ==> r.None?
  {
    if !EndsInDigit(s) then None
    else Some(DigitValue(s[|s| - 1]) + PlaceValue(s, 2, 10) + PlaceValue(s, 3, 100))
  }

  /** A mass number written in decimal without leading zeros. */
  function Decimal(n: nat): (r: string)
    decreases n
  {
    if n < 10 then [DigitChar(n)] else Decimal(n / 10) + [DigitChar(n % 10)]
  }

  predicate NoDigits(s: string) {
    forall i :: 0 <= i < |s| ==> !IsDigit(s[i])
  }

  /** Round trip: an element symbol followed by a mass number below 1000
      decodes back to that mass number. */
  lemma {:induction false} GetNumOfIsotopeName(symbol: string, a: nat)
    requires NoDigits(symbol) && a < 1000
    ensures GetNum(symbol + Decimal(a)) == Some(a)
  {
    var s := symbol + Decimal(a);
    if a < 10 {
      assert Decimal(a) == [DigitChar(a)];
      assert s[|s| - 1] == DigitChar(a);
      if 2 <= |s| { assert s[|s| - 2] == symbol[|symbol| - 1]; }
      if 3 <= |s| { assert s[|s| - 3] == symbol[|symbol| - 2]; }
    } else if a < 100 {
      assert Decimal(a / 10) == [DigitChar(a / 10)];
      assert Decimal(a) == [DigitChar(a / 10), DigitChar(a % 10)];
      assert s[|s| - 1] == DigitChar(a % 10);
      assert s[|s| - 2] == DigitChar(a / 10);
      if 3 <= |s| { assert s[|s| - 3] == symbol[|symbol| - 1]; }
    } else {
      assert Decimal(a / 100) == [DigitChar(a / 100)];
      assert Decimal(a / 10) == [DigitChar(a / 100), DigitChar(a / 10 % 10)];
      assert Decimal(a) == [DigitChar(a / 100), DigitChar(a / 10 % 10), DigitChar(a % 10)];
      assert s[|s| - 1] == DigitChar(a % 10);
      assert s[|s| - 2] == DigitChar(a / 10 % 10);
      assert s[|s| - 3] == DigitChar(a / 100);
    }
  }

  /** Only the last three characters matter: digits further left are dropped. */
  lemma GetNumReadsLastThree(prefix: string, s: string)
    requires |s| == 3
    ensures GetNum(prefix + s) == GetNum(s)
  {
    var t := prefix + s;
    assert t[|t| - 1] == s[2] && t[|t| - 2] == s[1] && t[|t| - 3] == s[0];
  }
}
