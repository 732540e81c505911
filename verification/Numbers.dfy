/** Decimal numbers as text. */
module Numbers {
  import opened ByteSeqs
  import opened Division

  type u32 = n: nat | n < 0x1_0000_0000

  function Digit(d: nat): char
    requires d < 10
  {
    "0123456789"[d]
  }

  function DigitValue(c: char): Option<nat> {
    if '0' <= c <= '9' then Some(c as nat - '0' as nat) else None
  }

  function Decimal(n: nat): (s: string)
    ensures s != []
  {
    if n < 10 then [Digit(n)] else Decimal(n / 10) + [Digit(n % 10)]
  }

  function DigitsValue(s: string): Option<nat> {
    if s == [] then Some(0)
    else
      var front, last := DigitsValue(s[..|s| - 1]), DigitValue(s[|s| - 1]);
      if front.Some? && last.Some? then Some(10 * front.value + last.value) else None
  }

  /** Parsing of a 32-bit number: an optional plus sign, at least one digit, and no overflow. */
  function ParseU32(s: string): Option<u32> {
    var digits := if s != [] && s[0] == '+' then s[1..] else s;
    if digits == [] then None
    else
      var v := DigitsValue(digits);
      if v.Some? && v.value < 0x1_0000_0000 then Some(v.value) else None
  }

  // ----- Place by place -----

  function Pow10(k: nat): (r: nat)
    ensures r > 0
  {
    if k == 0 then 1 else 10 * Pow10(k - 1)
  }

  predicate AllDigits(s: string) {
    forall i :: 0 <= i < |s| ==> '0' <= s[i] <= '9'
  }

  /** The character at each place is the digit of the value at that place. */
  predicate Places(s: string, v: nat) {
    v < Pow10(|s|) && forall i :: 0 <= i < |s| ==> s[i] as int - '0' as int == v / Pow10(|s| - 1 - i) % 10
  }

  /** A string has a value exactly when all its characters are digits, and those are the value's. */
  lemma {:induction false} DigitsPlaces(s: string)
    ensures DigitsValue(s).Some? <==> AllDigits(s)
    ensures DigitsValue(s).Some? ==> Places(s, DigitsValue(s).value)
  {
    if s != [] {
      var n := |s| - 1;
      DigitsPlaces(s[..n]);
      assert AllDigits(s) <==> AllDigits(s[..n]) && '0' <= s[n] <= '9';
      if DigitsValue(s).Some? { OneMorePlace(s, DigitsValue(s[..n]).value); }
    }
  }

  lemma OneMorePlace(s: string, front: nat)
    requires s != [] && Places(s[..|s| - 1], front) && '0' <= s[|s| - 1] <= '9'
    ensures Places(s, 10 * front + (s[|s| - 1] as nat - '0' as nat))
  {
    var n := |s| - 1;
    var v := 10 * front + (s[n] as nat - '0' as nat);
    forall i | 0 <= i < |s| ensures s[i] as int - '0' as int == v / Pow10(n - i) % 10 {
      if i < n {
        assert s[..n][i] == s[i];
        DivideTwice(v, 10, Pow10(n - i - 1));
      }
    }
  }

  /** What is printed for a number: its digits, and no zero in front. */
  lemma {:induction false} DecimalPlain(n: nat)
    ensures Places(Decimal(n), n) && AllDigits(Decimal(n)) && (|Decimal(n)| > 1 ==> Decimal(n)[0] != '0')
  {
    DecimalValue(n);
    DigitsPlaces(Decimal(n));
    NoZeroInFront(n);
  }

  lemma {:induction false} NoZeroInFront(n: nat)
    ensures |Decimal(n)| > 1 ==> Decimal(n)[0] != '0'
    ensures n > 0 ==> Decimal(n)[0] != '0'
  {
    if n >= 10 {
      NoZeroInFront(n / 10);
      assert Decimal(n)[0] == Decimal(n / 10)[0];
    }
  }

  /** A 32-bit number is read exactly from at least one digit behind at most one plus sign, unless the
      value is too large. */
  lemma ParseU32Iff(s: string, v: u32)
    ensures var digits := if s != [] && s[0] == '+' then s[1..] else s;
            ParseU32(s) == Some(v) <==> digits != [] && AllDigits(digits) && Places(digits, v)
  {
    var digits := if s != [] && s[0] == '+' then s[1..] else s;
    DigitsPlaces(digits);
    if AllDigits(digits) && Places(digits, v) { PlacesDetermine(digits, DigitsValue(digits).value, v); }
  }

  lemma {:induction false} PlacesDetermine(s: string, v: nat, w: nat)
    requires Places(s, v) && Places(s, w)
    ensures v == w
  {
    if s != [] {
      FrontPlaces(s, v);
      FrontPlaces(s, w);
      PlacesDetermine(s[..|s| - 1], v / 10, w / 10);
    }
  }

  lemma FrontPlaces(s: string, v: nat)
    requires s != [] && Places(s, v)
    ensures Places(s[..|s| - 1], v / 10) && v % 10 == s[|s| - 1] as int - '0' as int
  {
    var n := |s| - 1;
    assert s[n] as int - '0' as int == v / Pow10(0) % 10;
    forall i | 0 <= i < n ensures s[..n][i] as int - '0' as int == v / 10 / Pow10(n - 1 - i) % 10 {
      assert s[..n][i] == s[i];
      DivideTwice(v, 10, Pow10(n - 1 - i));
    }
  }

  lemma {:induction false} DecimalValue(n: nat)
    ensures DigitsValue(Decimal(n)) == Some(n)
    ensures forall i :: 0 <= i < |Decimal(n)| ==> '0' <= Decimal(n)[i] <= '9'
  {
    if n < 10 {
      assert [Digit(n)][..0] == [];
    } else {
      DecimalValue(n / 10);
      assert Decimal(n)[..|Decimal(n)| - 1] == Decimal(n / 10);
    }
  }

  lemma ParseDecimal(n: u32)
    ensures ParseU32(Decimal(n)) == Some(n)
    ensures ',' !in Decimal(n) && ';' !in Decimal(n)
  {
    DecimalValue(n);
  }
}
