/** Human quantities ("8GiB"), PVE size tokens ("8G") and the GiB numbers of create-form volumes.
    Byte counts are Go int64 values: multiplication wraps around. */
module Quantity {
  import opened Text

  const TWO63: int := 0x8000_0000_0000_0000
  const KIB: int := 0x400
  const MIB: int := 0x10_0000
  const GIB: int := 0x4000_0000
  const TIB: int := 0x100_0000_0000
  const PIB: int := 0x4_0000_0000_0000

  function Wrap64(x: int): (r: int)
    ensures -TWO63 <= r < TWO63
    ensures -TWO63 <= x < TWO63 ==> r == x
  {
    (x + TWO63) % (2 * TWO63) - TWO63
  }

  /** Go's strconv.ParseInt(s, 10, 64). */
  function ParseInt64(s: string): Option<int> {
    var negative := s != "" && s[0] == '-';
    var digits := if s != "" && (s[0] == '-' || s[0] == '+') then s[1..] else s;
    if digits == "" || !AllDigits(digits) then None
    else
      var v := if negative then 0 - NatValue(digits) else NatValue(digits);
      if -TWO63 <= v < TWO63 then Some(v) else None
  }

  function DigitPrefix(s: string): (n: nat)
    ensures n <= |s|
    ensures AllDigits(s[..n])
    ensures n < |s| ==> !IsDigit(s[n])
  {
    if s == "" || !IsDigit(s[0]) then 0
    else
      var n := DigitPrefix(s[1..]);
      assert s[..1 + n] == [s[0]] + s[1..][..n];
      1 + n
  }

  /** The multiplier of an upper-cased unit suffix. */
  function UnitFactor(unit: string): Option<int> {
    if unit == "B" || unit == "" then Some(1)
    else if unit == "K" || unit == "KB" then Some(1000)
    else if unit == "KI" || unit == "KIB" then Some(KIB)
    else if unit == "M" || unit == "MB" then Some(1_000_000)
    else if unit == "MI" || unit == "MIB" then Some(MIB)
    else if unit == "G" || unit == "GB" then Some(1_000_000_000)
    else if unit == "GI" || unit == "GIB" then Some(GIB)
    else if unit == "T" || unit == "TB" then Some(1_000_000_000_000)
    else if unit == "TI" || unit == "TIB" then Some(TIB)
    else if unit == "P" || unit == "PB" then Some(1_000_000_000_000_000)
    else if unit == "PI" || unit == "PIB" then Some(PIB)
    else None
  }

  function Scaled(number: Option<int>, factor: Option<int>): Option<int> {
    if number.None? || factor.None? then None else Some(Wrap64(number.value * factor.value))
  }

  function Bytes(q: string): Option<int> {
    var t := TrimSpace(q);
    if t == "" then None
    else if ParseInt64(t).Some? then ParseInt64(t)
    else
      var i := DigitPrefix(t);
      if i == 0 then None else Scaled(ParseInt64(t[..i]), UnitFactor(Upper(t[i..])))
  }

  lemma {:induction false} DigitPrefixAt(digits: string, rest: string)
    requires AllDigits(digits)
    requires rest == "" || !IsDigit(rest[0])
    ensures DigitPrefix(digits + rest) == |digits|
  {
    if digits != "" {
      DigitPrefixAt(digits[1..], rest);
      assert (digits + rest)[1..] == digits[1..] + rest;
    } else {
      assert digits + rest == rest;
    }
  }

  method ParseBytes(q: string) returns (r: Option<int>)
    ensures r == Bytes(q)
  {
    var trimmed := TrimSpace(q);
    if trimmed == "" {
      return None;
    }
    var plain := ParseInt64(trimmed);
    if plain.Some? {
      return plain;
    }
    var i := 0;
    while i < |trimmed| && IsDigit(trimmed[i])
      invariant 0 <= i <= |trimmed|
      invariant AllDigits(trimmed[..i])
    {
      i := i + 1;
    }
    DigitPrefixAt(trimmed[..i], trimmed[i..]);
    assert trimmed == trimmed[..i] + trimmed[i..];
    if i == 0 {
      return None;
    }
    r := Scaled(ParseInt64(trimmed[..i]), UnitFactor(Upper(trimmed[i..])));
  }

  function MemoryMiB(q: string): Option<int> {
    var b := Bytes(q);
    if b.None? || b.value % MIB != 0 then None else Some(b.value / MIB)
  }

  /** Largest exact binary unit; bare bytes when there is none. */
  function HumanFromBytes(b: int): Option<string> {
    if b <= 0 then None
    else if b % TIB == 0 then Some(NatString(b / TIB) + "TiB")
    else if b % GIB == 0 then Some(NatString(b / GIB) + "GiB")
    else if b % MIB == 0 then Some(NatString(b / MIB) + "MiB")
    else if b % KIB == 0 then Some(NatString(b / KIB) + "KiB")
    else Some(NatString(b))
  }

  /** Adoption's rendering of a PVE memory value, an int64 count of MiB. */
  function PveMemoryToHuman(mib: int): Option<string> {
    if mib <= 0 then None else HumanFromBytes(Wrap64(mib * MIB))
  }

  lemma ScaledExact(k: nat, factor: int, b: int)
    requires 0 < factor && k * factor == b < TWO63
    ensures k < TWO63 && Scaled(Some(k), Some(factor)) == Some(b)
  {
    if b < k {
      assert k * factor - k == k * (factor - 1);
    }
  }

  /** What a numeral followed by a unit is read as. */
  lemma NumberThenUnit(num: string, unit: string)
    requires num != "" && AllDigits(num)
    requires unit != "" && !IsDigit(unit[0]) && !IsSpace(unit[|unit| - 1]) && !IsDigit(unit[|unit| - 1])
    ensures Bytes(num + unit) == Scaled(ParseInt64(num), UnitFactor(Upper(unit)))
  {
    var s := num + unit;
    assert IsDigit(s[0]) && s[|s| - 1] == unit[|unit| - 1];
    assert Trimmed(s);
    assert !AllDigits(s);
    DigitPrefixAt(num, unit);
    assert s[..|num|] == num && s[|num|..] == unit;
  }

  lemma BytesOfUnit(k: nat, unit: string, factor: int, b: int)
    requires unit != "" && !IsDigit(unit[0]) && !IsSpace(unit[|unit| - 1]) && !IsDigit(unit[|unit| - 1])
    requires UnitFactor(Upper(unit)) == Some(factor)
    requires 0 < factor && k * factor == b < TWO63
    ensures Bytes(NatString(k) + unit) == Some(b)
  {
    NumberThenUnit(NatString(k), unit);
    NatRoundTrip(k);
    ScaledExact(k, factor, b);
  }

  lemma UnitRoundTrip(b: nat, unit: string, factor: int)
    requires unit in {"TiB", "GiB", "MiB", "KiB"}
    requires UnitFactor(Upper(unit)) == Some(factor)
    requires 0 < factor && b % factor == 0 && b < TWO63
    ensures Bytes(NatString(b / factor) + unit) == Some(b)
  {
    assert b / factor * factor == b;
    assert b / factor >= 0;
    BytesOfUnit(b / factor, unit, factor, b);
  }

  lemma UnitNames()
    ensures UnitFactor(Upper("TiB")) == Some(TIB)
    ensures UnitFactor(Upper("GiB")) == Some(GIB)
    ensures UnitFactor(Upper("MiB")) == Some(MIB)
    ensures UnitFactor(Upper("KiB")) == Some(KIB)
  {
    assert Upper("TiB") == "TIB";
    assert Upper("GiB") == "GIB";
    assert Upper("MiB") == "MIB";
    assert Upper("KiB") == "KIB";
  }

  lemma BareRoundTrip(b: nat)
    requires b < TWO63
    ensures Bytes(NatString(b)) == Some(b)
  {
    NatRoundTrip(b);
    assert ParseInt64(NatString(b)) == Some(b);
  }

  /** Every positive int64 byte count survives rendering and parsing. */
  lemma HumanRoundTrip(b: int)
    requires 0 < b < TWO63
    ensures HumanFromBytes(b).Some? && Bytes(HumanFromBytes(b).value) == Some(b)
  {
    UnitNames();
    if b % TIB == 0 {
      UnitRoundTrip(b, "TiB", TIB);
    } else if b % GIB == 0 {
      UnitRoundTrip(b, "GiB", GIB);
    } else if b % MIB == 0 {
      UnitRoundTrip(b, "MiB", MIB);
    } else if b % KIB == 0 {
      UnitRoundTrip(b, "KiB", KIB);
    } else {
      BareRoundTrip(b);
    }
  }

  lemma MebibytesBack(b: int)
    requires 0 < b < TWO63
    ensures HumanFromBytes(b).Some?
    ensures MemoryMiB(HumanFromBytes(b).value) == if b % MIB != 0 then None else Some(b / MIB)
  {
    HumanRoundTrip(b);
  }

  lemma MebibytesFit(b: int, mib: int)
    requires b < TWO63
    requires mib < 0x800_0000_0000 ==> b == mib * MIB
    ensures b % MIB == 0 && b / MIB == mib <==> mib < 0x800_0000_0000
  {
  }

  /** The round trip of a memory value holds exactly below 2^43 MiB, where the byte count still
      fits an int64. */
  lemma MemoryRoundTrip(mib: int)
    requires 0 < mib < TWO63
    ensures (PveMemoryToHuman(mib).Some? && MemoryMiB(PveMemoryToHuman(mib).value) == Some(mib))
            <==> mib < 0x800_0000_0000
  {
    var b := Wrap64(mib * MIB);
    MebibytesFit(b, mib);
    var human := PveMemoryToHuman(mib);
    assert human == HumanFromBytes(b);
    if 0 < b {
      MebibytesBack(b);
    }
  }

  // ----- decimal numbers and GiB tokens -----

  function Pow10(n: nat): (p: int)
    ensures p > 0
  {
    if n == 0 then 1 else 10 * Pow10(n - 1)
  }

  /** Rounded-down quotient of natural numbers. */
  function Quotient(a: nat, b: int): (q: nat)
    requires b > 0
    ensures q * b <= a
  {
    assert a / b * b + a % b == a;
    a / b
  }

  /** Digits with at most one point among them, at least one digit. */
  predicate IsDecimal(s: string) {
    var i := IndexOf(s, '.');
    AllDigits(s[..i]) && (i < |s| ==> AllDigits(s[i + 1..])) && (if i < |s| then |s| > 1 else |s| > 0)
  }

  function Whole(s: string): string { s[..IndexOf(s, '.')] }

  function Fraction(s: string): string {
    var i := IndexOf(s, '.');
    if i < |s| then s[i + 1..] else ""
  }

  /** The value of a decimal number times `mult`, rounded down. */
  function DecimalTimes(s: string, mult: nat): (v: nat)
    requires IsDecimal(s)
  {
    assert AllDigits(Whole(s) + Fraction(s));
    Quotient(NatValue(Whole(s) + Fraction(s)) * mult, Pow10(|Fraction(s)|))
  }

  predicate IsPositive(s: string)
    requires IsDecimal(s)
  {
    assert AllDigits(Whole(s) + Fraction(s));
    NatValue(Whole(s) + Fraction(s)) > 0
  }

  /** PVE's size token: bare bytes, or a decimal with a binary suffix. */
  function PveSizeBytes(token: string): Option<int> {
    var s := TrimSpace(Upper(token));
    if s == "" then None
    else if ParseInt64(s).Some? then ParseInt64(s)
    else
      var mult := if HasSuffix(s, "T") then TIB else if HasSuffix(s, "G") then GIB
                  else if HasSuffix(s, "M") then MIB else if HasSuffix(s, "K") then KIB else 0;
      var mantissa := TrimSpace(s[..|s| - 1]);
      if mult == 0 || !IsDecimal(mantissa) then None else Some(DecimalTimes(mantissa, mult))
  }

  /** Digits of the binary fraction r / 2^30 after the decimal point. */
  function FractionDigits(r: nat, fuel: nat): (s: string)
    requires r < GIB
    ensures AllDigits(s)
    decreases fuel
  {
    if r == 0 || fuel == 0 then "" else [DigitChar(r * 10 / GIB)] + FractionDigits(r * 10 % GIB, fuel - 1)
  }

  function GiBString(bytes: int): (s: string)
    ensures IsDecimal(s)
    ensures forall i | 0 <= i < |s| :: IsDigit(s[i]) || s[i] == '.'
    ensures IsDigit(s[0]) && IndexOf(s, '.') > 0
  {
    var b := if bytes < 0 then 0 else bytes;
    var whole := NatString(b / GIB);
    if b % GIB == 0 then
      assert whole[..|whole|] == whole;
      whole
    else
      var frac := FractionDigits(b % GIB, 30);
      var s := whole + "." + frac;
      IndexOfAt(whole, '.', frac);
      assert s[..|whole|] == whole && s[|whole| + 1..] == frac;
      s
  }

  lemma Pow10Step(n: nat)
    ensures Pow10(n) == if n == 0 then 1 else 10 * Pow10(n - 1)
  {
  }

  lemma ShiftDigit(a: nat, p: int, f: nat, d: int)
    ensures 10 * (a * p + f) + d == a * (10 * p) + (10 * f + d)
  {
  }

  lemma {:induction false} NatValueConcat(a: string, b: string)
    requires AllDigits(a) && AllDigits(b)
    ensures AllDigits(a + b)
    ensures NatValue(a + b) == NatValue(a) * Pow10(|b|) + NatValue(b)
  {
    hide IsDigit, Pow10;
    Pow10Step(|b|);
    if b == "" {
      assert a + b == a;
    } else {
      var s, front := a + b, b[..|b| - 1];
      assert s[..|s| - 1] == a + front && s[|s| - 1] == b[|b| - 1];
      NatValueConcat(a, front);
      ShiftDigit(NatValue(a), Pow10(|front|), NatValue(front), DigitValue(b[|b| - 1]));
    }
  }

  lemma {:induction false} FractionExact(r: nat, fuel: nat)
    requires r < GIB && (r * Pow10(fuel)) % GIB == 0
    ensures NatValue(FractionDigits(r, fuel)) * GIB == r * Pow10(|FractionDigits(r, fuel)|)
    decreases fuel
  {
    if r != 0 && fuel != 0 {
      var d, r' := r * 10 / GIB, r * 10 % GIB;
      FractionStep(r, d, r', Pow10(fuel - 1));
      FractionExact(r', fuel - 1);
      var rest := FractionDigits(r', fuel - 1);
      NatValueConcat([DigitChar(d)], rest);
      assert NatValue([DigitChar(d)]) == d;
      FractionSum(r, d, r', NatValue(rest), Pow10(|rest|));
    }
  }

  lemma FractionStep(r: nat, d: int, r': int, p: int)
    requires r * 10 == d * GIB + r' && (r * (10 * p)) % GIB == 0
    ensures (r' * p) % GIB == 0
  {
    calc {
      r' * p;
      (r * 10 - d * GIB) * p;
      r * (10 * p) - GIB * (d * p);
    }
    MultiplesDiffer(r * (10 * p), d * p);
  }

  lemma FractionSum(r: nat, d: int, r': int, n: int, q: int)
    requires r * 10 == d * GIB + r' && n * GIB == r' * q
    ensures (d * q + n) * GIB == r * (10 * q)
  {
    calc {
      (d * q + n) * GIB;
      (d * GIB) * q + n * GIB;
      (d * GIB + r') * q;
      (r * 10) * q;
    }
  }

  lemma MultiplesDiffer(a: int, k: int)
    requires a % GIB == 0
    ensures (a - GIB * k) % GIB == 0
  {
    assert a == GIB * (a / GIB);
    assert a - GIB * k == GIB * (a / GIB - k);
  }

  /** The GiB number of a byte count denotes exactly that count. */
  lemma GiBStringExact(b: nat)
    ensures DecimalTimes(GiBString(b), GIB) == b
    ensures IsPositive(GiBString(b)) <==> b > 0
  {
    var whole, r := NatString(b / GIB), b % GIB;
    NatRoundTrip(b / GIB);
    if r == 0 {
      assert Whole(whole) + Fraction(whole) == whole;
      assert Pow10(0) == 1;
    } else {
      var frac := FractionDigits(r, 30);
      IndexOfAt(whole, '.', frac);
      var s := whole + "." + frac;
      assert s[..|whole|] == whole && s[|whole| + 1..] == frac;
      Pow10Thirty();
      MultipleOfGib(r);
      FractionExact(r, 30);
      NatValueConcat(whole, frac);
      WholePlusFraction(b, b / GIB, r, NatValue(frac), Pow10(|frac|));
    }
  }

  lemma WholePlusFraction(b: nat, w: nat, r: nat, n: nat, p: int)
    requires p > 0 && b == w * GIB + r && n * GIB == r * p
    ensures Quotient((w * p + n) * GIB, p) == b
    ensures w * p + n > 0 <==> b > 0
  {
    calc {
      (w * p + n) * GIB;
      (w * GIB) * p + n * GIB;
      (w * GIB + r) * p;
      b * p;
    }
    QuotientExact(b, p);
    if b > 0 {
      MulPositive(b, p);
    }
  }

  lemma MulPositive(a: int, b: int)
    requires a > 0 && b > 0
    ensures a * b > 0
  {
  }

  lemma QuotientExact(b: nat, p: int)
    requires p > 0
    ensures Quotient(b * p, p) == b
  {
    var q, m := b * p / p, b * p % p;
    assert q * p + m == b * p;
    assert (b - q) * p == m;
    QuotientUnique(b - q, m, p);
  }

  lemma QuotientUnique(k: int, m: int, p: int)
    requires k * p == m && 0 <= m < p
    ensures k == 0
  {
  }

  lemma MultipleOfGib(r: nat)
    requires Pow10(30) % GIB == 0
    ensures (r * Pow10(30)) % GIB == 0
  {
    var q := Pow10(30) / GIB;
    assert r * Pow10(30) == GIB * (r * q);
    MultiplesDiffer(0, -(r * q));
  }

  lemma Pow10Thirty()
    ensures Pow10(30) % GIB == 0
  {
    assert Pow10(10) == 10_000_000_000;
    assert Pow10(20) == 100_000_000_000_000_000_000;
    assert Pow10(30) == 1_000_000_000_000_000_000_000_000_000_000;
  }
}
