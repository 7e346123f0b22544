/** The exact headroom ratio (src/memory_plan.rs, `required_bytes_with_headroom`):
    a committed size times a binary64 factor, rounded up, in integers only. */
module Headroom {
  import opened Base
  import opened ChunkMath

  const U128_LIMIT: nat := 0x1_0000_0000_0000_0000_0000_0000_0000_0000
  const HIDDEN_BIT: nat := 0x10_0000_0000_0000

  function Pow2(n: nat): (r: nat)
    ensures r > 0
  {
    if n == 0 then 1 else 2 * Pow2(n - 1)
  }

  lemma {:induction false} Pow2Sum(a: nat, b: nat)
    ensures Pow2(a + b) == Pow2(a) * Pow2(b)
  {
    if a > 0 {
      Pow2Sum(a - 1, b);
      Pow2Next(a - 1);
      Pow2Next(a - 1 + b);
      hide Pow2;
      assert 2 * (Pow2(a - 1) * Pow2(b)) == (2 * Pow2(a - 1)) * Pow2(b);
    }
  }

  lemma {:induction false} Pow2Monotone(a: nat, b: nat)
    requires a <= b
    ensures Pow2(a) <= Pow2(b)
  {
    if a < b { Pow2Monotone(a, b - 1); }
  }

  lemma Pow2Times(a: nat, x: nat, b: nat, y: nat, c: nat)
    requires Pow2(a) == x && Pow2(b) == y && c == a + b
    ensures Pow2(c) == x * y
  {
    Pow2Sum(a, b);
  }

  lemma Pow2Next(n: nat)
    ensures Pow2(n + 1) == 2 * Pow2(n)
  {
  }

  lemma Pow2Four()
    ensures Pow2(4) == 16
  {
  }

  lemma Pow2Values()
    ensures Pow2(52) == HIDDEN_BIT && Pow2(64) == U64_MAX + 1 && Pow2(128) == U128_LIMIT
  {
    hide Pow2;
    Pow2Four();
    Pow2Times(4, 0x10, 4, 0x10, 8);
    Pow2Times(8, 0x100, 8, 0x100, 16);
    Pow2Times(16, 0x1_0000, 16, 0x1_0000, 32);
    Pow2Times(32, 0x1_0000_0000, 16, 0x1_0000, 48);
    Pow2Times(48, 0x1_0000_0000_0000, 4, 0x10, 52);
    Pow2Times(32, 0x1_0000_0000, 32, 0x1_0000_0000, 64);
    Pow2Times(64, 0x1_0000_0000_0000_0000, 64, 0x1_0000_0000_0000_0000, 128);
  }

  // ---- binary64, section 3.4 of IEEE 754-2019 ----

  function Fraction(bits: u64): nat { bits % HIDDEN_BIT }

  function ExponentField(bits: u64): nat { (bits / HIDDEN_BIT) % 2048 }

  function Negative(bits: u64): bool { bits / HIDDEN_BIT >= 2048 }

  predicate IsFinite(bits: u64) { ExponentField(bits) != 2047 }

  /** The value is Significand * 2^(Scale - 1075); a field of zero means a
      subnormal, scaled like field one and without the hidden bit. */
  function Significand(bits: u64): nat {
    if ExponentField(bits) == 0 then Fraction(bits) else HIDDEN_BIT + Fraction(bits)
  }

  function Scale(bits: u64): nat { Max(ExponentField(bits), 1) }

  function Numerator(bits: u64): nat {
    if Scale(bits) >= 1075 then Significand(bits) * Pow2(Scale(bits) - 1075) else Significand(bits)
  }

  function Denominator(bits: u64): (d: nat)
    ensures d > 0
  {
    if Scale(bits) >= 1075 then 1 else Pow2(1075 - Scale(bits))
  }

  /** A finite factor of at least one. */
  predicate AtLeastOne(bits: u64) {
    IsFinite(bits) && !Negative(bits) && Numerator(bits) >= Denominator(bits)
  }

  lemma AtLeastOneField(bits: u64)
    ensures AtLeastOne(bits) <==> !Negative(bits) && 1023 <= ExponentField(bits) <= 2046
  {
    Pow2Values();
    Pow2Next(52);
    hide Pow2;
    var e := Scale(bits);
    hide Fraction, ExponentField;
    if e < 1023 {
      Pow2Monotone(53, 1075 - e);
    } else if e < 1075 {
      Pow2Monotone(1075 - e, 52);
    } else {
      assert Significand(bits) * Pow2(e - 1075) >= 1;
    }
  }

  // ---- the exact requirement ----

  /** The least integer that is not below `a / d`. */
  function CeilDiv(a: nat, d: nat): (q: nat)
    requires d > 0
    ensures q * d >= a && (q > 0 ==> (q - 1) * d < a)
  {
    a / d + if a % d != 0 then 1 else 0
  }

  lemma Scaled(x: int, y: int, c: nat)
    requires c > 0
    ensures x <= y <==> x * c <= y * c
  {
    var k := y - x;
    assert y * c - x * c == k * c;
    Multiple(k, c);
    Multiple(-k, c);
  }

  lemma Regroup(x: int, y: int, z: int)
    ensures x * (y * z) == (x * y) * z
  {
  }

  lemma CeilIsLeast(a: nat, d: nat, q: nat)
    requires d > 0 && q * d >= a && (q > 0 ==> (q - 1) * d < a)
    ensures q == CeilDiv(a, d)
  {
    var c: int := CeilDiv(a, d);
    Scaled(q, c - 1, d);
    Scaled(c, q - 1, d);
  }

  /** Cancelling a common factor changes nothing. */
  lemma CeilCancels(a: nat, d: nat, common: nat)
    requires d > 0 && common > 0
    ensures d * common > 0 && CeilDiv(a * common, d * common) == CeilDiv(a, d)
  {
    var q := CeilDiv(a, d);
    var ac, dc := a * common, d * common;
    Scaled(1, d, common);
    Regroup(q, d, common);
    Regroup(q - 1, d, common);
    Scaled(a, q * d, common);
    Scaled(a, (q - 1) * d, common);
    hide CeilDiv;
    assert q * dc >= ac;
    assert q > 0 ==> (q - 1) * dc < ac;
    CeilIsLeast(ac, dc, q);
  }

  function Required(committed: nat, bits: u64): nat { CeilDiv(committed * Numerator(bits), Denominator(bits)) }

  // ---- 128-bit arithmetic ----

  function TrailingZeros(n: nat): nat
    requires n > 0
  {
    if n % 2 == 1 then 0 else TrailingZeros(n / 2) + 1
  }

  lemma {:induction false} TrailingZerosDivide(n: nat)
    requires n > 0
    ensures n % Pow2(TrailingZeros(n)) == 0
  {
    if n % 2 == 0 {
      TrailingZerosDivide(n / 2);
      HalvesDivide(n, TrailingZeros(n / 2));
    }
  }

  lemma HalvesDivide(n: nat, t: nat)
    requires n % 2 == 0 && (n / 2) % Pow2(t) == 0
    ensures n % Pow2(t + 1) == 0
  {
    var p, k := Pow2(t), (n / 2) / Pow2(t);
    assert n == 2 * (k * p) == k * (2 * p);
    DivisibleBy(k, 2 * p);
  }

  lemma DivisibleBy(k: nat, p: nat)
    requires p > 0
    ensures (k * p) % p == 0 && (k * p) / p == k
  {
    DivUnique(k * p, k, 0, p);
  }

  function CheckedShl(x: nat, shift: nat): Option<nat> {
    if shift < 128 then Some(x * Pow2(shift) % U128_LIMIT) else None
  }

  lemma FactorDivides(n: nat, a: nat, b: nat, k: nat)
    requires b > 0 && n == k * (a * b)
    ensures n % b == 0
  {
    Regroup(k, a, b);
    DivisibleBy(k * a, b);
  }

  lemma Quotient(n: nat, m: nat)
    requires m > 0
    ensures n == (n / m) * m + n % m && n % m < m
  {
    DivParts(n, m);
  }

  lemma Divides(n: nat, t: nat, c: nat)
    requires c <= t && n % Pow2(t) == 0
    ensures n % Pow2(c) == 0
  {
    Quotient(n, Pow2(t));
    Pow2Sum(t - c, c);
    FactorDivides(n, Pow2(t - c), Pow2(c), n / Pow2(t));
  }

  lemma Reduced(committed: nat, n: nat, p: nat, d: nat)
    requires p > 0 && d > 0
    ensures d * p > 0 && CeilDiv(committed * n, d) == CeilDiv(committed * (n * p), d * p)
  {
    Regroup(committed, n, p);
    CeilCancels(committed * n, d, p);
  }

  /** Shifting both sides of the ratio right by a common power of two changes
      nothing. */
  lemma ReducedRatio(committed: nat, n: nat, shift: nat, common: nat)
    requires common <= shift && n % Pow2(common) == 0
    ensures CeilDiv(committed * (n / Pow2(common)), Pow2(shift - common)) == CeilDiv(committed * n, Pow2(shift))
  {
    var q := n / Pow2(common);
    Quotient(n, Pow2(common));
    Pow2Sum(shift - common, common);
    hide Pow2, CeilDiv;
    Reduced(committed, q, Pow2(common), Pow2(shift - common));
  }

  lemma Distribute(a: int, b: int, s: int)
    ensures (a + b) * s == a * s + b * s
  {
  }

  lemma LowPart(high: nat, low: nat, p: nat, s: nat)
    requires low < p && s > 0
    ensures p * s > 0 && ((high * p + low) * s) % (p * s) == low * s
  {
    var m := p * s;
    Distribute(high * p, low, s);
    Regroup(high, p, s);
    Scaled(low + 1, p, s);
    Distribute(low, 1, s);
    DivUnique((high * p + low) * s, high, low * s, m);
  }

  /** The bits a 128-bit shift keeps. */
  lemma ShiftKeepsLow(n: nat, shift: nat)
    requires shift < 128
    ensures n * Pow2(shift) % U128_LIMIT == (n % Pow2(128 - shift)) * Pow2(shift)
  {
    Pow2Values();
    hide Pow2;
    var p := Pow2(128 - shift);
    Quotient(n, p);
    Pow2Sum(128 - shift, shift);
    LowPart(n / p, n % p, p, Pow2(shift));
  }

  lemma SmallModulo(n: nat, p: nat)
    requires n < p
    ensures n % p == n
  {
  }

  /** The significand is non-zero below bit 128 after every shift up to 75. */
  lemma ShortShiftKeepsAll(n: nat, shift: nat)
    requires shift <= 75 && n < Pow2(53)
    ensures n % Pow2(128 - shift) == n
  {
    Pow2Monotone(53, 128 - shift);
    SmallModulo(n, Pow2(128 - shift));
  }

  // ---- the operation ----

  datatype Error = BadFactor | RatioOverflow | RequirementOverflow

  /** The binary exponent of the significand's last bit. */
  function Shift(bits: u64): int { ExponentField(bits) as int - 1075 }

  /** A shift of 76 to 127 that pushes every set bit of the significand out of the
      128-bit numerator. */
  predicate LosesAll(bits: u64) {
    76 <= Shift(bits) <= 127 && Significand(bits) % Pow2(128 - Shift(bits)) == 0
  }

  /** What the shifted numerator makes of the requirement. */
  lemma UpwardShift(committed: u64, bits: u64, numerator: nat)
    requires AtLeastOne(bits) && 0 <= Shift(bits) < 128
    requires CheckedShl(Significand(bits), Shift(bits)) == Some(numerator)
    ensures Required(committed, bits) == committed * Numerator(bits)
    ensures LosesAll(bits) ==> numerator == 0
    ensures !LosesAll(bits) && Shift(bits) <= 75 ==> numerator == Numerator(bits)
    ensures !LosesAll(bits) && Shift(bits) > 75 && committed > 0 ==>
      committed * numerator > U64_MAX && Required(committed, bits) > U64_MAX
  {
    var n, shift := Significand(bits), Shift(bits);
    UpwardRequired(committed, bits);
    UpwardShape(bits);
    hide Pow2, Significand, Shift, CeilDiv, Required, Numerator, CheckedShl;
    Shifted(n, shift, numerator);
    if shift > 75 && committed > 0 {
      LongShift(committed, n, shift);
    }
  }

  lemma UpwardRequired(committed: u64, bits: u64)
    requires AtLeastOne(bits) && 0 <= Shift(bits) < 128
    ensures Numerator(bits) == Significand(bits) * Pow2(Shift(bits))
    ensures Required(committed, bits) == committed * Numerator(bits)
  {
    hide Pow2, Significand, CeilDiv;
    CeilOfWhole(committed * Numerator(bits));
  }

  /** What a 128-bit shift keeps. */
  lemma Shifted(n: nat, shift: nat, numerator: nat)
    requires shift < 128 && CheckedShl(n, shift) == Some(numerator)
    ensures numerator == (n % Pow2(128 - shift)) * Pow2(shift)
    ensures n % Pow2(128 - shift) == 0 ==> numerator == 0
    ensures n < Pow2(53) && shift <= 75 ==> numerator == n * Pow2(shift)
  {
    hide Pow2;
    ShiftKeepsLow(n, shift);
    if n < Pow2(53) && shift <= 75 { ShortShiftKeepsAll(n, shift); }
  }

  lemma UpwardShape(bits: u64)
    requires AtLeastOne(bits) && 0 <= Shift(bits) < 128
    ensures 0 < Significand(bits) < Pow2(53)
  {
    AtLeastOneField(bits);
    Pow2Values();
    Pow2Next(52);
  }

  /** Beyond 64 bits any bit that is left makes the requirement too large. */
  lemma LongShift(committed: nat, n: nat, shift: nat)
    requires committed > 0 && n > 0 && 75 < shift < 128
    ensures committed * (n * Pow2(shift)) > U64_MAX
    ensures n % Pow2(128 - shift) > 0 ==> committed * (n % Pow2(128 - shift) * Pow2(shift)) > U64_MAX
  {
    Pow2Values();
    Pow2Monotone(64, shift);
    hide Pow2;
    if n % Pow2(128 - shift) > 0 { LargeProduct(committed, n % Pow2(128 - shift), Pow2(shift)); }
    LargeProduct(committed, n, Pow2(shift));
  }

  lemma CeilOfWhole(a: nat)
    ensures CeilDiv(a, 1) == a
  {
    CeilIsLeast(a, 1, a);
  }

  lemma LargeProduct(a: nat, b: nat, p: nat)
    requires a > 0 && b > 0 && p > U64_MAX
    ensures a * (b * p) > U64_MAX
  {
    Scaled(1, b, p);
    Scaled(1, a, b * p);
  }

  /** The factor of a reduced ratio is what it was, and fits its 128 bits. */
  lemma DownwardShift(committed: u64, n: nat, shift: nat, common: nat)
    requires 0 < n < 2 * HIDDEN_BIT && shift <= 52 && common == Min(TrailingZeros(n), shift)
    ensures CheckedShl(1, shift - common) == Some(Pow2(shift - common))
    ensures committed * (n / Pow2(common)) < U128_LIMIT
    ensures CeilDiv(committed * (n / Pow2(common)), Pow2(shift - common)) == CeilDiv(committed * n, Pow2(shift))
  {
    hide Pow2, CeilDiv, TrailingZeros;
    assert n % Pow2(common) == 0 by {
      TrailingZerosDivide(n);
      Divides(n, TrailingZeros(n), common);
    }
    ReducedRatio(committed, n, shift, common);
    assert committed * (n / Pow2(common)) < U128_LIMIT by {
      QuotientBelow(n, Pow2(common));
      SmallProduct(committed, n / Pow2(common));
    }
    assert CheckedShl(1, shift - common) == Some(Pow2(shift - common)) by {
      Pow2Values();
      Pow2Monotone(shift - common, 52);
      SmallModulo(Pow2(shift - common), U128_LIMIT);
    }
  }

  lemma QuotientBelow(n: nat, p: nat)
    requires p > 0
    ensures n / p <= n
  {
    Quotient(n, p);
    Scaled(1, p, n / p + 1);
    Distribute(n / p, 1, p);
  }

  lemma SmallProduct(a: nat, b: nat)
    requires a <= U64_MAX && b < 2 * HIDDEN_BIT
    ensures a * b < U128_LIMIT
  {
    assert a * b <= U64_MAX * b by { if b > 0 { Scaled(a, U64_MAX, b); } }
  }

  /** The requirement as the ratio `numerator / denominator` gives it. */
  function Ratio(committed: nat, numerator: nat, denominator: nat): nat
    requires denominator > 0
  {
    CeilDiv(committed * numerator, denominator)
  }

  lemma SmallShl(shift: nat)
    requires shift <= 52
    ensures CheckedShl(1, shift) == Some(Pow2(shift))
  {
    Pow2Values();
    hide Pow2;
    Pow2Monotone(shift, 52);
    SmallModulo(Pow2(shift), U128_LIMIT);
  }

  /** Below one unit per bit, the reduced ratio is the requirement. */
  lemma Downward(committed: u64, bits: u64, n: nat, shift: nat, common: nat)
    requires 0 < n && common <= shift && common == Min(TrailingZeros(n), shift)
    requires AtLeastOne(bits) && n == HIDDEN_BIT + Fraction(bits) && shift > 0 && ExponentField(bits) + shift == 1075
    ensures shift <= 52 && !LosesAll(bits)
    ensures Ratio(committed, n / Pow2(common), Pow2(shift - common)) == Required(committed, bits)
    ensures n / Pow2(common) <= n
  {
    AtLeastOneField(bits);
    hide AtLeastOne, CeilDiv, Pow2, TrailingZeros, CheckedShl;
    DownwardShift(committed, n, shift, common);
    QuotientBelow(n, Pow2(common));
  }

  /** Past it, the shifted significand is the ratio, unless bits were lost. */
  lemma Upward(committed: u64, bits: u64, numerator: nat)
    requires AtLeastOne(bits) && 0 <= Shift(bits) < 128
    requires CheckedShl(HIDDEN_BIT + Fraction(bits), Shift(bits)) == Some(numerator)
    ensures LosesAll(bits) ==> Ratio(committed, numerator, 1) == 0
    ensures !LosesAll(bits) && Ratio(committed, numerator, 1) != Required(committed, bits) ==>
      Ratio(committed, numerator, 1) > U64_MAX && Required(committed, bits) > U64_MAX
  {
    AtLeastOneField(bits);
    assert Significand(bits) == HIDDEN_BIT + Fraction(bits);
    UpwardShift(committed, bits, numerator);
    CeilOfWhole(committed * numerator);
    hide AtLeastOne, CeilDiv, Pow2, CheckedShl, Numerator, Required;
    if committed == 0 { CeilOfWhole(0); }
  }

  /** The product, its quotient rounded up, and both overflow checks. */
  method RoundUp(committed: u64, numerator: nat, denominator: nat) returns (r: Result<u64, Error>)
    requires denominator > 0 && (denominator == 1 || numerator < 2 * HIDDEN_BIT)
    ensures r == if Ratio(committed, numerator, denominator) <= U64_MAX
                 then Ok(Ratio(committed, numerator, denominator))
                 else Err(RequirementOverflow)
  {
    var product := committed * numerator;
    if product >= U128_LIMIT {
      if denominator == 1 { CeilOfWhole(product); } else { SmallProduct(committed, numerator); }
      return Err(RequirementOverflow);
    }
    var required := CeilDiv(product, denominator);
    if required > U64_MAX {
      return Err(RequirementOverflow);
    }
    return Ok(required);
  }

  /** Exact whenever it answers, except that a factor whose shifted numerator
      loses every bit is answered with zero.  It answers exactly when the
      requirement fits 64 bits and the shift 128. */
  method RequiredBytes(committed: u64, bits: u64) returns (r: Result<u64, Error>)
    ensures r == Err(BadFactor) <==> !AtLeastOne(bits)
    ensures AtLeastOne(bits) ==>
      (r.Ok? <==> Shift(bits) < 128 && (LosesAll(bits) || Required(committed, bits) <= U64_MAX))
    ensures r.Ok? ==> r.value == if LosesAll(bits) then 0 else Required(committed, bits)
  {
    hide AtLeastOne, TrailingZeros, Pow2, LosesAll, Required, Ratio, CheckedShl, Fraction, ExponentField;
    if !AtLeastOne(bits) {
      return Err(BadFactor);
    }
    AtLeastOneField(bits);
    FractionBelow(bits);
    var exponent := ExponentField(bits) - 1075;
    var numerator := HIDDEN_BIT + Fraction(bits);
    if exponent < 0 {
      var shift := -exponent;
      var common := Min(TrailingZeros(numerator), shift);
      Downward(committed, bits, numerator, shift, common);
      SmallShl(shift - common);
      numerator := numerator / Pow2(common);
      shift := shift - common;
      var denominator := CheckedShl(1, shift).value;
      r := RoundUp(committed, numerator, denominator);
    } else {
      var shifted := CheckedShl(numerator, exponent);
      ShlDefined(numerator, exponent);
      if shifted.None? {
        return Err(RatioOverflow);
      }
      Upward(committed, bits, shifted.value);
      r := RoundUp(committed, shifted.value, 1);
    }
  }

  lemma FractionBelow(bits: u64)
    ensures Fraction(bits) < HIDDEN_BIT
  {
  }

  lemma ShlDefined(n: nat, shift: nat)
    ensures CheckedShl(n, shift).Some? <==> shift < 128
  {
  }

  /** A factor below 2^128 loses nothing, so its answers are exact. */
  lemma ExactBelow128Bits(bits: u64)
    requires AtLeastOne(bits) && Numerator(bits) < U128_LIMIT * Denominator(bits)
    ensures !LosesAll(bits)
  {
    if Shift(bits) > 75 {
      AtLeastOneField(bits);
      Pow2Values();
      Pow2Sum(52, Shift(bits));
      hide Pow2;
      Pow2Monotone(128, 52 + Shift(bits));
      Scaled(Pow2(52), Significand(bits), Pow2(Shift(bits)));
      assert false;
    }
  }

  /** At 2^128 itself one byte would need 2^128 bytes, and the answer is zero. */
  lemma ZeroAt128Bits()
    ensures var factor := (1023 + 128) * HIDDEN_BIT;
            AtLeastOne(factor) && LosesAll(factor) && Required(1, factor) == U128_LIMIT
  {
    var factor: u64 := (1023 + 128) * HIDDEN_BIT;
    AtLeastOneField(factor);
    assert Significand(factor) == HIDDEN_BIT && Shift(factor) == 76;
    Pow2Values();
    CeilOfWhole(U128_LIMIT);
    Pow2Sum(52, 76);
    hide Pow2, CeilDiv;
    assert Pow2(128 - 76) == HIDDEN_BIT;
    assert Numerator(factor) == HIDDEN_BIT * Pow2(76);
  }
}
