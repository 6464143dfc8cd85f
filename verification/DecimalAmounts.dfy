/** Exact decimal money: a 128-bit coefficient over a power of ten, its checked addition and
    its rounding to cents. The reference is arithmetic on real numbers. */
module DecimalAmounts {
  import opened Wrappers
  import opened Digits

  const I128Max: int := 0x7fff_ffff_ffff_ffff_ffff_ffff_ffff_ffff
  const I128Min: int := -0x8000_0000_0000_0000_0000_0000_0000_0000
  const I64Max: int := 0x7fff_ffff_ffff_ffff
  const I64Min: int := -0x8000_0000_0000_0000

  predicate InI128(n: int) { I128Min <= n <= I128Max }
  predicate InI64(n: int) { I64Min <= n <= I64Max }

  datatype Decimal = Decimal(coefficient: int, scale: nat)

  const Zero := Decimal(0, 0)

  /** What an amount is worth. */
  ghost function Worth(d: Decimal): real { d.coefficient as real / Pow10(d.scale) as real }

  /** No trailing zero after the point, and zero only as `0`. */
  predicate Canonical(d: Decimal) {
    InI128(d.coefficient) && (d.coefficient == 0 ==> d.scale == 0) && (d.scale > 0 ==> d.coefficient % 10 != 0)
  }

  // ---- Powers of ten ----

  /** `checked_pow`: ten to the 38th is the last that fits. */
  function PowerOfTen(exponent: nat): Result<int> {
    if InI128(Pow10(exponent)) then Success(Pow10(exponent)) else Failure
  }

  lemma {:induction false} Pow10Adds(a: nat, b: nat)
    ensures Pow10(a + b) == Pow10(a) * Pow10(b)
    decreases b
  {
    if b > 0 {
      Pow10Adds(a, b - 1);
      assert Pow10(a + b) == 10 * Pow10(a + (b - 1));
      assert 10 * (Pow10(a) * Pow10(b - 1)) == Pow10(a) * (10 * Pow10(b - 1));
    }
  }

  lemma Pow10Table()
    ensures Pow10(0) == 1 && Pow10(1) == 10 && Pow10(2) == 100 && Pow10(3) == 1000
  {}

  lemma {:induction false} Pow10Grows(a: nat, b: nat)
    requires a <= b
    ensures Pow10(a) <= Pow10(b)
    decreases b
  {
    if a < b { Pow10Grows(a, b - 1); }
  }

  lemma Pow10Of38()
    ensures Pow10(38) == 100_000_000_000_000_000_000_000_000_000_000_000_000
  {
    Pow10Table();
    Pow10Adds(3, 3);
    Pow10Adds(6, 6);
    Pow10Adds(12, 6);
    Pow10Adds(18, 18);
    Pow10Adds(36, 2);
  }

  lemma PowerOfTenFits(exponent: nat)
    ensures PowerOfTen(exponent).Success? <==> exponent <= 38
  {
    Pow10Of38();
    if exponent <= 38 { Pow10Grows(exponent, 38); } else { Pow10Grows(39, exponent); }
  }

  // ---- The unique canonical form ----

  lemma WorthScaled(d: Decimal, k: nat)
    ensures Worth(d) == (d.coefficient * Pow10(k)) as real / Pow10(d.scale + k) as real
  {
    Pow10Adds(d.scale, k);
    Cancels(d.coefficient, Pow10(d.scale), Pow10(k));
  }

  lemma Cancels(c: int, p: int, q: int)
    requires p > 0 && q > 0
    ensures c as real / p as real == (c * q) as real / (p * q) as real
  {
    var x, y := c as real / p as real, (c * q) as real / (p * q) as real;
    assert x * p as real == c as real;
    assert y * (p * q) as real == (c * q) as real;
    assert (p * q) as real == p as real * q as real && (c * q) as real == c as real * q as real;
    assert (x - y) * (p as real * q as real) == 0.0;
  }

  /** Equal worth and canonical form leave one representation. */
  lemma CanonicalUnique(a: Decimal, b: Decimal)
    requires Canonical(a) && Canonical(b) && Worth(a) == Worth(b)
    ensures a == b
  {
    if a.scale < b.scale {
      ShorterWins(a, b);
    } else {
      ShorterWins(b, a);
    }
  }

  lemma ShorterWins(a: Decimal, b: Decimal)
    requires Canonical(a) && Canonical(b) && Worth(a) == Worth(b) && a.scale <= b.scale
    ensures a == b
  {
    var k := b.scale - a.scale;
    WorthScaled(a, k);
    SameOver(a.coefficient * Pow10(k), b.coefficient, Pow10(b.scale));
    assert b.coefficient == a.coefficient * Pow10(k);
    TenDivides(a.coefficient, k);
  }

  lemma TenDivides(c: int, k: nat)
    ensures if k == 0 then c * Pow10(k) == c else c * Pow10(k) % 10 == 0
  {
    if k > 0 {
      TenOut(c, Pow10(k - 1));
      Multiple(c * Pow10(k - 1));
      assert Pow10(k) == 10 * Pow10(k - 1);
    }
  }

  lemma TenOut(c: int, p: int)
    ensures c * (10 * p) == 10 * (c * p)
  {}

  lemma Multiple(n: int)
    ensures 10 * n % 10 == 0
  {}

  lemma SameOver(a: int, b: int, p: int)
    requires p > 0 && a as real / p as real == b as real / p as real
    ensures a == b
  {
    assert a as real == a as real / p as real * p as real;
  }

  // ---- new ----

  /** Strips trailing zeros after the point. */
  function Normal(coefficient: int, scale: nat): (d: Decimal)
    ensures d.scale <= scale
    ensures InI128(coefficient) ==> Canonical(d)
    decreases scale
  {
    if coefficient == 0 then Zero
    else if scale > 0 && coefficient % 10 == 0 then Normal(coefficient / 10, scale - 1)
    else Decimal(coefficient, scale)
  }

  lemma {:induction false} NormalKeepsWorth(coefficient: int, scale: nat)
    ensures Worth(Normal(coefficient, scale)) == Worth(Decimal(coefficient, scale))
    decreases scale
  {
    if coefficient != 0 && scale > 0 && coefficient % 10 == 0 {
      NormalKeepsWorth(coefficient / 10, scale - 1);
      WorthScaled(Decimal(coefficient / 10, scale - 1), 1);
    }
  }

  method New(coefficient: int, scale: nat) returns (d: Decimal)
    requires InI128(coefficient)
    ensures Canonical(d) && Worth(d) == Worth(Decimal(coefficient, scale))
    ensures d == Normal(coefficient, scale)
  {
    if coefficient == 0 {
      NormalKeepsWorth(coefficient, scale);
      return Zero;
    }
    var c, s := coefficient, scale;
    while s > 0 && c % 10 == 0
      invariant c != 0 && InI128(c) && Normal(c, s) == Normal(coefficient, scale)
    {
      c := c / 10;
      s := s - 1;
    }
    d := Decimal(c, s);
    NormalKeepsWorth(coefficient, scale);
  }

  // ---- checked_add ----

  function CheckedMul(a: int, b: Result<int>): Result<int> {
    if b.Success? && InI128(a * b.value) then Success(a * b.value) else Failure
  }

  function CheckedAdd(a: Decimal, b: Decimal): Result<Decimal> {
    if a.coefficient == 0 then Success(b)
    else if b.coefficient == 0 then Success(a)
    else
      var scale := if a.scale > b.scale then a.scale else b.scale;
      var left := CheckedMul(a.coefficient, PowerOfTen(scale - a.scale));
      var right := CheckedMul(b.coefficient, PowerOfTen(scale - b.scale));
      if left.Failure? || right.Failure? || !InI128(left.value + right.value) then Failure
      else Success(Normal(left.value + right.value, scale))
  }

  /** A coefficient moved to a finer scale, with no width limit. */
  function Aligned(d: Decimal, scale: nat): int
    requires d.scale <= scale
  {
    d.coefficient * Pow10(scale - d.scale)
  }

  lemma AlignedWorth(d: Decimal, scale: nat)
    requires d.scale <= scale
    ensures Worth(d) == Aligned(d, scale) as real / Pow10(scale) as real
  {
    WorthScaled(d, scale - d.scale);
  }

  lemma MulFits(d: Decimal, scale: nat)
    requires d.scale <= scale && d.coefficient != 0
    ensures CheckedMul(d.coefficient, PowerOfTen(scale - d.scale)) ==
            if InI128(Aligned(d, scale)) then Success(Aligned(d, scale)) else Failure
  {
    AtLeast(d.coefficient, Pow10(scale - d.scale));
    PowerNotMinimum(scale - d.scale);
    hide Pow10;
  }

  lemma AtLeast(c: int, p: int)
    requires p >= 1
    ensures (c > 0 ==> c * p >= p) && (c < 0 ==> c * p <= -p)
  {}

  /** No power of ten is exactly the size of the smallest coefficient. */
  lemma PowerNotMinimum(k: nat)
    ensures Pow10(k) != -I128Min
  {
    if k > 0 { Multiple(Pow10(k - 1)); }
  }

  /** The sum is exact and canonical; it fails exactly when an aligned coefficient or their sum
      leaves 128 bits. */
  lemma AddIsExact(a: Decimal, b: Decimal)
    requires Canonical(a) && Canonical(b)
    ensures var r := CheckedAdd(a, b);
            var scale := if a.scale > b.scale then a.scale else b.scale;
      && (r.Success? ==> Canonical(r.value) && Worth(r.value) == Worth(a) + Worth(b))
      && (r.Failure? <==>
            (a.coefficient != 0 && b.coefficient != 0
             && !(InI128(Aligned(a, scale)) && InI128(Aligned(b, scale)) && InI128(Aligned(a, scale) + Aligned(b, scale)))))
  {
    var scale := if a.scale > b.scale then a.scale else b.scale;
    hide PowerOfTen, CheckedMul, InI128;
    if a.coefficient == 0 || b.coefficient == 0 {
      ZeroWorth(a);
      ZeroWorth(b);
    } else {
      MulFits(a, scale);
      MulFits(b, scale);
      AlignedWorth(a, scale);
      AlignedWorth(b, scale);
      hide Worth, Aligned;
      var sum := Aligned(a, scale) + Aligned(b, scale);
      NormalKeepsWorth(sum, scale);
      SumOver(Aligned(a, scale), Aligned(b, scale), scale);
    }
  }

  lemma ZeroWorth(d: Decimal)
    ensures d.coefficient == 0 ==> Worth(d) == 0.0
  {}

  lemma SumOver(x: int, y: int, scale: nat)
    ensures Worth(Decimal(x + y, scale)) == x as real / Pow10(scale) as real + y as real / Pow10(scale) as real
  {}

  lemma AddCommutes(a: Decimal, b: Decimal)
    requires Canonical(a) && Canonical(b)
    ensures CheckedAdd(a, b) == CheckedAdd(b, a)
  {
    hide CheckedAdd, Worth, InI128, Canonical;
    AddIsExact(a, b);
    AddIsExact(b, a);
    if CheckedAdd(a, b).Success? && CheckedAdd(b, a).Success? {
      CanonicalUnique(CheckedAdd(a, b).value, CheckedAdd(b, a).value);
    }
  }

  /** Both groupings agree whenever both succeed. */
  lemma AddAssociates(a: Decimal, b: Decimal, c: Decimal)
    requires Canonical(a) && Canonical(b) && Canonical(c)
    requires CheckedAdd(a, b).Success? && CheckedAdd(b, c).Success?
    requires CheckedAdd(CheckedAdd(a, b).value, c).Success? && CheckedAdd(a, CheckedAdd(b, c).value).Success?
    ensures CheckedAdd(CheckedAdd(a, b).value, c) == CheckedAdd(a, CheckedAdd(b, c).value)
  {
    hide CheckedAdd, Worth, Canonical, Aligned, InI128;
    AddIsExact(a, b);
    AddIsExact(b, c);
    AddIsExact(CheckedAdd(a, b).value, c);
    AddIsExact(a, CheckedAdd(b, c).value);
    CanonicalUnique(CheckedAdd(CheckedAdd(a, b).value, c).value, CheckedAdd(a, CheckedAdd(b, c).value).value);
  }

  /** One grouping can fail where the other succeeds. */
  lemma GroupingMatters()
    ensures var a, b := Decimal(I128Max, 0), Decimal(-1, 0);
      && Canonical(a) && Canonical(b)
      && CheckedAdd(a, a).Failure? && CheckedAdd(a, b).Success?
      && CheckedAdd(CheckedAdd(a, b).value, Decimal(1, 0)) == Success(a)
      && CheckedAdd(a, Decimal(1, 0)).Failure?
  {
    Pow10Table();
  }

  // ---- When addition cannot fail ----

  function Magnitude(a: int): nat { if a < 0 then -a else a }

  lemma AlignedFiner(d: Decimal, scale: nat, k: nat)
    requires d.scale <= scale <= k
    ensures Aligned(d, k) == Aligned(d, scale) * Pow10(k - scale)
    ensures Magnitude(Aligned(d, scale)) <= Magnitude(Aligned(d, k))
  {
    Pow10Adds(scale - d.scale, k - scale);
    hide Pow10;
    Regroups(d.coefficient, Pow10(scale - d.scale), Pow10(k - scale));
    Larger(Aligned(d, scale), Pow10(k - scale));
  }

  lemma Regroups(c: int, p: int, q: int)
    ensures c * (p * q) == c * p * q
  {}

  lemma Larger(n: int, p: nat)
    requires p >= 1
    ensures Magnitude(n) <= Magnitude(n * p)
  {
    AtLeast(p, Magnitude(n) + 1);
    Signs(n, p);
  }

  lemma Signs(n: int, p: nat)
    requires p >= 1
    ensures Magnitude(n * p) == Magnitude(n) * p && Magnitude(n) * p >= Magnitude(n)
  {
    if n < 0 { assert -n * p == -(n * p); }
    assert Magnitude(n) * p == Magnitude(n) + Magnitude(n) * (p - 1);
    Products(Magnitude(n), p - 1);
  }

  lemma Products(m: nat, n: nat)
    ensures m * n >= 0
  {}

  lemma {:induction false} NormalAligned(coefficient: int, scale: nat, k: nat)
    requires scale <= k
    ensures Aligned(Normal(coefficient, scale), k) == coefficient * Pow10(k - scale)
    decreases scale
  {
    if coefficient != 0 && scale > 0 && coefficient % 10 == 0 {
      NormalAligned(coefficient / 10, scale - 1, k);
      Regroups(coefficient / 10, 10, Pow10(k - scale));
      assert Pow10(k - (scale - 1)) == 10 * Pow10(k - scale);
    }
  }

  /** Amounts whose sizes, at one common scale, together fit 128 bits add without failure, and
      the sum is no larger than they are. */
  lemma SmallAddsFit(a: Decimal, b: Decimal, k: nat)
    requires Canonical(a) && Canonical(b) && a.scale <= k && b.scale <= k
    requires Magnitude(Aligned(a, k)) + Magnitude(Aligned(b, k)) <= I128Max
    ensures var r := CheckedAdd(a, b);
      && r.Success? && r.value.scale <= k
      && Magnitude(Aligned(r.value, k)) <= Magnitude(Aligned(a, k)) + Magnitude(Aligned(b, k))
  {
    var scale := if a.scale > b.scale then a.scale else b.scale;
    AddIsExact(a, b);
    AlignedFiner(a, scale, k);
    AlignedFiner(b, scale, k);
    hide Aligned, Pow10, Worth, PowerOfTen, CheckedMul;
    if a.coefficient != 0 && b.coefficient != 0 {
      var x, y := Aligned(a, scale), Aligned(b, scale);
      SumShape(a, b);
      NormalAligned(x + y, scale, k);
      Spreads(x, y, Pow10(k - scale));
    }
  }

  lemma Spreads(x: int, y: int, p: int)
    ensures (x + y) * p == x * p + y * p
  {}

  lemma SumShape(a: Decimal, b: Decimal)
    requires a.coefficient != 0 && b.coefficient != 0 && CheckedAdd(a, b).Success?
    ensures var scale := if a.scale > b.scale then a.scale else b.scale;
      CheckedAdd(a, b).value == Normal(Aligned(a, scale) + Aligned(b, scale), scale)
  {
    var scale := if a.scale > b.scale then a.scale else b.scale;
    hide PowerOfTen, CheckedMul, Aligned;
    MulFits(a, scale);
    MulFits(b, scale);
  }

  // ---- to_minor_units ----

  /** Half away from zero. */
  ghost function Rounded(x: real): int {
    if x >= 0.0 then (x + 0.5).Floor else -((-x + 0.5).Floor)
  }

  /** Rust's `/` and `%`: towards zero, the remainder takes the sign of the dividend. */
  function Truncated(a: int, b: int): int
    requires b > 0
  {
    if a >= 0 then a / b else -(-a / b)
  }

  function Remainder(a: int, b: int): int
    requires b > 0
  {
    a - b * Truncated(a, b)
  }

  function Sign(a: int): int { if a > 0 then 1 else if a < 0 then -1 else 0 }

  function ToMinorUnits(d: Decimal): Result<int> {
    var units :=
      if d.scale <= 2 then CheckedMul(d.coefficient, PowerOfTen(2 - d.scale))
      else if d.scale - 2 > 38 || PowerOfTen(d.scale - 2).Failure? then Success(0)
      else
        var divisor := PowerOfTen(d.scale - 2).value;
        var quotient := Truncated(d.coefficient, divisor);
        var remainder := Remainder(d.coefficient, divisor);
        Success(quotient + if Magnitude(remainder) >= Truncated(divisor + 1, 2) then Sign(d.coefficient) else 0);
    if units.Success? && InI64(units.value) then units else Failure
  }

  lemma RoundedIs(x: real, m: int)
    requires if x >= 0.0 then m as real - 0.5 <= x < m as real + 0.5 else m as real - 0.5 < x <= m as real + 0.5
    ensures Rounded(x) == m
  {}

  /** A quotient and remainder of the size of the dividend, halved upwards. */
  lemma HalfUp(c: nat, divisor: int)
    requires divisor > 0 && divisor % 2 == 0
    ensures var m := c / divisor + if c % divisor >= (divisor + 1) / 2 then 1 else 0;
      m as real - 0.5 <= c as real / divisor as real < m as real + 0.5
  {
    var q, r := c / divisor, c % divisor;
    assert c == q * divisor + r;
    var x := c as real / divisor as real;
    assert x == q as real + r as real / divisor as real by { SplitQuotient(q, r, divisor); }
    RestHalf(r, divisor);
  }

  lemma SplitQuotient(q: int, r: int, p: int)
    requires p > 0
    ensures (q * p + r) as real / p as real == q as real + r as real / p as real
  {
    var x := (q * p + r) as real / p as real;
    assert (q * p) as real == q as real * p as real;
    assert (q as real + r as real / p as real) * p as real == q as real * p as real + r as real;
    SameProduct(x, q as real + r as real / p as real, p as real);
  }

  lemma SameProduct(x: real, y: real, p: real)
    requires p > 0.0 && x * p == y * p
    ensures x == y
  {
    assert (x - y) * p == 0.0;
  }

  lemma RestHalf(r: int, divisor: int)
    requires 0 <= r < divisor && divisor % 2 == 0
    ensures if r >= (divisor + 1) / 2 then 0.5 <= r as real / divisor as real < 1.0 else 0.0 <= r as real / divisor as real < 0.5
  {
    Compare(r, divisor, 0.0);
    Compare(r, divisor, 0.5);
    Compare(r, divisor, 1.0);
    assert (divisor + 1) / 2 * 2 == divisor;
  }

  lemma Compare(c: int, p: int, x: real)
    requires p > 0
    ensures c as real / p as real < x <==> c as real < x * p as real
    ensures x < c as real / p as real <==> x * p as real < c as real
  {
    var y := c as real / p as real;
    assert y * p as real == c as real;
    SignKept(x - y, p as real);
    assert (x - y) * p as real == x * p as real - c as real;
  }

  lemma SignKept(z: real, p: real)
    requires p > 0.0
    ensures (z * p > 0.0 <==> z > 0.0) && (z * p < 0.0 <==> z < 0.0)
  {}

  /** Cents are one hundred times the worth, rounded half away from zero, or nothing when that
      leaves 64 bits. */
  lemma MinorUnitsRound(d: Decimal)
    requires InI128(d.coefficient)
    ensures ToMinorUnits(d) == if InI64(Rounded(100.0 * Worth(d))) then Success(Rounded(100.0 * Worth(d))) else Failure
  {
    if d.scale <= 2 {
      WholeCents(d);
    } else if d.scale - 2 > 38 {
      TinyCents(d);
    } else {
      FractionalCents(d);
    }
  }

  lemma WholeCents(d: Decimal)
    requires InI128(d.coefficient) && d.scale <= 2
    ensures ToMinorUnits(d) == if InI64(Rounded(100.0 * Worth(d))) then Success(Rounded(100.0 * Worth(d))) else Failure
  {
    Pow10Table();
    WorthScaled(d, 2 - d.scale);
    PowerOfTenFits(2 - d.scale);
    var cents := d.coefficient * Pow10(2 - d.scale);
    assert 100.0 * Worth(d) == cents as real;
    RoundedIs(cents as real, cents);
    hide Worth, Pow10, Rounded;
  }

  lemma FinerWorth(d: Decimal)
    requires d.scale > 2
    ensures 100.0 * Worth(d) == d.coefficient as real / Pow10(d.scale - 2) as real
  {
    Pow10Table();
    Pow10Adds(d.scale - 2, 2);
    Hundredfold(d.coefficient, Pow10(d.scale - 2));
  }

  lemma Hundredfold(c: int, p: int)
    requires p > 0
    ensures 100.0 * (c as real / (p * 100) as real) == c as real / p as real
  {
    var x := c as real / (p * 100) as real;
    assert (p * 100) as real == p as real * 100.0;
    assert x * (p as real * 100.0) == c as real;
    SameProduct(100.0 * x, c as real / p as real, p as real);
  }

  lemma TinyCents(d: Decimal)
    requires InI128(d.coefficient) && d.scale - 2 > 38
    ensures ToMinorUnits(d) == if InI64(Rounded(100.0 * Worth(d))) then Success(Rounded(100.0 * Worth(d))) else Failure
  {
    FinerWorth(d);
    Pow10Of38();
    Pow10Grows(39, d.scale - 2);
    SmallRatio(d.coefficient, Pow10(d.scale - 2));
    hide Worth, Pow10;
    RoundedIs(100.0 * Worth(d), 0);
  }

  lemma SmallRatio(c: int, p: int)
    requires p > 0 && -p < 2 * c < p
    ensures -0.5 < c as real / p as real < 0.5
  {
    Compare(c, p, 0.5);
    Compare(c, p, -0.5);
  }

  lemma FractionalCents(d: Decimal)
    requires InI128(d.coefficient) && 2 < d.scale <= 40
    ensures ToMinorUnits(d) == if InI64(Rounded(100.0 * Worth(d))) then Success(Rounded(100.0 * Worth(d))) else Failure
  {
    hide Worth, Rounded, Truncated, Remainder, Magnitude, Sign;
    FinerWorth(d);
    PowerOfTenFits(d.scale - 2);
    EvenPower(d.scale - 2);
    hide Pow10;
    DividesRounded(d.coefficient, Pow10(d.scale - 2));
  }

  lemma EvenPower(k: nat)
    requires k > 0
    ensures Pow10(k) % 2 == 0
  {
    assert Pow10(k) == 2 * (5 * Pow10(k - 1));
  }

  lemma DividesRounded(c: int, divisor: int)
    requires divisor > 0 && divisor % 2 == 0
    ensures Truncated(c, divisor) + (if Magnitude(Remainder(c, divisor)) >= Truncated(divisor + 1, 2) then Sign(c) else 0)
         == Rounded(c as real / divisor as real)
  {
    HalfUp(Magnitude(c), divisor);
    Mirrors(c, divisor);
    Compare(c, divisor, 0.0);
    var m := Magnitude(c) / divisor + if Magnitude(c) % divisor >= (divisor + 1) / 2 then 1 else 0;
    hide Rounded, Truncated, Remainder;
    if c == 0 { assert 0 / divisor == 0 && 0 % divisor == 0; }
    RoundedIs(c as real / divisor as real, if c >= 0 then m else -m);
  }

  lemma Mirrors(c: int, p: int)
    requires p > 0
    ensures Truncated(c, p) == if c >= 0 then Magnitude(c) / p else -(Magnitude(c) / p)
    ensures Magnitude(Remainder(c, p)) == Magnitude(c) % p
    ensures c as real / p as real == if c >= 0 then Magnitude(c) as real / p as real else -(Magnitude(c) as real / p as real)
    ensures Truncated(p + 1, 2) == (p + 1) / 2
  {
    var q := Magnitude(c) / p;
    assert Magnitude(c) == p * q + Magnitude(c) % p;
    assert p * -q == -(p * q);
  }

  // ---- Drift ----

  /** `try_fold` from zero. */
  function Total(amounts: seq<Decimal>): Result<Decimal> {
    if amounts == [] then Success(Zero)
    else
      var front := Total(amounts[..|amounts| - 1]);
      if front.Failure? then Failure else CheckedAdd(front.value, amounts[|amounts| - 1])
  }

  ghost function WorthOfAll(amounts: seq<Decimal>): real {
    if amounts == [] then 0.0 else WorthOfAll(amounts[..|amounts| - 1]) + Worth(amounts[|amounts| - 1])
  }

  predicate AllCanonical(amounts: seq<Decimal>) { forall a :: a in amounts ==> Canonical(a) }

  /** Cents bucket by bucket. */
  function CentsOfAll(amounts: seq<Decimal>): int {
    if amounts == [] then 0
    else
      var last := ToMinorUnits(amounts[|amounts| - 1]);
      CentsOfAll(amounts[..|amounts| - 1]) + if last.Success? then last.value else 0
  }

  predicate AllPrint(amounts: seq<Decimal>) { forall a :: a in amounts ==> ToMinorUnits(a).Success? }

  lemma {:induction false} TotalIsExact(amounts: seq<Decimal>)
    requires AllCanonical(amounts) && Total(amounts).Success?
    ensures Canonical(Total(amounts).value) && Worth(Total(amounts).value) == WorthOfAll(amounts)
  {
    hide CheckedAdd, Aligned;
    if amounts == [] {
      ZeroWorth(Zero);
    } else {
      TotalIsExact(amounts[..|amounts| - 1]);
      AddIsExact(Total(amounts[..|amounts| - 1]).value, amounts[|amounts| - 1]);
      hide Worth, Canonical;
    }
  }

  function Abs(x: real): real { if x < 0.0 then -x else x }

  lemma RoundedIsNear(x: real)
    ensures Abs(Rounded(x) as real - x) <= 0.5
  {}

  lemma {:induction false} CentsDrift(amounts: seq<Decimal>)
    requires AllCanonical(amounts) && AllPrint(amounts)
    ensures Abs(CentsOfAll(amounts) as real - 100.0 * WorthOfAll(amounts)) <= 0.5 * |amounts| as real
  {
    if amounts != [] {
      var last := amounts[|amounts| - 1];
      assert last in amounts;
      CentsDrift(amounts[..|amounts| - 1]);
      MinorUnitsRound(last);
      RoundedIsNear(100.0 * Worth(last));
      hide ToMinorUnits, Worth, Rounded, Canonical;
      assert CentsOfAll(amounts) == CentsOfAll(amounts[..|amounts| - 1]) + ToMinorUnits(last).value;
    }
  }

  /** A period's rounded total differs from the sum of its rounded buckets by at most half a
      cent per bucket and half a cent of its own. */
  lemma PeriodDrift(amounts: seq<Decimal>)
    requires AllCanonical(amounts) && AllPrint(amounts)
    requires Total(amounts).Success? && ToMinorUnits(Total(amounts).value).Success?
    ensures 2 * Magnitude(ToMinorUnits(Total(amounts).value).value - CentsOfAll(amounts)) <= |amounts| + 1
  {
    hide ToMinorUnits, Total, CentsOfAll, Worth, Rounded, WorthOfAll, Canonical, AllCanonical, AllPrint;
    TotalIsExact(amounts);
    CentsDrift(amounts);
    MinorUnitsRound(Total(amounts).value) by { CanonicalIsSmall(Total(amounts).value); }
    RoundedIsNear(100.0 * Worth(Total(amounts).value));
  }

  lemma CanonicalIsSmall(d: Decimal)
    requires Canonical(d)
    ensures InI128(d.coefficient)
  {
  }
}
