/**
  The load shape in its two implementations, loadshape.go and shape.js: the noise hash, the weekday,
  the anomalies under the time warp, and the rate.

  Floating-point numbers are reals here. `wave(h)` stands for cos(2 pi h / 24).
 */
module LoadShape {
  import opened Words
  import opened Wrappers

  const SECONDS_PER_DAY := 86400.0
  const SECONDS_PER_HOUR := 3600.0

  datatype Anomaly = Anomaly(kind: string, offsetDays: real, durationHours: real, multiplier: real)

  datatype Profile = Profile(
    baseRatePerS: real,
    amplitude: real,
    phaseHours: real,
    weekdayCoefficients: seq<real>,
    noisePct: real,
    trendPctPerDay: real,
    anomalies: seq<Anomaly>)
  {
    /** What ParseProfile checks of the coefficient list. */
    predicate Parsed() {
      |weekdayCoefficients| == 7
    }
  }

  // ------------------------------------------------------------------ the noise hash

  const GOLDEN_GAMMA := 0x9e37_79b9_7f4a_7c15
  const MIX1 := 0xbf58_476d_1ce4_e5b9
  const MIX2 := 0x94d0_49bb_1331_11eb

  /** z >> n for a non-negative z. */
  function ShiftRight(z: nat, n: nat): nat {
    if n == 0 then z else ShiftRight(z / 2, n - 1)
  }

  /** Exclusive or of the binary digits. */
  function Xor(a: nat, b: nat): nat
    decreases a + b
  {
    if a == 0 && b == 0 then 0 else (a % 2 + b % 2) % 2 + 2 * Xor(a / 2, b / 2)
  }

  /** Go: every operation on a uint64 wraps. */
  newtype uint64 = x: int | 0 <= x < 0x1_0000_0000_0000_0000

  function Wrap64(x: int): uint64 {
    (x % TWO_64) as uint64
  }

  function GoXorShift(z: uint64, shift: nat): uint64 {
    Wrap64(Xor(z as int, ShiftRight(z as int, shift)))
  }

  function GoMix(z: uint64, shift: nat, multiplier: nat): uint64 {
    Wrap64(GoXorShift(z, shift) as int * multiplier)
  }

  function GoSplitmix64(seed: uint64): uint64 {
    var z := Wrap64(seed as int + GOLDEN_GAMMA);
    var z := GoMix(z, 30, MIX1);
    var z := GoMix(z, 27, MIX2);
    GoXorShift(z, 31)
  }

  /** JavaScript: BigInts are unbounded, and `& MASK64` keeps the residue modulo 2^64 where it is written. */
  function Mask64(x: int): nat {
    x % TWO_64
  }

  function JsMix(z: nat, shift: nat, multiplier: nat): nat {
    Mask64(Xor(z, ShiftRight(z, shift)) * multiplier)
  }

  function JsSplitmix64(seed: int): nat {
    var z := Mask64(seed + GOLDEN_GAMMA);
    var z := JsMix(z, 30, MIX1);
    var z := JsMix(z, 27, MIX2);
    var z := Xor(z, ShiftRight(z, 31));
    Mask64(z)
  }

  /** The int64 bucket of a minute, converted to uint64, hashed, and brought into [-1, 1]. */
  function GoNoise(bucket: int): real {
    var h := GoSplitmix64(Wrap64(bucket));
    (h as int % 2000001) as real / 1000000.0 - 1.0
  }

  /** The sample of the minute a profile time lies in. */
  function NoiseAt(profileTime: real): real {
    GoNoise((profileTime / 60.0).Floor)
  }

  function JsNoise(bucket: int): real {
    (JsSplitmix64(bucket) % 2000001) as real / 1000000.0 - 1.0
  }

  /** Digit by digit, exclusive or is one where the digits differ. */
  lemma XorDigits(a: nat, b: nat)
    ensures Xor(a, b) % 2 == (a % 2 + b % 2) % 2 && Xor(a, b) / 2 == Xor(a / 2, b / 2)
  {
    if a == 0 && b == 0 {
      assert Xor(0, 0) == 0;
    } else {
      LowDigit((a % 2 + b % 2) % 2, Xor(a / 2, b / 2));
    }
  }

  lemma LowDigit(digit: nat, rest: nat)
    requires digit < 2
    ensures (digit + 2 * rest) % 2 == digit && (digit + 2 * rest) / 2 == rest
  {
  }

  lemma {:induction false} XorNothing(a: nat)
    ensures Xor(a, 0) == a
    decreases a
  {
    if a > 0 {
      XorNothing(a / 2);
    }
  }

  lemma DigitTwice(a: nat, b: nat)
    ensures ((a % 2 + b % 2) % 2 + b % 2) % 2 == a % 2
  {
  }

  lemma SameDigits(x: nat, y: nat)
    requires x % 2 == y % 2 && x / 2 == y / 2
    ensures x == y
  {
  }

  /** What was mixed in is taken out again, so no two numbers become one. */
  lemma {:induction false} XorTwice(a: nat, b: nat)
    ensures Xor(Xor(a, b), b) == a
    decreases a + b
  {
    if a > 0 || b > 0 {
      var x := Xor(a, b);
      XorTwice(a / 2, b / 2);
      XorDigits(a, b);
      XorDigits(x, b);
      DigitTwice(a, b);
      SameDigits(Xor(x, b), a);
    }
  }

  /** A shift by n drops n binary digits. */
  lemma {:induction false} ShiftDivides(z: nat, n: nat)
    ensures ShiftRight(z, n) * Pow2(n) <= z < (ShiftRight(z, n) + 1) * Pow2(n)
    decreases n
  {
    if n > 0 {
      ShiftDivides(z / 2, n - 1);
      Halves(z, ShiftRight(z / 2, n - 1), Pow2(n - 1));
    }
  }

  lemma Halves(z: nat, q: nat, p: nat)
    requires q * p <= z / 2 < (q + 1) * p
    ensures q * (2 * p) <= z < (q + 1) * (2 * p)
  {
    assert q * (2 * p) == 2 * (q * p);
    assert (q + 1) * (2 * p) == 2 * ((q + 1) * p);
  }

  lemma {:induction false} XorFits(a: nat, b: nat, n: nat)
    requires a < Pow2(n) && b < Pow2(n)
    ensures Xor(a, b) < Pow2(n)
    decreases n
  {
    if n > 0 && (a > 0 || b > 0) {
      XorFits(a / 2, b / 2, n - 1);
    }
  }

  lemma {:induction false} ShiftShrinks(z: nat, n: nat)
    ensures ShiftRight(z, n) <= z
    decreases n
  {
    if n > 0 {
      ShiftShrinks(z / 2, n - 1);
    }
  }

  lemma XorFits64(a: nat, b: nat)
    requires a < TWO_64 && b < TWO_64
    ensures Xor(a, b) < TWO_64
  {
    Pow2Of64();
    XorFits(a, b, 64);
  }

  lemma SmallNeedsNoWrap(x: nat)
    requires x < TWO_64
    ensures Wrap64(x) as int == x
  {
  }

  /** Go's wrap after a shifted xor never changes anything, so leaving it unmasked is the same. */
  lemma XorShiftNeedsNoMask(z: uint64, shift: nat)
    ensures GoXorShift(z, shift) as int == Xor(z as int, ShiftRight(z as int, shift)) < TWO_64
  {
    ShiftShrinks(z as int, shift);
    XorFits64(z as int, ShiftRight(z as int, shift));
    SmallNeedsNoWrap(Xor(z as int, ShiftRight(z as int, shift)));
  }

  lemma MixParity(z: uint64, shift: nat, multiplier: nat)
    ensures JsMix(z as int, shift, multiplier) == GoMix(z, shift, multiplier) as int
  {
    XorShiftNeedsNoMask(z, shift);
  }

  lemma SeedParity(bucket: int)
    ensures Mask64(bucket + GOLDEN_GAMMA) == Wrap64(Wrap64(bucket) as int + GOLDEN_GAMMA) as int
  {
    var r := bucket % TWO_64;
    assert bucket == r + bucket / TWO_64 * TWO_64;
    MultiplesVanish(r + GOLDEN_GAMMA, bucket / TWO_64);
  }

  /** The masked BigInt hash of any bucket, negative ones included, is the wrapping uint64 hash of its conversion. */
  lemma HashParity(bucket: int)
    ensures JsSplitmix64(bucket) == GoSplitmix64(Wrap64(bucket)) as int
  {
    SeedParity(bucket);
    var z0 := Wrap64(Wrap64(bucket) as int + GOLDEN_GAMMA);
    MixParity(z0, 30, MIX1);
    var z1 := GoMix(z0, 30, MIX1);
    MixParity(z1, 27, MIX2);
    XorShiftNeedsNoMask(GoMix(z1, 27, MIX2), 31);
  }

  lemma NoiseParity(bucket: int)
    ensures JsNoise(bucket) == GoNoise(bucket)
    ensures -1.0 <= GoNoise(bucket) <= 1.0
  {
    HashParity(bucket);
    var m := JsSplitmix64(bucket) % 2000001;
    assert 0.0 <= m as real / 1000000.0 <= 2.0;
  }

  lemma {:induction false} ShiftOfXor(a: nat, b: nat, n: nat)
    ensures ShiftRight(Xor(a, b), n) == Xor(ShiftRight(a, n), ShiftRight(b, n))
    decreases n
  {
    if n > 0 {
      XorDigits(a, b);
      ShiftOfXor(a / 2, b / 2, n - 1);
    }
  }

  lemma {:induction false} ShiftIsSmaller(z: nat, n: nat)
    requires z > 0 && n > 0
    ensures ShiftRight(z, n) < z
  {
    ShiftShrinks(z / 2, n - 1);
  }

  lemma ShiftOfZero(n: nat)
    ensures ShiftRight(0, n) == 0
  {
    ShiftShrinks(0, n);
  }

  /** A shifted exclusive or loses nothing: the high digits stay, and the others follow from them. */
  lemma {:induction false} XorShiftIsInjective(y: nat, z: nat, n: nat)
    requires n > 0 && Xor(y, ShiftRight(y, n)) == Xor(z, ShiftRight(z, n))
    ensures y == z
    decreases y + z
  {
    var r, s := ShiftRight(y, n), ShiftRight(z, n);
    if y > 0 || z > 0 {
      ShiftOfXor(y, r, n);
      ShiftOfXor(z, s, n);
      if y > 0 { ShiftIsSmaller(y, n); } else { ShiftOfZero(n); }
      if z > 0 { ShiftIsSmaller(z, n); } else { ShiftOfZero(n); }
      XorShiftIsInjective(r, s, n);
      XorTwice(y, r);
      XorTwice(z, s);
    }
  }

  /** What a wrapping product with `multiplier` is multiplied by to get the factor back. */
  lemma Unmultiplied(x: nat, multiplier: nat, inverse: nat, k: nat, r: nat)
    requires x < TWO_64 && multiplier * inverse == 1 + k * TWO_64 && r == x * multiplier % TWO_64
    ensures r * inverse % TWO_64 == x
  {
    var q := x * multiplier / TWO_64;
    assert r == x * multiplier - q * TWO_64;
    Rearranged(x, multiplier, inverse, k, q, r);
    MultiplesVanish(x, x * k - q * inverse);
  }

  lemma Rearranged(x: int, m: int, inverse: int, k: int, q: int, r: int)
    requires m * inverse == 1 + k * TWO_64 && r == x * m - q * TWO_64
    ensures r * inverse == x + (x * k - q * inverse) * TWO_64
  {
    calc {
      r * inverse;
      (x * m - q * TWO_64) * inverse;
      x * (m * inverse) - q * TWO_64 * inverse;
      x * (1 + k * TWO_64) - q * TWO_64 * inverse;
      x + (x * k - q * inverse) * TWO_64;
    }
  }

  lemma MixIsInjective(y: uint64, z: uint64, shift: nat, multiplier: nat, inverse: nat, k: nat)
    requires shift > 0 && multiplier * inverse == 1 + k * TWO_64
    requires GoMix(y, shift, multiplier) == GoMix(z, shift, multiplier)
    ensures y == z
  {
    var a, b := GoXorShift(y, shift) as int, GoXorShift(z, shift) as int;
    XorShiftNeedsNoMask(y, shift);
    XorShiftNeedsNoMask(z, shift);
    Unmultiplied(a, multiplier, inverse, k, GoMix(y, shift, multiplier) as int);
    Unmultiplied(b, multiplier, inverse, k, GoMix(z, shift, multiplier) as int);
    XorShiftIsInjective(y as int, z as int, shift);
  }

  /** The odd multipliers have inverses modulo 2^64. */
  lemma Inverses()
    ensures MIX1 * 0x96de_1b17_3f11_9089 == 1 + 0x70c3bca78f27f46c * TWO_64
    ensures MIX2 * 0x3196_42b2_d24d_8ec3 == 1 + 0x1cd336eda85f1453 * TWO_64
  {
  }

  /** No two seeds share a hash. */
  lemma HashIsInjective(seed: uint64, other: uint64)
    requires GoSplitmix64(seed) == GoSplitmix64(other)
    ensures seed == other
  {
    var y0, z0 := Wrap64(seed as int + GOLDEN_GAMMA), Wrap64(other as int + GOLDEN_GAMMA);
    var y1, z1 := GoMix(y0, 30, MIX1), GoMix(z0, 30, MIX1);
    var y2, z2 := GoMix(y1, 27, MIX2), GoMix(z1, 27, MIX2);
    XorShiftNeedsNoMask(y2, 31);
    XorShiftNeedsNoMask(z2, 31);
    XorShiftIsInjective(y2 as int, z2 as int, 31);
    Inverses();
    MixIsInjective(y1, z1, 27, MIX2, 0x3196_42b2_d24d_8ec3, 0x1cd336eda85f1453);
    MixIsInjective(y0, z0, 30, MIX1, 0x96de_1b17_3f11_9089, 0x70c3bca78f27f46c);
    SumIsInjective(seed as int, other as int);
  }

  lemma SumIsInjective(x: nat, y: nat)
    requires x < TWO_64 && y < TWO_64 && (x + GOLDEN_GAMMA) % TWO_64 == (y + GOLDEN_GAMMA) % TWO_64
    ensures x == y
  {
  }

  /** A value of the hash: zero comes from minus the increment, and by injectivity from no other seed. */
  lemma HashIsZeroOnce(seed: uint64)
    ensures GoSplitmix64(seed) == 0 <==> seed == 0x61c8_8646_80b5_83eb
  {
    var root: uint64 := 0x61c8_8646_80b5_83eb;
    ShiftOfZero(30);
    ShiftOfZero(27);
    ShiftOfZero(31);
    assert Wrap64(root as int + GOLDEN_GAMMA) == 0;
    assert GoMix(0, 30, MIX1) == 0 && GoMix(0, 27, MIX2) == 0;
    assert GoSplitmix64(root) == 0;
    if GoSplitmix64(seed) == 0 {
      HashIsInjective(seed, root);
    }
  }

  // ------------------------------------------------------------------ calendar arithmetic

  /** The remainder of Go and JavaScript: truncated, with the sign of the dividend. */
  function TruncMod(a: int, b: int): int
    requires b > 0
  {
    if a >= 0 then a % b else -((-a) % b)
  }

  function DaysSinceEpoch(profileTime: real): int {
    (profileTime / SECONDS_PER_DAY).Floor
  }

  /** Both sources: ((d % 7 + 3) % 7 + 7) % 7 with truncating remainders. */
  function MondayIndex(day: int): int {
    TruncMod(TruncMod(TruncMod(day, 7) + 3, 7) + 7, 7)
  }

  function HourOfDay(profileTime: real): real {
    (profileTime - DaysSinceEpoch(profileTime) as real * SECONDS_PER_DAY) / SECONDS_PER_HOUR
  }

  lemma TruncatedByEuclidean(day: int)
    ensures TruncMod(day, 7) == if day >= 0 || day % 7 == 0 then day % 7 else day % 7 - 7
  {
    assert day == day / 7 * 7 + day % 7;
    if day < 0 {
      Remainder(-day, if day % 7 == 0 then -(day / 7) else -(day / 7) - 1, if day % 7 == 0 then 0 else 7 - day % 7);
    }
  }

  lemma Remainder(x: int, q: int, r: int)
    requires x == q * 7 + r && 0 <= r < 7
    ensures x % 7 == r
  {
  }

  /** From any truncated remainder the rest of the formula is the Euclidean one. */
  lemma SmallWeekday(r: int)
    requires -6 <= r <= 6
    ensures TruncMod(TruncMod(r + 3, 7) + 7, 7) == (r + 3) % 7
  {
  }

  /** The weekday of every day number, before and after 1970, counted from Monday. */
  lemma WeekdayIsEuclidean(day: int)
    ensures MondayIndex(day) == (day + 3) % 7
  {
    TruncatedByEuclidean(day);
    var e, r := day % 7, TruncMod(day, 7);
    SmallWeekday(r);
    var k := (r + 3) % 7;
    assert k == if r + 3 < 0 then r + 10 else if r + 3 >= 7 then r - 4 else r + 3;
    assert day == day / 7 * 7 + e;
    Remainder(day + 3, day / 7 + (if e + 3 >= 7 then 1 else 0), k);
  }

  /** Day and hour make up the time again. */
  lemma DayAndHour(profileTime: real)
    ensures DaysSinceEpoch(profileTime) as real * 86400.0 + HourOfDay(profileTime) * 3600.0 == profileTime
  {
  }

  /** One noise sample for each minute. */
  lemma NoisePerMinute(minute: int, profileTime: real)
    requires minute as real * 60.0 <= profileTime < (minute + 1) as real * 60.0
    ensures NoiseAt(profileTime) == GoNoise(minute)
  {
    assert minute as real <= profileTime / 60.0 < minute as real + 1.0;
  }

  lemma HourOfDayInRange(profileTime: real)
    ensures 0.0 <= HourOfDay(profileTime) < 24.0
  {
    var d := DaysSinceEpoch(profileTime);
    assert d as real <= profileTime / SECONDS_PER_DAY < d as real + 1.0;
    assert profileTime == profileTime / SECONDS_PER_DAY * SECONDS_PER_DAY;
  }

  // ------------------------------------------------------------------ anomalies

  function ProfileTime(unixSeconds: real, ref: real, scale: real): real {
    ref + (unixSeconds - ref) * scale
  }

  function Start(a: Anomaly, ref: real): real {
    ref + a.offsetDays * SECONDS_PER_DAY
  }

  function End(a: Anomaly, ref: real): real {
    Start(a, ref) + a.durationHours * SECONDS_PER_HOUR
  }

  function AnomalyFactor(a: Anomaly, profileTime: real, ref: real): real {
    var start, end := Start(a, ref), End(a, ref);
    if profileTime < start || profileTime > end then 1.0
    else if a.kind == "spike" || a.kind == "outage" then a.multiplier
    else if a.kind == "degradation" then
      var frac := if end - start > 0.0 then (profileTime - start) / (end - start) else 1.0;
      1.0 + frac * (a.multiplier - 1.0)
    else 1.0
  }

  function AnomalyRealWindow(a: Anomaly, ref: real, scale: real): (real, real)
    requires scale != 0.0
  {
    (ref + (Start(a, ref) - ref) / scale, ref + (End(a, ref) - ref) / scale)
  }

  predicate InRealWindow(a: Anomaly, unixSeconds: real, ref: real, scale: real)
    requires scale != 0.0
  {
    AnomalyRealWindow(a, ref, scale).0 <= unixSeconds <= AnomalyRealWindow(a, ref, scale).1
  }

  predicate InProfileWindow(a: Anomaly, profileTime: real, ref: real) {
    Start(a, ref) <= profileTime <= End(a, ref)
  }

  lemma ScaledOrder(x: real, y: real, scale: real)
    requires scale > 0.0
    ensures x <= y / scale <==> x * scale <= y
    ensures y / scale <= x <==> y <= x * scale
  {
    var q := y / scale;
    assert q * scale == y;
    if x <= q {
      ScaleKeepsOrder(x, q, scale);
    }
    if q <= x {
      ScaleKeepsOrder(q, x, scale);
    }
    if x > q {
      ScaleKeepsStrictOrder(q, x, scale);
    }
    if q > x {
      ScaleKeepsStrictOrder(x, q, scale);
    }
  }

  lemma ScaleKeepsOrder(a: real, b: real, s: real)
    requires a <= b && s > 0.0
    ensures a * s <= b * s
  {
  }

  lemma ScaleKeepsStrictOrder(a: real, b: real, s: real)
    requires a < b && s > 0.0
    ensures a * s < b * s
  {
  }

  /** The wall-clock window is the inverse image of the profile-time window. */
  lemma WindowInvertsTheWarp(a: Anomaly, unixSeconds: real, ref: real, scale: real)
    requires scale > 0.0
    ensures InProfileWindow(a, ProfileTime(unixSeconds, ref, scale), ref) <==> InRealWindow(a, unixSeconds, ref, scale)
  {
    ScaledOrder(unixSeconds - ref, Start(a, ref) - ref, scale);
    ScaledOrder(unixSeconds - ref, End(a, ref) - ref, scale);
  }

  /** How far into the window a time is, from 0 at its start to 1 at its end. */
  function Fraction(a: Anomaly, profileTime: real, ref: real): real
    requires a.durationHours > 0.0
  {
    (profileTime - Start(a, ref)) / (a.durationHours * SECONDS_PER_HOUR)
  }

  lemma FractionsAreOrdered(a: Anomaly, ref: real, early: real, late: real)
    requires a.durationHours > 0.0
    requires InProfileWindow(a, early, ref) && InProfileWindow(a, late, ref) && early <= late
    ensures 0.0 <= Fraction(a, early, ref) <= Fraction(a, late, ref) <= 1.0
  {
    var length := a.durationHours * SECONDS_PER_HOUR;
    ScaledOrder(0.0, early - Start(a, ref), length);
    ScaledOrder(1.0, late - Start(a, ref), length);
    QuotientsAreOrdered(early - Start(a, ref), late - Start(a, ref), length);
  }

  lemma QuotientsAreOrdered(x: real, y: real, length: real)
    requires x <= y && length > 0.0
    ensures x / length <= y / length
  {
    ScaledOrder(x / length, y, length);
    assert x / length * length == x;
  }

  lemma DegradationByFraction(a: Anomaly, profileTime: real, ref: real)
    requires a.kind == "degradation" && a.durationHours > 0.0 && InProfileWindow(a, profileTime, ref)
    ensures AnomalyFactor(a, profileTime, ref) == 1.0 + Fraction(a, profileTime, ref) * (a.multiplier - 1.0)
  {
    assert End(a, ref) - Start(a, ref) == a.durationHours * SECONDS_PER_HOUR > 0.0;
  }

  lemma SelfQuotient(x: real)
    requires x > 0.0
    ensures x / x == 1.0
  {
  }

  /** A degradation of no length has its multiplier at its one instant. */
  lemma InstantDegradation(a: Anomaly, profileTime: real, ref: real)
    requires a.kind == "degradation" && a.durationHours <= 0.0 && InProfileWindow(a, profileTime, ref)
    ensures a.durationHours == 0.0 && profileTime == Start(a, ref) == End(a, ref)
    ensures AnomalyFactor(a, profileTime, ref) == a.multiplier
  {
    assert End(a, ref) == Start(a, ref) + a.durationHours * SECONDS_PER_HOUR;
    assert 1.0 + 1.0 * (a.multiplier - 1.0) == a.multiplier;
  }

  /** A degradation starts at factor 1, unless it has no length, and ends at its multiplier. */
  lemma DegradationEnds(a: Anomaly, ref: real)
    requires a.kind == "degradation" && a.durationHours >= 0.0
    ensures a.durationHours > 0.0 ==> AnomalyFactor(a, Start(a, ref), ref) == 1.0
    ensures AnomalyFactor(a, End(a, ref), ref) == a.multiplier
  {
    if a.durationHours == 0.0 {
      InstantDegradation(a, End(a, ref), ref);
    } else {
      var length := a.durationHours * SECONDS_PER_HOUR;
      assert End(a, ref) - Start(a, ref) == length > 0.0;
      SelfQuotient(length);
      DegradationByFraction(a, Start(a, ref), ref);
      DegradationByFraction(a, End(a, ref), ref);
    }
  }

  lemma RiseOrder(f: real, g: real, rise: real)
    requires 0.0 <= f <= g <= 1.0 && rise > 0.0
    ensures 0.0 <= f * rise <= g * rise <= rise
  {
    ScaleKeepsOrder(0.0, f, rise);
    ScaleKeepsOrder(f, g, rise);
    ScaleKeepsOrder(g, 1.0, rise);
  }

  lemma Opposite(f: real, rise: real)
    ensures f * -rise == -(f * rise)
  {
  }

  lemma NoRise(f: real)
    ensures f * 0.0 == 0.0
  {
  }

  /** Above 1 the ramp rises. */
  lemma RampRises(f: real, g: real, rise: real)
    requires 0.0 <= f <= g <= 1.0 && rise >= 0.0
    ensures 1.0 <= 1.0 + f * rise <= 1.0 + g * rise <= 1.0 + rise
  {
    if rise > 0.0 {
      RiseOrder(f, g, rise);
    } else {
      NoRise(f);
      NoRise(g);
    }
  }

  /** Below 1 it falls. */
  lemma RampFalls(f: real, g: real, rise: real)
    requires 0.0 <= f <= g <= 1.0 && rise <= 0.0
    ensures 1.0 >= 1.0 + f * rise >= 1.0 + g * rise >= 1.0 + rise
  {
    var fall := -rise;
    RampRises(f, g, fall);
    Opposite(f, fall);
    Opposite(g, fall);
  }

  /** Two points of one ramp, from 1 towards `m`. */
  lemma RampOrder(x: real, y: real, f: real, g: real, m: real)
    requires 0.0 <= f <= g <= 1.0 && x == 1.0 + f * (m - 1.0) && y == 1.0 + g * (m - 1.0)
    ensures m >= 1.0 ==> 1.0 <= x <= y <= m
    ensures m <= 1.0 ==> 1.0 >= x >= y >= m
  {
    var rise := m - 1.0;
    if rise >= 0.0 {
      RampRises(f, g, rise);
    }
    if rise <= 0.0 {
      RampFalls(f, g, rise);
    }
  }

  /** Throughout its window it moves one way, between 1 and its multiplier. */
  lemma DegradationRamps(a: Anomaly, ref: real, early: real, late: real)
    requires a.kind == "degradation"
    requires InProfileWindow(a, early, ref) && InProfileWindow(a, late, ref) && early <= late
    ensures a.multiplier <= 1.0 ==>
              1.0 >= AnomalyFactor(a, early, ref) >= AnomalyFactor(a, late, ref) >= a.multiplier
    ensures a.multiplier >= 1.0 ==>
              1.0 <= AnomalyFactor(a, early, ref) <= AnomalyFactor(a, late, ref) <= a.multiplier
  {
    if a.durationHours <= 0.0 {
      InstantDegradation(a, early, ref);
      InstantDegradation(a, late, ref);
    } else {
      LongDegradationRamps(a, ref, early, late);
    }
  }

  lemma LongDegradationRamps(a: Anomaly, ref: real, early: real, late: real)
    requires a.kind == "degradation" && a.durationHours > 0.0
    requires InProfileWindow(a, early, ref) && InProfileWindow(a, late, ref) && early <= late
    ensures a.multiplier <= 1.0 ==>
              1.0 >= AnomalyFactor(a, early, ref) >= AnomalyFactor(a, late, ref) >= a.multiplier
    ensures a.multiplier >= 1.0 ==>
              1.0 <= AnomalyFactor(a, early, ref) <= AnomalyFactor(a, late, ref) <= a.multiplier
  {
    FractionsAreOrdered(a, ref, early, late);
    DegradationByFraction(a, early, ref);
    DegradationByFraction(a, late, ref);
    RampOrder(AnomalyFactor(a, early, ref), AnomalyFactor(a, late, ref),
      Fraction(a, early, ref), Fraction(a, late, ref), a.multiplier);
  }

  function AnomalyProduct(anomalies: seq<Anomaly>, profileTime: real, ref: real): real {
    if anomalies == [] then 1.0
    else AnomalyProduct(anomalies[..|anomalies| - 1], profileTime, ref)
         * AnomalyFactor(anomalies[|anomalies| - 1], profileTime, ref)
  }

  /** Outside every wall-clock window the anomalies have no effect. */
  lemma {:induction false} QuietOutsideAllWindows(anomalies: seq<Anomaly>, unixSeconds: real, ref: real, scale: real)
    requires scale > 0.0
    requires forall a :: a in anomalies ==> !InRealWindow(a, unixSeconds, ref, scale)
    ensures AnomalyProduct(anomalies, ProfileTime(unixSeconds, ref, scale), ref) == 1.0
    decreases |anomalies|
  {
    if anomalies != [] {
      QuietOutsideAllWindows(anomalies[..|anomalies| - 1], unixSeconds, ref, scale);
      WindowInvertsTheWarp(anomalies[|anomalies| - 1], unixSeconds, ref, scale);
    }
  }

  lemma {:induction false} ZeroFactorAnnihilates(anomalies: seq<Anomaly>, i: nat, profileTime: real, ref: real)
    requires i < |anomalies| && AnomalyFactor(anomalies[i], profileTime, ref) == 0.0
    ensures AnomalyProduct(anomalies, profileTime, ref) == 0.0
    decreases |anomalies|
  {
    if i < |anomalies| - 1 {
      ZeroFactorAnnihilates(anomalies[..|anomalies| - 1], i, profileTime, ref);
    }
  }

  // ------------------------------------------------------------------ the rate

  /** The factors of the documented formula, in profile time. */
  function Factors(wave: real -> real, profile: Profile, profileTime: real, ref: real, noise: real): (f: seq<real>)
    requires profile.Parsed()
    ensures |f| == 6
  {
    [profile.baseRatePerS,
     Swing(profile.amplitude, wave(HourOfDay(profileTime) - profile.phaseHours)),
     profile.weekdayCoefficients[(DaysSinceEpoch(profileTime) + 3) % 7],
     Swing(profile.trendPctPerDay, DaysSince(ref, profileTime)),
     Swing(profile.noisePct, noise),
     AnomalyProduct(profile.anomalies, profileTime, ref)]
  }

  function Raw(wave: real -> real, profile: Profile, profileTime: real, ref: real, noise: real): real
    requires profile.Parsed()
  {
    Product(Factors(wave, profile, profileTime, ref, noise))
  }

  /** A factor that swings around 1. */
  function Swing(amplitude: real, x: real): real {
    1.0 + amplitude * x
  }

  function DaysSince(ref: real, profileTime: real): real {
    (profileTime - ref) / SECONDS_PER_DAY
  }

  /** The factors multiplied from left to right. */
  function Product(factors: seq<real>): real {
    if factors == [] then 1.0 else Product(factors[..|factors| - 1]) * factors[|factors| - 1]
  }

  function NonNegative(x: real): real {
    if x > 0.0 then x else 0.0
  }

  /** What is left of the formula once it is clamped at zero. */
  function Clamped(wave: real -> real, profile: Profile, profileTime: real, ref: real, noise: real): real
    requires profile.Parsed()
  {
    NonNegative(Raw(wave, profile, profileTime, ref, noise))
  }

  function RateAt(wave: real -> real, profile: Profile, unixSeconds: real, ref: real, scale: real): real
    requires profile.Parsed()
  {
    var profileTime := ProfileTime(unixSeconds, ref, scale);
    Clamped(wave, profile, profileTime, ref, NoiseAt(profileTime))
  }

  // ------------------------------------------------------------------ what each factor does

  function Drop<T>(s: seq<T>, i: nat): seq<T>
    requires i < |s|
  {
    s[..i] + s[i + 1..]
  }

  lemma DropLast<T>(s: seq<T>, i: nat)
    requires i < |s|
    ensures if i == |s| - 1 then Drop(s, i) == s[..|s| - 1]
            else |Drop(s, i)| > 0 && Drop(s, i)[|s| - 2] == s[|s| - 1] && Drop(s, i)[..|s| - 2] == Drop(s[..|s| - 1], i)
  {
  }

  lemma Regroup(a: real, b: real, c: real)
    ensures (a * b) * c == a * (b * c)
  {
  }

  lemma Swap(a: real, b: real)
    ensures a * b == b * a
  {
  }

  lemma Extend(product: real, head: real, last: real, factor: real, rest: real, others: real)
    requires product == head * last && head == factor * rest && others == rest * last
    ensures product == factor * others
  {
    Regroup(factor, rest, last);
  }

  lemma Commute(product: real, head: real, last: real, others: real)
    requires product == head * last && others == head
    ensures product == last * others
  {
    Swap(head, last);
  }

  lemma LastFactor(factors: seq<real>, product: real, head: real, last: real)
    requires factors != [] && product == Product(factors)
    requires head == Product(factors[..|factors| - 1]) && last == factors[|factors| - 1]
    ensures product == head * last
  {
  }

  /** Any one factor can be taken out of a product. */
  lemma {:induction false} FactorOut(factors: seq<real>, i: nat, factor: real, product: real, others: real)
    requires i < |factors| && factor == factors[i] && product == Product(factors) && others == Product(Drop(factors, i))
    ensures product == factor * others
    decreases |factors|
  {
    var n := |factors| - 1;
    var head, last := Product(factors[..n]), factors[n];
    LastFactor(factors, product, head, last);
    DropLast(factors, i);
    if i == n {
      Commute(product, head, last, others);
    } else {
      var rest := Product(Drop(factors[..n], i));
      FactorOut(factors[..n], i, factor, head, rest);
      LastFactor(Drop(factors, i), others, rest, last);
      Extend(product, head, last, factor, rest, others);
    }
  }

  /** The product of all factors but the i-th: 1 is the diurnal swing, 3 the trend, 4 the noise, 5 the anomalies. */
  function Others(i: nat, wave: real -> real, profile: Profile, t: real, ref: real, noise: real): real
    requires profile.Parsed() && i < 6
  {
    Product(Drop(Factors(wave, profile, t, ref, noise), i))
  }

  lemma RawFactorOut(i: nat, wave: real -> real, profile: Profile, t: real, ref: real, noise: real)
    requires profile.Parsed() && i < 6
    ensures Raw(wave, profile, t, ref, noise)
         == Factors(wave, profile, t, ref, noise)[i] * Others(i, wave, profile, t, ref, noise)
  {
    FactorOut(Factors(wave, profile, t, ref, noise), i, Factors(wave, profile, t, ref, noise)[i], Raw(wave, profile, t, ref, noise), Others(i, wave, profile, t, ref, noise));
  }

  /** The swinging factors, spelled out. */
  lemma SwingsAre(wave: real -> real, profile: Profile, t: real, ref: real, noise: real)
    requires profile.Parsed()
    ensures var f := Factors(wave, profile, t, ref, noise);
            && f[0] == profile.baseRatePerS
            && f[1] == 1.0 + profile.amplitude * wave(HourOfDay(t) - profile.phaseHours)
            && f[2] == profile.weekdayCoefficients[(DaysSinceEpoch(t) + 3) % 7]
            && f[3] == 1.0 + profile.trendPctPerDay * DaysSince(ref, t)
            && f[4] == 1.0 + profile.noisePct * noise
            && f[5] == AnomalyProduct(profile.anomalies, t, ref)
  {
  }

  /** Two clamped products that differ in one swing. */
  lemma SwingOrder(amplitude: real, x: real, y: real, f: real, g: real, others: real, raw: real, raw': real)
    requires amplitude >= 0.0 && x <= y && f == 1.0 + amplitude * x && g == 1.0 + amplitude * y
    requires others >= 0.0 && raw == f * others && raw' == g * others
    ensures NonNegative(raw) <= NonNegative(raw')
  {
    assert f <= g by {
      if amplitude > 0.0 {
        ScaleKeepsOrder(x, y, amplitude);
        Swap(x, amplitude);
        Swap(y, amplitude);
      }
    }
    if others > 0.0 {
      ScaleKeepsOrder(f, g, others);
    }
  }

  lemma ScaleClamped(k: real, x: real, raw: real)
    requires k >= 0.0 && raw == k * x
    ensures NonNegative(raw) == k * NonNegative(x)
  {
    if k > 0.0 {
      Swap(k, x);
      if x > 0.0 {
        ScaleKeepsStrictOrder(0.0, x, k);
      } else {
        ScaleKeepsOrder(x, 0.0, k);
      }
    }
  }

  /** Two clamped products that differ in one swing, the i-th factor. */
  lemma SwingRaises(i: nat, amplitude: real, x: real, y: real, f: seq<real>, g: seq<real>,
                    fi: real, gi: real, others: real, low: real, high: real)
    requires i < |f| == |g| && fi == f[i] && gi == g[i] && low == Product(f) && high == Product(g)
    requires amplitude >= 0.0 && x <= y && fi == 1.0 + amplitude * x && gi == 1.0 + amplitude * y
    requires others == Product(Drop(f, i)) == Product(Drop(g, i)) && others >= 0.0
    ensures NonNegative(low) <= NonNegative(high)
  {
    FactorOut(f, i, fi, low, others);
    FactorOut(g, i, gi, high, others);
    SwingOrder(amplitude, x, y, fi, gi, others, low, high);
  }

  /** A clamped product with a factor taken out. */
  lemma ScaledRate(rate: real, other: real, raw: real, raw': real, k: real)
    requires rate == NonNegative(raw) && other == NonNegative(raw') && raw == k * raw' && k >= 0.0
    ensures rate == k * other
  {
    ScaleClamped(k, raw', raw);
  }

  /** The rate is the unclamped product at the profile time, kept non-negative. */
  lemma RateIsClamped(wave: real -> real, profile: Profile, unixSeconds: real, ref: real, scale: real)
    requires profile.Parsed()
    ensures var t := ProfileTime(unixSeconds, ref, scale);
            RateAt(wave, profile, unixSeconds, ref, scale) == NonNegative(Raw(wave, profile, t, ref, NoiseAt(t)))
  {
  }

  /** With everything else equal, a greater wave gives no smaller product for an amplitude that is not negative. */
  lemma WaveRaises(wave: real -> real, profile: Profile, t: real, u: real, ref: real, m: real, n: real)
    requires profile.Parsed() && profile.amplitude >= 0.0
    requires wave(HourOfDay(u) - profile.phaseHours) <= wave(HourOfDay(t) - profile.phaseHours)
    requires Others(1, wave, profile, t, ref, m) == Others(1, wave, profile, u, ref, n) >= 0.0
    ensures NonNegative(Raw(wave, profile, u, ref, n)) <= NonNegative(Raw(wave, profile, t, ref, m))
  {
    SwingsAre(wave, profile, t, ref, m);
    SwingsAre(wave, profile, u, ref, n);
    var f, g := Factors(wave, profile, u, ref, n), Factors(wave, profile, t, ref, m);
    SwingRaises(1, profile.amplitude, wave(HourOfDay(u) - profile.phaseHours), wave(HourOfDay(t) - profile.phaseHours),
      f, g, f[1], g[1], Others(1, wave, profile, t, ref, m), Product(f), Product(g));
  }

  /** The phase hour is the peak: with everything else equal, no hour of the day has a greater rate. */
  lemma PhaseHourIsThePeak(wave: real -> real, profile: Profile, peak: real, other: real, ref: real, scale: real)
    requires profile.Parsed() && profile.amplitude >= 0.0 && forall h :: wave(h) <= wave(0.0)
    requires HourOfDay(ProfileTime(peak, ref, scale)) == profile.phaseHours
    requires var t, u := ProfileTime(peak, ref, scale), ProfileTime(other, ref, scale);
             Others(1, wave, profile, t, ref, NoiseAt(t)) == Others(1, wave, profile, u, ref, NoiseAt(u)) >= 0.0
    ensures RateAt(wave, profile, other, ref, scale) <= RateAt(wave, profile, peak, ref, scale)
  {
    var t, u := ProfileTime(peak, ref, scale), ProfileTime(other, ref, scale);
    RateIsClamped(wave, profile, peak, ref, scale);
    RateIsClamped(wave, profile, other, ref, scale);
    assert HourOfDay(t) - profile.phaseHours == 0.0;
    WaveRaises(wave, profile, t, u, ref, NoiseAt(t), NoiseAt(u));
  }

  /** Days before or after the reference, at 86400 seconds each. */
  lemma DaysSinceIs(ref: real, days: real)
    ensures DaysSince(ref, ref + days * 86400.0) == days
  {
  }

  /** A trend that is not negative makes the product no smaller as days pass, with everything else equal. */
  lemma TrendRaises(wave: real -> real, profile: Profile, t: real, u: real, ref: real, m: real, n: real)
    requires profile.Parsed() && profile.trendPctPerDay >= 0.0 && DaysSince(ref, t) <= DaysSince(ref, u)
    requires Others(3, wave, profile, t, ref, m) == Others(3, wave, profile, u, ref, n) >= 0.0
    ensures NonNegative(Raw(wave, profile, t, ref, m)) <= NonNegative(Raw(wave, profile, u, ref, n))
  {
    SwingsAre(wave, profile, t, ref, m);
    SwingsAre(wave, profile, u, ref, n);
    var f, g := Factors(wave, profile, t, ref, m), Factors(wave, profile, u, ref, n);
    SwingRaises(3, profile.trendPctPerDay, DaysSince(ref, t), DaysSince(ref, u),
      f, g, f[3], g[3], Others(3, wave, profile, t, ref, m), Product(f), Product(g));
  }

  /** The rate does not fall as days pass under such a trend, with everything else equal. */
  lemma TrendRises(wave: real -> real, profile: Profile, early: real, late: real, ref: real, scale: real)
    requires profile.Parsed() && profile.trendPctPerDay >= 0.0
    requires var t, u := ProfileTime(early, ref, scale), ProfileTime(late, ref, scale);
             && DaysSince(ref, t) <= DaysSince(ref, u)
             && Others(3, wave, profile, t, ref, NoiseAt(t)) == Others(3, wave, profile, u, ref, NoiseAt(u)) >= 0.0
    ensures RateAt(wave, profile, early, ref, scale) <= RateAt(wave, profile, late, ref, scale)
  {
    var t, u := ProfileTime(early, ref, scale), ProfileTime(late, ref, scale);
    RateIsClamped(wave, profile, early, ref, scale);
    RateIsClamped(wave, profile, late, ref, scale);
    TrendRaises(wave, profile, t, u, ref, NoiseAt(t), NoiseAt(u));
  }

  /** The factors of a profile without its trend. */
  lemma FlatFactors(wave: real -> real, profile: Profile, flat: Profile, t: real, ref: real, noise: real)
    requires profile.Parsed() && flat == profile.(trendPctPerDay := 0.0)
    ensures Factors(wave, flat, t, ref, noise)[3] == 1.0
    ensures Others(3, wave, flat, t, ref, noise) == Others(3, wave, profile, t, ref, noise)
  {
    Nothing(DaysSince(ref, t));
    assert Drop(Factors(wave, flat, t, ref, noise), 3) == Drop(Factors(wave, profile, t, ref, noise), 3);
  }

  lemma Nothing(x: real)
    ensures 1.0 + 0.0 * x == 1.0
  {
  }

  lemma TrendFactorIs(wave: real -> real, profile: Profile, t: real, ref: real, noise: real, factor: real)
    requires profile.Parsed() && factor == 1.0 + profile.trendPctPerDay * DaysSince(ref, t)
    ensures Factors(wave, profile, t, ref, noise)[3] == factor
  {
  }

  lemma TrendScalesTheProduct(wave: real -> real, profile: Profile, flat: Profile, t: real, ref: real, noise: real, factor: real)
    requires profile.Parsed() && flat == profile.(trendPctPerDay := 0.0)
    requires factor == 1.0 + profile.trendPctPerDay * DaysSince(ref, t)
    ensures Raw(wave, profile, t, ref, noise) == factor * Raw(wave, flat, t, ref, noise)
  {
    TrendFactorIs(wave, profile, t, ref, noise, factor);
    RawFactorOut(3, wave, profile, t, ref, noise);
    RawFactorOut(3, wave, flat, t, ref, noise);
    FlatFactors(wave, profile, flat, t, ref, noise);
    WithoutOne(Raw(wave, profile, t, ref, noise), Raw(wave, flat, t, ref, noise), factor, Factors(wave, profile, t, ref, noise)[3],
      Factors(wave, flat, t, ref, noise)[3], Others(3, wave, profile, t, ref, noise), Others(3, wave, flat, t, ref, noise));
  }

  lemma WithoutOne(raw: real, raw': real, factor: real, f: real, g: real, others: real, others': real)
    requires raw == f * others && raw' == g * others' && f == factor && g == 1.0 && others == others'
    ensures raw == factor * raw'
  {
  }

  lemma TrendAt(wave: real -> real, profile: Profile, flat: Profile, t: real, ref: real, noise: real, factor: real,
                rate: real, flatRate: real)
    requires profile.Parsed() && flat == profile.(trendPctPerDay := 0.0)
    requires factor >= 0.0 && factor == 1.0 + profile.trendPctPerDay * DaysSince(ref, t)
    requires rate == Clamped(wave, profile, t, ref, noise) && flatRate == Clamped(wave, flat, t, ref, noise)
    ensures rate == factor * flatRate
  {
    TrendScalesTheProduct(wave, profile, flat, t, ref, noise, factor);
    ScaledRate(rate, flatRate, Raw(wave, profile, t, ref, noise), Raw(wave, flat, t, ref, noise), factor);
  }

  lemma RateIsAt(wave: real -> real, profile: Profile, unixSeconds: real, ref: real, scale: real, t: real, rate: real)
    requires profile.Parsed() && t == ProfileTime(unixSeconds, ref, scale) && rate == RateAt(wave, profile, unixSeconds, ref, scale)
    ensures rate == Clamped(wave, profile, t, ref, NoiseAt(t))
  {
  }

  /** The trend multiplies the rate by 1 + pct * days, as long as that is not negative. */
  lemma TrendScalesTheRate(wave: real -> real, profile: Profile, flat: Profile, unixSeconds: real, ref: real, scale: real,
                           t: real, factor: real, rate: real, flatRate: real)
    requires profile.Parsed() && flat == profile.(trendPctPerDay := 0.0) && t == ProfileTime(unixSeconds, ref, scale)
    requires factor >= 0.0 && factor == 1.0 + profile.trendPctPerDay * DaysSince(ref, t)
    requires rate == RateAt(wave, profile, unixSeconds, ref, scale) && flatRate == RateAt(wave, flat, unixSeconds, ref, scale)
    ensures rate == factor * flatRate
  {
    RateIsAt(wave, profile, unixSeconds, ref, scale, t, rate);
    RateIsAt(wave, flat, unixSeconds, ref, scale, t, flatRate);
    TrendAt(wave, profile, flat, t, ref, NoiseAt(t), factor, rate, flatRate);
  }

  /** A greater noise sample never lowers the rate. */
  lemma NoiseRaises(wave: real -> real, profile: Profile, t: real, ref: real, low: real, high: real)
    requires profile.Parsed() && profile.noisePct >= 0.0 && low <= high && Others(4, wave, profile, t, ref, low) >= 0.0
    ensures Clamped(wave, profile, t, ref, low) <= Clamped(wave, profile, t, ref, high)
  {
    RawFactorOut(4, wave, profile, t, ref, low);
    RawFactorOut(4, wave, profile, t, ref, high);
    SwingsAre(wave, profile, t, ref, low);
    SwingsAre(wave, profile, t, ref, high);
    assert Drop(Factors(wave, profile, t, ref, low), 4) == Drop(Factors(wave, profile, t, ref, high), 4);
    SwingOrder(profile.noisePct, low, high, Factors(wave, profile, t, ref, low)[4], Factors(wave, profile, t, ref, high)[4],
      Others(4, wave, profile, t, ref, low), Raw(wave, profile, t, ref, low), Raw(wave, profile, t, ref, high));
  }

  function AnomalyFactors(anomalies: seq<Anomaly>, t: real, ref: real): (f: seq<real>)
    ensures |f| == |anomalies|
  {
    seq(|anomalies|, i requires 0 <= i < |anomalies| => AnomalyFactor(anomalies[i], t, ref))
  }

  lemma {:induction false} AnomalyProductIsProduct(anomalies: seq<Anomaly>, t: real, ref: real)
    ensures AnomalyProduct(anomalies, t, ref) == Product(AnomalyFactors(anomalies, t, ref))
    decreases |anomalies|
  {
    if anomalies != [] {
      var n := |anomalies| - 1;
      AnomalyProductIsProduct(anomalies[..n], t, ref);
      assert AnomalyFactors(anomalies, t, ref)[..n] == AnomalyFactors(anomalies[..n], t, ref);
    }
  }

  lemma DropAnomaly(anomalies: seq<Anomaly>, i: nat, t: real, ref: real)
    requires i < |anomalies|
    ensures AnomalyFactors(Drop(anomalies, i), t, ref) == Drop(AnomalyFactors(anomalies, t, ref), i)
  {
  }

  /** Each anomaly contributes its own factor, wherever it is listed. */
  lemma AnomalyContributes(anomalies: seq<Anomaly>, i: nat, t: real, ref: real, effects: seq<real>,
                           effect: real, product: real, others: real)
    requires i < |anomalies| && effects == AnomalyFactors(anomalies, t, ref) && effect == effects[i]
    requires product == AnomalyProduct(anomalies, t, ref) && others == AnomalyProduct(Drop(anomalies, i), t, ref)
    ensures product == effect * others
  {
    AnomalyProductIs(anomalies, t, ref, effects, product);
    DropAnomaly(anomalies, i, t, ref);
    AnomalyProductIs(Drop(anomalies, i), t, ref, Drop(effects, i), others);
    FactorOut(effects, i, effect, product, others);
  }

  lemma AnomalyProductIs(anomalies: seq<Anomaly>, t: real, ref: real, effects: seq<real>, product: real)
    requires effects == AnomalyFactors(anomalies, t, ref) && product == AnomalyProduct(anomalies, t, ref)
    ensures product == Product(effects)
  {
    AnomalyProductIsProduct(anomalies, t, ref);
  }

  /** The product without the i-th anomaly. */
  lemma CalmProduct(f: seq<real>, g: seq<real>, effect: real, last: real, calmLast: real, raw: real, calmRaw: real)
    requires |f| == |g| == 6 && Drop(f, 5) == Drop(g, 5) && last == f[5] && calmLast == g[5] && last == effect * calmLast
    requires raw == Product(f) && calmRaw == Product(g)
    ensures raw == effect * calmRaw
  {
    var others := Product(Drop(f, 5));
    FactorOut(f, 5, last, raw, others);
    FactorOut(g, 5, calmLast, calmRaw, others);
    Nested(raw, calmRaw, effect, last, calmLast, others);
  }

  lemma CalmRate(f: seq<real>, g: seq<real>, effect: real, last: real, calmLast: real, rate: real, calmRate: real)
    requires |f| == |g| == 6 && Drop(f, 5) == Drop(g, 5) && last == f[5] && calmLast == g[5] && last == effect * calmLast
    requires effect >= 0.0 && rate == NonNegative(Product(f)) && calmRate == NonNegative(Product(g))
    ensures rate == effect * calmRate
  {
    CalmProduct(f, g, effect, last, calmLast, Product(f), Product(g));
    ScaledRate(rate, calmRate, Product(f), Product(g), effect);
  }

  lemma Nested(raw: real, raw': real, a: real, f: real, g: real, others: real)
    requires raw == f * others && raw' == g * others && f == a * g
    ensures raw == a * raw'
  {
    Regroup(a, g, others);
  }

  lemma OthersCalm(wave: real -> real, profile: Profile, calm: Profile, i: nat, t: real, ref: real, noise: real,
                   f: seq<real>, g: seq<real>)
    requires profile.Parsed() && i < |profile.anomalies| && calm == profile.(anomalies := Drop(profile.anomalies, i))
    requires f == Factors(wave, profile, t, ref, noise) && g == Factors(wave, calm, t, ref, noise)
    ensures Drop(f, 5) == Drop(g, 5)
  {
  }

  lemma LastIs(wave: real -> real, profile: Profile, t: real, ref: real, noise: real, f: seq<real>, last: real)
    requires profile.Parsed() && f == Factors(wave, profile, t, ref, noise) && last == f[5]
    ensures last == AnomalyProduct(profile.anomalies, t, ref)
  {
  }

  lemma CalmLast(wave: real -> real, profile: Profile, calm: Profile, i: nat, t: real, ref: real, noise: real,
                 f: seq<real>, g: seq<real>, effect: real, last: real, calmLast: real)
    requires profile.Parsed() && i < |profile.anomalies| && calm == profile.(anomalies := Drop(profile.anomalies, i))
    requires effect == AnomalyFactors(profile.anomalies, t, ref)[i]
    requires f == Factors(wave, profile, t, ref, noise) && g == Factors(wave, calm, t, ref, noise)
    requires last == f[5] && calmLast == g[5]
    ensures last == effect * calmLast
  {
    LastIs(wave, profile, t, ref, noise, f, last);
    LastIs(wave, calm, t, ref, noise, g, calmLast);
    AnomalyContributes(profile.anomalies, i, t, ref, AnomalyFactors(profile.anomalies, t, ref), effect, last, calmLast);
  }

  lemma CalmAt(wave: real -> real, profile: Profile, calm: Profile, i: nat, t: real, ref: real, noise: real,
               f: seq<real>, g: seq<real>, effect: real, last: real, calmLast: real, rate: real, calmRate: real)
    requires profile.Parsed() && i < |profile.anomalies| && calm == profile.(anomalies := Drop(profile.anomalies, i))
    requires effect == AnomalyFactors(profile.anomalies, t, ref)[i] && effect >= 0.0
    requires f == Factors(wave, profile, t, ref, noise) && g == Factors(wave, calm, t, ref, noise)
    requires last == f[5] && calmLast == g[5] && rate == NonNegative(Product(f)) && calmRate == NonNegative(Product(g))
    ensures rate == effect * calmRate
  {
    OthersCalm(wave, profile, calm, i, t, ref, noise, f, g);
    CalmLast(wave, profile, calm, i, t, ref, noise, f, g, effect, last, calmLast);
    CalmRate(f, g, effect, last, calmLast, rate, calmRate);
  }

  lemma CalmRateAt(wave: real -> real, profile: Profile, calm: Profile, i: nat, t: real, ref: real, noise: real,
                   effect: real, rate: real, calmRate: real)
    requires profile.Parsed() && i < |profile.anomalies| && calm == profile.(anomalies := Drop(profile.anomalies, i))
    requires effect == AnomalyFactors(profile.anomalies, t, ref)[i] && effect >= 0.0
    requires rate == Clamped(wave, profile, t, ref, noise) && calmRate == Clamped(wave, calm, t, ref, noise)
    ensures rate == effect * calmRate
  {
    var f, g := Factors(wave, profile, t, ref, noise), Factors(wave, calm, t, ref, noise);
    CalmAt(wave, profile, calm, i, t, ref, noise, f, g, effect, f[5], g[5], rate, calmRate);
  }

  lemma EffectInWindow(anomalies: seq<Anomaly>, i: nat, unixSeconds: real, ref: real, scale: real, t: real, effect: real)
    requires i < |anomalies| && scale > 0.0 && t == ProfileTime(unixSeconds, ref, scale)
    requires anomalies[i].kind == "spike" || anomalies[i].kind == "outage"
    requires InRealWindow(anomalies[i], unixSeconds, ref, scale) && effect == anomalies[i].multiplier
    ensures effect == AnomalyFactors(anomalies, t, ref)[i]
  {
    WindowInvertsTheWarp(anomalies[i], unixSeconds, ref, scale);
  }

  /** Inside its wall-clock window a spike or an outage multiplies the rate by its multiplier. */
  lemma SpikeMultiplies(wave: real -> real, profile: Profile, calm: Profile, i: nat, unixSeconds: real, ref: real, scale: real,
                        t: real, multiplier: real, rate: real, calmRate: real)
    requires profile.Parsed() && scale > 0.0 && t == ProfileTime(unixSeconds, ref, scale)
    requires i < |profile.anomalies| && InRealWindow(profile.anomalies[i], unixSeconds, ref, scale)
    requires profile.anomalies[i].kind == "spike" || profile.anomalies[i].kind == "outage"
    requires multiplier == profile.anomalies[i].multiplier && multiplier >= 0.0
    requires calm == profile.(anomalies := Drop(profile.anomalies, i))
    requires rate == RateAt(wave, profile, unixSeconds, ref, scale) && calmRate == RateAt(wave, calm, unixSeconds, ref, scale)
    ensures rate == multiplier * calmRate
  {
    RateIsAt(wave, profile, unixSeconds, ref, scale, t, rate);
    RateIsAt(wave, calm, unixSeconds, ref, scale, t, calmRate);
    EffectInWindow(profile.anomalies, i, unixSeconds, ref, scale, t, multiplier);
    CalmRateAt(wave, profile, calm, i, t, ref, NoiseAt(t), multiplier, rate, calmRate);
  }

  method GoRate(wave: real -> real, unixSeconds: real, profile: Profile, ref: real, scale: real) returns (r: real)
    requires profile.Parsed()
    ensures r == RateAt(wave, profile, unixSeconds, ref, scale)
    ensures r >= 0.0
  {
    var profileTime := ProfileTime(unixSeconds, ref, scale);
    r := Evaluate(wave, profile, profileTime, ref, NoiseAt(profileTime));
  }

  /** The factors of the rate, which the two implementations compute line for line alike, from either noise sample. */
  method Evaluate(wave: real -> real, profile: Profile, profileTime: real, ref: real, noise: real) returns (r: real)
    requires profile.Parsed()
    ensures r == Clamped(wave, profile, profileTime, ref, noise)
  {
    var diurnalFactor := Swing(profile.amplitude, wave(HourOfDay(profileTime) - profile.phaseHours));
    WeekdayIsEuclidean(DaysSinceEpoch(profileTime));
    var weekdayFactor := profile.weekdayCoefficients[MondayIndex(DaysSinceEpoch(profileTime))];
    var trendFactor := Swing(profile.trendPctPerDay, DaysSince(ref, profileTime));
    var noiseFactor := Swing(profile.noisePct, noise);
    var anomaly := AccumulateAnomalies(profile.anomalies, profileTime, ref);
    var raw := Product([profile.baseRatePerS, diurnalFactor, weekdayFactor, trendFactor, noiseFactor, anomaly]);
    r := NonNegative(raw);
  }

  /** The loop both implementations run over the anomalies. */
  method AccumulateAnomalies(anomalies: seq<Anomaly>, profileTime: real, ref: real) returns (anomaly: real)
    ensures anomaly == AnomalyProduct(anomalies, profileTime, ref)
  {
    anomaly := 1.0;
    for i := 0 to |anomalies|
      invariant anomaly == AnomalyProduct(anomalies[..i], profileTime, ref)
    {
      assert anomalies[..i + 1][..i] == anomalies[..i];
      anomaly := anomaly * AnomalyFactor(anomalies[i], profileTime, ref);
    }
    assert anomalies[..|anomalies|] == anomalies;
  }

  method JsNoiseSample(profileTime: real) returns (noise: real)
    ensures noise == NoiseAt(profileTime)
  {
    var bucket := (profileTime / 60.0).Floor;
    NoiseParity(bucket);
    noise := JsNoise(bucket);
  }

  datatype RateError = TypeError

  /** `ref` is absent when it is not a finite number, `scale` when the option is omitted. */
  method JsRate(wave: real -> real, unixSeconds: real, profile: Profile, scale: Option<real>, ref: Option<real>)
    returns (r: Result<real, RateError>)
    requires profile.Parsed()
    ensures r.Err? <==> ref.None?
    ensures r.Ok? ==> r.value == RateAt(wave, profile, unixSeconds, ref.value, if scale.Some? then scale.value else 1.0)
  {
    if ref.None? {
      return Err(TypeError);
    }
    var rate := JsRateAt(wave, unixSeconds, profile, if scale.Some? then scale.value else 1.0, ref.value);
    return Ok(rate);
  }

  method JsRateAt(wave: real -> real, unixSeconds: real, profile: Profile, scale: real, ref: real) returns (r: real)
    requires profile.Parsed()
    ensures r == RateAt(wave, profile, unixSeconds, ref, scale)
  {
    var profileTime := ProfileTime(unixSeconds, ref, scale);
    var noise := JsNoiseSample(profileTime);
    r := Evaluate(wave, profile, profileTime, ref, noise);
  }

  /** Throughout the wall-clock window of a zero-multiplier outage nothing is generated. */
  lemma OutageIsSilent(wave: real -> real, profile: Profile, i: nat, unixSeconds: real, ref: real, scale: real)
    requires profile.Parsed() && scale > 0.0 && i < |profile.anomalies|
    requires profile.anomalies[i].kind == "outage" && profile.anomalies[i].multiplier == 0.0
    requires InRealWindow(profile.anomalies[i], unixSeconds, ref, scale)
    ensures RateAt(wave, profile, unixSeconds, ref, scale) == 0.0
  {
    var profileTime := ProfileTime(unixSeconds, ref, scale);
    WindowInvertsTheWarp(profile.anomalies[i], unixSeconds, ref, scale);
    ZeroFactorAnnihilates(profile.anomalies, i, profileTime, ref);
    assert Raw(wave, profile, profileTime, ref, NoiseAt(profileTime)) == 0.0;
  }
}
