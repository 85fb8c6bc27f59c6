/** The retry backoff: a delay doubled once per attempt in 64-bit nanoseconds, then capped. */
module Backoff {

  // Durations are in nanoseconds, as in the source.
  const MINUTE := 60_000_000_000
  const MAX_DELAY := 1_800_000_000_000

  /** The signed 64-bit integer congruent to x. */
  function Wrap64(x: int): int {
    (x + 0x8000_0000_0000_0000) % 0x1_0000_0000_0000_0000 - 0x8000_0000_0000_0000
  }

  /** One minute doubled k times in 64-bit arithmetic. */
  function Doubled(k: nat): int {
    if k == 0 then MINUTE else Wrap64(2 * Doubled(k - 1))
  }

  /** The delay after the given number of attempts; maxAttempts plays no part in it. */
  function Delay(attempts: int): int {
    if attempts <= 1 then MINUTE
    else if Doubled(attempts - 1) > MAX_DELAY then MAX_DELAY else Doubled(attempts - 1)
  }

  method NextRetryTime(attempts: int, maxAttempts: int, now: int) returns (at: int)
    ensures at == now + Delay(attempts)
  {
    var delay := MINUTE;
    var i := 1;
    while i < attempts
      invariant 1 <= i && (i <= attempts || i == 1)
      invariant delay == Doubled(i - 1)
    {
      delay := Wrap64(2 * delay);
      i := i + 1;
    }
    if delay > MAX_DELAY {
      delay := MAX_DELAY;
    }
    at := now + delay;
  }

  function Minutes(n: int): int {
    n * 60_000_000_000
  }

  function Pow2(k: nat): nat {
    if k == 0 then 1 else 2 * Pow2(k - 1)
  }

  /** The schedule the source documents: 1, 2, 4, 8, 16 minutes, then 30. */
  function Ideal(attempts: int): int {
    if attempts <= 1 then Minutes(1)
    else if Pow2(attempts - 1) > 30 then Minutes(30) else Minutes(Pow2(attempts - 1))
  }

  lemma {:induction false} Pow2Monotone(j: nat, k: nat)
    requires j <= k
    ensures 0 < Pow2(j) <= Pow2(k)
  {
    if j < k { Pow2Monotone(j, k - 1); } else if j > 0 { Pow2Monotone(j - 1, k - 1); }
  }

  lemma Wrap64Identity(x: int)
    requires -0x8000_0000_0000_0000 <= x < 0x8000_0000_0000_0000
    ensures Wrap64(x) == x
  {}

  lemma Pow2Of27()
    ensures Pow2(27) == 134_217_728
  {
    assert Pow2(10) == 1024;
    assert Pow2(20) == 1_048_576;
  }

  /** Up to 27 doublings nothing overflows. */
  lemma {:induction false} DoubledExact(k: nat)
    requires k <= 27
    ensures Doubled(k) == Minutes(Pow2(k))
  {
    if k > 0 {
      DoubledExact(k - 1);
      Pow2Monotone(k, 27);
      Pow2Of27();
      Wrap64Identity(2 * Doubled(k - 1));
    }
  }

  /** The wrapped delay is above the cap, hence capped, or not positive. */
  predicate Wrapped(k: nat) {
    if Lucky(k + 1) then Doubled(k) > MAX_DELAY else Doubled(k) <= 0
  }

  lemma DoubledStep(k: nat, x: int)
    requires Doubled(k) == x
    ensures Doubled(k + 1) == Wrap64(2 * x)
  {}

  // The doublings from the 27th on, while the value still depends on more than zero bits.

  lemma DoubledTable1(b: nat)
    requires Doubled(b) == 8_053_063_680_000_000_000
    ensures Doubled(b + 1) == -2_340_616_713_709_551_616
    ensures Doubled(b + 2) == -4_681_233_427_419_103_232
    ensures Doubled(b + 3) == 9_084_277_218_871_345_152
    ensures Doubled(b + 4) == -278_189_635_966_861_312
    ensures Doubled(b + 5) == -556_379_271_933_722_624
    ensures Doubled(b + 6) == -1_112_758_543_867_445_248
    ensures Doubled(b + 7) == -2_225_517_087_734_890_496
  {
    DoubledStep(b, 8_053_063_680_000_000_000);
    DoubledStep(b + 1, -2_340_616_713_709_551_616);
    DoubledStep(b + 2, -4_681_233_427_419_103_232);
    DoubledStep(b + 3, 9_084_277_218_871_345_152);
    DoubledStep(b + 4, -278_189_635_966_861_312);
    DoubledStep(b + 5, -556_379_271_933_722_624);
    DoubledStep(b + 6, -1_112_758_543_867_445_248);
  }

  lemma DoubledTable2(b: nat)
    requires Doubled(b) == -2_225_517_087_734_890_496
    ensures Doubled(b + 1) == -4_451_034_175_469_780_992
    ensures Doubled(b + 2) == -8_902_068_350_939_561_984
    ensures Doubled(b + 3) == 642_607_371_830_427_648
    ensures Doubled(b + 4) == 1_285_214_743_660_855_296
    ensures Doubled(b + 5) == 2_570_429_487_321_710_592
    ensures Doubled(b + 6) == 5_140_858_974_643_421_184
    ensures Doubled(b + 7) == -8_165_026_124_422_709_248
  {
    DoubledStep(b, -2_225_517_087_734_890_496);
    DoubledStep(b + 1, -4_451_034_175_469_780_992);
    DoubledStep(b + 2, -8_902_068_350_939_561_984);
    DoubledStep(b + 3, 642_607_371_830_427_648);
    DoubledStep(b + 4, 1_285_214_743_660_855_296);
    DoubledStep(b + 5, 2_570_429_487_321_710_592);
    DoubledStep(b + 6, 5_140_858_974_643_421_184);
  }

  lemma DoubledTable3(b: nat)
    requires Doubled(b) == -8_165_026_124_422_709_248
    ensures Doubled(b + 1) == 2_116_691_824_864_133_120
    ensures Doubled(b + 2) == 4_233_383_649_728_266_240
    ensures Doubled(b + 3) == 8_466_767_299_456_532_480
    ensures Doubled(b + 4) == -1_513_209_474_796_486_656
    ensures Doubled(b + 5) == -3_026_418_949_592_973_312
    ensures Doubled(b + 6) == -6_052_837_899_185_946_624
  {
    DoubledStep(b, -8_165_026_124_422_709_248);
    DoubledStep(b + 1, 2_116_691_824_864_133_120);
    DoubledStep(b + 2, 4_233_383_649_728_266_240);
    DoubledStep(b + 3, 8_466_767_299_456_532_480);
    DoubledStep(b + 4, -1_513_209_474_796_486_656);
    DoubledStep(b + 5, -3_026_418_949_592_973_312);
  }

  lemma DoubledTable4(b: nat)
    requires Doubled(b) == -6_052_837_899_185_946_624
    ensures Doubled(b + 1) == 6_341_068_275_337_658_368
    ensures Doubled(b + 2) == -5_764_607_523_034_234_880
    ensures Doubled(b + 3) == 6_917_529_027_641_081_856
    ensures Doubled(b + 4) == -4_611_686_018_427_387_904
    ensures Doubled(b + 5) == -9_223_372_036_854_775_808
    ensures Doubled(b + 6) == 0
  {
    DoubledStep(b, -6_052_837_899_185_946_624);
    DoubledStep(b + 1, 6_341_068_275_337_658_368);
    DoubledStep(b + 2, -5_764_607_523_034_234_880);
    DoubledStep(b + 3, 6_917_529_027_641_081_856);
    DoubledStep(b + 4, -4_611_686_018_427_387_904);
    DoubledStep(b + 5, -9_223_372_036_854_775_808);
  }

  lemma Block1(b: nat, k: nat)
    requires b == 27 && b < k <= 34
    ensures Wrapped(k) && (k == 34 ==> Doubled(k) == -2_225_517_087_734_890_496)
  {
    DoubledExact(b);
    Pow2Of27();
    DoubledTable1(b);
  }

  lemma Block2(b: nat, k: nat)
    requires b == 34 && b < k <= 41
    ensures Wrapped(k) && (k == 41 ==> Doubled(k) == -8_165_026_124_422_709_248)
  {
    Block1(b - 7, b);
    DoubledTable2(b);
  }

  lemma Block3(b: nat, k: nat)
    requires b == 41 && b < k <= 47
    ensures Wrapped(k) && (k == 47 ==> Doubled(k) == -6_052_837_899_185_946_624)
  {
    Block2(b - 7, b);
    DoubledTable3(b);
  }

  lemma Block4(b: nat, k: nat)
    requires b == 47 && b < k <= 53
    ensures Wrapped(k) && (k == 53 ==> Doubled(k) == 0)
  {
    Block3(b - 6, b);
    DoubledTable4(b);
  }

  lemma DoubledTables(k: nat)
    requires 28 <= k <= 53
    ensures Wrapped(k) && (k == 53 ==> Doubled(k) == 0)
  {
    var b: nat :| b == 27;
    if k <= 34 { Block1(b, k); } else if k <= 41 { Block2(b + 7, k); } else if k <= 47 { Block3(b + 14, k); } else { Block4(b + 20, k); }
  }

  lemma {:induction false} DoubledVanishes(k: nat)
    requires k >= 53
    ensures Doubled(k) == 0
  {
    if k == 53 { DoubledTables(k); } else { DoubledVanishes(k - 1); }
  }

  /** The overflowing attempt counts whose wrapped delay happens to exceed the cap. */
  predicate Lucky(attempts: int) {
    attempts in {31, 38, 39, 40, 41, 43, 44, 45, 49, 51}
  }

  /** The documented schedule is kept exactly for these attempt counts, and for all others the delay is not even
      positive, so that a requeued job is claimable at once. */
  lemma DelayExactly(attempts: int)
    ensures Delay(attempts) == Ideal(attempts) <==> attempts <= 28 || Lucky(attempts)
    ensures Delay(attempts) > 0 <==> attempts <= 28 || Lucky(attempts)
  {
    if attempts > 1 {
      Pow2Monotone(0, attempts - 1);
      if attempts <= 28 {
        DoubledExact(attempts - 1);
      } else {
        Pow2Monotone(5, attempts - 1);
        assert Pow2(5) == 32;
        assert Ideal(attempts) == MAX_DELAY;
        if attempts <= 54 { DoubledTables(attempts - 1); } else { DoubledVanishes(attempts - 1); }
      }
    }
  }

  /** While nothing overflows the delay grows with the attempts, between one minute and half an hour. */
  lemma DelayMonotone(a: int, b: int)
    requires a <= b <= 28
    ensures Minutes(1) <= Delay(a) <= Delay(b) <= Minutes(30)
  {
    DelayExactly(a);
    DelayExactly(b);
    if b > 1 {
      Pow2Monotone(0, b - 1);
      if a > 1 { Pow2Monotone(0, a - 1); Pow2Monotone(a - 1, b - 1); }
    }
  }
}
