/** Delivery of notifications: attempts, retries with growing delays, and the dead-letter queue. */
module Notifications {
  import opened Basics

  datatype Status = Pending | Sent | Failed

  /** One row of `notifications`. */
  datatype Notification = Notification(
    channel: string,
    recipient: string,
    message: string,
    status: Status,
    attempts: nat,
    lastError: Option<string>,
    nextAttemptAt: Option<Time>,
    sentAt: Option<Time>)

  datatype DeadLetter = DeadLetter(notificationId: string, reason: string)

  /** The two tables, and how often each notification was handed to its provider. */
  datatype Mail = Mail(rows: map<string, Notification>, dlq: seq<DeadLetter>, sends: multiset<string>)

  const EMPTY := Mail(map[], [], multiset{})

  // ------------------------------------------------------------------- retry delay

  const SECOND := 1_000_000_000
  const BASE_DELAY := 5 * SECOND
  const MAX_DELAY := 300 * SECOND

  /** The value a signed 64-bit word keeps of x. */
  function Wrap64(x: int): (r: int)
    ensures -0x8000_0000_0000_0000 <= r < 0x8000_0000_0000_0000
  {
    (x + 0x8000_0000_0000_0000) % 0x1_0000_0000_0000_0000 - 0x8000_0000_0000_0000
  }

  function Pow2(n: nat): (p: int)
    ensures p >= 1
  {
    if n == 0 then 1 else 2 * Pow2(n - 1)
  }

  /** The delay as the code computes it: the shift and the product are those of 64-bit words. */
  function RetryDelay(attempt: int): int {
    if attempt <= 1 then BASE_DELAY
    else
      var delay := Wrap64(BASE_DELAY * Wrap64(Pow2(attempt - 1)));
      if delay > MAX_DELAY then MAX_DELAY else delay
  }

  /** The delay as it is meant: five seconds, doubled each time, five minutes at most. */
  function IntendedDelay(attempt: int): int {
    if attempt <= 1 then BASE_DELAY else Min(BASE_DELAY * Pow2(attempt - 1), MAX_DELAY)
  }

  /** The attempts at which an overflowing product still comes out above five minutes. */
  predicate LuckyOverflow(attempt: int) {
    || attempt == 33 || attempt == 34 || attempt == 36 || attempt == 38 || 40 <= attempt <= 45
    || attempt == 47 || attempt == 53 || attempt == 54
  }

  lemma {:induction false} Pow2Sum(a: nat, b: nat)
    ensures Pow2(a + b) == Pow2(a) * Pow2(b)
    decreases b
  {
    if b > 0 {
      Pow2Sum(a, b - 1);
    }
  }

  lemma Pow2Grows(a: nat, b: nat)
    requires a <= b
    ensures Pow2(a) <= Pow2(b)
  {
    Pow2Sum(a, b - a);
  }

  /** The delay is the intended one exactly up to attempt 31 and at thirteen later attempts. */
  lemma RetryDelayIsIntendedIff(attempt: int)
    ensures RetryDelay(attempt) == IntendedDelay(attempt) <==> attempt <= 31 || LuckyOverflow(attempt)
  {
    if attempt <= 1 {
    } else if attempt <= 55 {
      SmallAttempts(attempt);
    } else {
      LateAttempts(attempt);
    }
  }

  lemma SmallAttempts(attempt: int)
    requires 2 <= attempt <= 55
    ensures RetryDelay(attempt) == IntendedDelay(attempt) <==> attempt <= 31 || LuckyOverflow(attempt)
  {
    var n := attempt - 1;
    DelayIsWord(attempt);
    IntendedIsCapped(n);
    if n <= 30 {
      EarlyWord(n);
    } else {
      OverflowingWords(n);
    }
  }

  lemma DelayIsWord(attempt: int)
    requires 2 <= attempt <= 55
    ensures RetryDelay(attempt) == Min(Word(attempt - 1), MAX_DELAY)
  {
    ProductIsDoubled(attempt - 1);
  }

  /** Six doublings pass five minutes. */
  lemma IntendedIsCapped(n: nat)
    ensures n >= 6 ==> BASE_DELAY * Pow2(n) > MAX_DELAY
  {
    if n >= 6 {
      Pow2Grows(6, n);
      assert Pow2(6) == 64;
    }
  }

  lemma {:induction false} EarlyWord(n: nat)
    requires n <= 30
    ensures Word(n) == BASE_DELAY * Pow2(n)
  {
    if n > 0 {
      EarlyWord(n - 1);
      Pow2Grows(n - 1, 29);
      PowersOfTwo();
    }
  }

  lemma PowersOfTwo()
    ensures Pow2(29) == 0x2000_0000 && Pow2(30) == 0x4000_0000 && Pow2(31) == 0x8000_0000 &&
        Pow2(55) == 0x80_0000_0000_0000
  {
    assert Pow2(10) == 0x400;
    Pow2Sum(10, 10);
    Pow2Sum(20, 10);
    Pow2Sum(30, 1);
    Pow2Sum(30, 20);
    Pow2Sum(50, 5);
  }

  /** Doubling in a 64-bit word: the carry out of the top is dropped. */
  function Doubled(x: int): int {
    if 2 * x >= 0x8000_0000_0000_0000 then 2 * x - 0x1_0000_0000_0000_0000
    else if 2 * x < -0x8000_0000_0000_0000 then 2 * x + 0x1_0000_0000_0000_0000
    else 2 * x
  }

  /** The base delay after n doublings of a 64-bit word. */
  function Word(n: nat): (x: int)
    ensures -0x8000_0000_0000_0000 <= x < 0x8000_0000_0000_0000
  {
    if n == 0 then BASE_DELAY else Doubled(Word(n - 1))
  }

  lemma {:induction false} WrapsToWord(n: nat)
    ensures Wrap64(BASE_DELAY * Pow2(n)) == Word(n)
  {
    if n > 0 {
      WrapsToWord(n - 1);
      WrapDoubles(BASE_DELAY * Pow2(n - 1));
    }
  }

  lemma WrapDoubles(x: int)
    ensures Wrap64(2 * x) == Doubled(Wrap64(x))
  {
  }

  lemma WrapSmall(x: int)
    requires 0 <= x < 0x8000_0000_0000_0000
    ensures Wrap64(x) == x
  {
  }

  lemma ProductIsDoubled(n: nat)
    requires n <= 54
    ensures Wrap64(BASE_DELAY * Wrap64(Pow2(n))) == Word(n)
  {
    assert Wrap64(Pow2(n)) == Pow2(n) by {
      Pow2Grows(n, 55);
      PowersOfTwo();
      WrapSmall(Pow2(n));
    }
    WrapsToWord(n);
  }

  lemma WordsTo38()
    ensures Word(31) == -7_709_325_833_709_551_616
    ensures Word(32) == 3_028_092_406_290_448_384
    ensures Word(33) == 6_056_184_812_580_896_768
    ensures Word(34) == -6_334_374_448_547_758_080
    ensures Word(35) == 5_777_995_176_614_035_456
    ensures Word(36) == -6_890_753_720_481_480_704
    ensures Word(37) == 4_665_236_632_746_590_208
    ensures Word(38) == -9_116_270_808_216_371_200
  {
    EarlyWord(30);
    PowersOfTwo();
  }

  lemma WordsTo46()
    ensures Word(39) == 214_202_457_276_809_216
    ensures Word(40) == 428_404_914_553_618_432
    ensures Word(41) == 856_809_829_107_236_864
    ensures Word(42) == 1_713_619_658_214_473_728
    ensures Word(43) == 3_427_239_316_428_947_456
    ensures Word(44) == 6_854_478_632_857_894_912
    ensures Word(45) == -4_737_786_807_993_761_792
    ensures Word(46) == 8_971_170_457_722_028_032
  {
    WordsTo38();
  }

  lemma WordsTo54()
    ensures Word(47) == -504_403_158_265_495_552
    ensures Word(48) == -1_008_806_316_530_991_104
    ensures Word(49) == -2_017_612_633_061_982_208
    ensures Word(50) == -4_035_225_266_123_964_416
    ensures Word(51) == -8_070_450_532_247_928_832
    ensures Word(52) == 2_305_843_009_213_693_952
    ensures Word(53) == 4_611_686_018_427_387_904
    ensures Word(54) == -9_223_372_036_854_775_808
  {
    WordsTo46();
  }

  lemma OverflowingWords(n: nat)
    requires 31 <= n <= 54
    ensures Word(n) >= MAX_DELAY <==> LuckyOverflow(n + 1)
  {
    WordsTo38();
    WordsTo46();
    WordsTo54();
    if n == 31 || n == 32 || n == 33 || n == 34 || n == 35 || n == 36 {
    } else if n == 37 || n == 38 || n == 39 || n == 40 || n == 41 || n == 42 {
    } else if n == 43 || n == 44 || n == 45 || n == 46 || n == 47 || n == 48 {
    } else {
      assert n == 49 || n == 50 || n == 51 || n == 52 || n == 53 || n == 54;
    }
  }

  /** From attempt 56 on the product is a multiple of two to the 64: the delay is zero. */
  lemma LateAttempts(attempt: int)
    requires attempt >= 56
    ensures RetryDelay(attempt) == 0 && IntendedDelay(attempt) == MAX_DELAY
  {
    var p := Pow2(attempt - 1);
    Pow2Sum(55, attempt - 56);
    PowersOfTwo();
    var q := Pow2(attempt - 56);
    assert p == 0x80_0000_0000_0000 * q;
    var carried := (p + 0x8000_0000_0000_0000) / 0x1_0000_0000_0000_0000;
    assert Wrap64(p) == p - 0x1_0000_0000_0000_0000 * carried;
    MultiplesWrapToZero(9765625 * q - BASE_DELAY * carried);
  }

  lemma MultiplesWrapToZero(m: int)
    ensures Wrap64(0x1_0000_0000_0000_0000 * m) == 0
  {
    var n := 0x1_0000_0000_0000_0000;
    assert (n * m + n / 2) / n == m;
  }
}
