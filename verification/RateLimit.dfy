/** The token bucket in front of the queue API, and exactly which requests it admits. */
module RateLimit {

  function MinReal(a: real, b: real): real {
    if a < b then a else b
  }

  // --------------------------------------------------------- one key, in tokens
  //
  // A request is given by what the clock has earned in tokens when it arrives, so that the refill between
  // two requests is a difference.

  ghost predicate Monotone(earned: seq<real>) {
    forall i, j :: 0 <= i <= j < |earned| ==> earned[i] <= earned[j]
  }

  /** The tokens request j finds; the first request of a key finds a full bucket. */
  function Available(burst: real, earned: seq<real>, j: nat): real
    requires j < |earned|
    decreases j, 1
  {
    if j == 0 then burst else MinReal(burst, Tokens(burst, earned, j) + (earned[j] - earned[j - 1]))
  }

  predicate Admitted(burst: real, earned: seq<real>, j: nat)
    requires j < |earned|
    decreases j, 2
  {
    Available(burst, earned, j) >= 1.0
  }

  /** The tokens left by the first n requests. */
  function Tokens(burst: real, earned: seq<real>, n: nat): real
    requires 0 < n <= |earned|
    decreases n, 0
  {
    Available(burst, earned, n - 1) - if Admitted(burst, earned, n - 1) then 1.0 else 0.0
  }

  /** How many of the requests i, …, j - 1 were admitted. */
  function Count(burst: real, earned: seq<real>, i: nat, j: nat): nat
    requires i <= j <= |earned|
    decreases j - i
  {
    if i == j then 0 else Count(burst, earned, i, j - 1) + if Admitted(burst, earned, j - 1) then 1 else 0
  }

  /** What the window from request i leaves for request j: the burst and the refill, less the admitted. */
  function Room(burst: real, earned: seq<real>, i: nat, j: nat): real
    requires i <= j < |earned|
  {
    burst + (earned[j] - earned[i]) - Count(burst, earned, i, j) as real
  }

  lemma RoomStep(burst: real, earned: seq<real>, i: nat, j: nat)
    requires i <= j && j + 1 < |earned|
    ensures Room(burst, earned, i, j + 1) ==
      Room(burst, earned, i, j) + (earned[j + 1] - earned[j]) - if Admitted(burst, earned, j) then 1.0 else 0.0
  {
  }

  /** The tokens on hand are the least room that any window leaves. */
  lemma {:induction false} AvailableIsLeastRoom(burst: real, earned: seq<real>, j: nat) returns (at: nat)
    requires j < |earned|
    ensures at <= j && Available(burst, earned, j) == Room(burst, earned, at, j)
    ensures forall i | 0 <= i <= j :: Available(burst, earned, j) <= Room(burst, earned, i, j)
  {
    at := j;
    if j > 0 {
      var before := AvailableIsLeastRoom(burst, earned, j - 1);
      forall i | 0 <= i < j
        ensures Room(burst, earned, i, j) == Room(burst, earned, i, j - 1)
          + (Tokens(burst, earned, j) - Available(burst, earned, j - 1)) + (earned[j] - earned[j - 1])
      {
        RoomStep(burst, earned, i, j - 1);
      }
      if Available(burst, earned, j) != burst {
        at := before;
      }
    }
  }

  ghost predicate RoomEverywhere(burst: real, earned: seq<real>, j: nat)
    requires j < |earned|
  {
    forall i | 0 <= i <= j :: Room(burst, earned, i, j) >= 1.0
  }

  /** Exactness: a request is admitted iff every window ending with it still has room for one more. */
  lemma AdmittedIffRoom(burst: real, earned: seq<real>, j: nat)
    requires j < |earned|
    ensures Admitted(burst, earned, j) <==> RoomEverywhere(burst, earned, j)
  {
    var at := AvailableIsLeastRoom(burst, earned, j);
  }

  /** Any interval admits at most the burst and what is earned over it. */
  lemma {:induction false} IntervalBound(burst: real, earned: seq<real>, i: nat, j: nat)
    requires burst >= 1.0 && Monotone(earned) && i <= j < |earned|
    ensures Count(burst, earned, i, j + 1) as real <= burst + (earned[j] - earned[i])
    decreases j
  {
    if Admitted(burst, earned, j) {
      AdmittedIffRoom(burst, earned, j);
      assert Room(burst, earned, i, j) >= 1.0;
    } else if i < j {
      IntervalBound(burst, earned, i, j - 1);
    }
  }

  /** The stored tokens stay between nothing and the burst. */
  lemma {:induction false} TokensInRange(burst: real, earned: seq<real>, n: nat)
    requires burst >= 1.0 && Monotone(earned) && 0 < n <= |earned|
    ensures 0.0 <= Tokens(burst, earned, n) <= burst
  {
    if n > 1 {
      TokensInRange(burst, earned, n - 1);
    }
  }

  /** The past does not depend on later requests. */
  lemma {:induction false} TokensOfPrefix(burst: real, earned: seq<real>, more: real, n: nat)
    requires 0 < n <= |earned|
    ensures Tokens(burst, earned + [more], n) == Tokens(burst, earned, n)
  {
    if n > 1 {
      TokensOfPrefix(burst, earned, more, n - 1);
    }
  }

  // --------------------------------------------------------------- rate and time

  /** The tokens the clock has earned by a time. */
  function EarnedBy(rate: real, time: real): real {
    rate * time
  }

  function Earned(rate: real, times: seq<real>): (earned: seq<real>)
    ensures |earned| == |times|
    ensures forall i :: 0 <= i < |times| ==> earned[i] == EarnedBy(rate, times[i])
  {
    if times == [] then [] else Earned(rate, times[..|times| - 1]) + [EarnedBy(rate, times[|times| - 1])]
  }

  lemma Refill(rate: real, a: real, b: real)
    ensures EarnedBy(rate, b) - EarnedBy(rate, a) == rate * (b - a) == (b - a) * rate
  {
  }

  /**
   * The limit in the limiter's own terms, for requests of one key at non-decreasing times: request j is
   * admitted iff for every i <= j the admitted among i, …, j - 1 and itself fit into burst + rate * (t_j - t_i);
   * and no interval admits more than that.
   */
  lemma ExactLimit(rate: real, burst: real, times: seq<real>, j: nat)
    requires rate > 0.0 && burst >= 1.0 && j < |times|
    requires forall a, b :: 0 <= a <= b < |times| ==> times[a] <= times[b]
    ensures var earned := Earned(rate, times);
      && (Admitted(burst, earned, j) <==>
            forall i | 0 <= i <= j :: Count(burst, earned, i, j) as real + 1.0 <= burst + rate * (times[j] - times[i]))
      && (forall i | 0 <= i <= j :: Count(burst, earned, i, j + 1) as real <= burst + rate * (times[j] - times[i]))
      && 0.0 <= Tokens(burst, earned, j + 1) <= burst
  {
    var earned := Earned(rate, times);
    EarnedIsMonotone(rate, times);
    AdmittedIffRoom(burst, earned, j);
    TokensInRange(burst, earned, j + 1);
    forall i | 0 <= i <= j
      ensures Count(burst, earned, i, j) as real + 1.0 <= burst + rate * (times[j] - times[i]) <==>
          Room(burst, earned, i, j) >= 1.0
      ensures Count(burst, earned, i, j + 1) as real <= burst + rate * (times[j] - times[i])
    {
      Refill(rate, times[i], times[j]);
      IntervalBound(burst, earned, i, j);
    }
  }

  lemma EarnedIsMonotone(rate: real, times: seq<real>)
    requires rate > 0.0
    requires forall a, b :: 0 <= a <= b < |times| ==> times[a] <= times[b]
    ensures Monotone(Earned(rate, times))
  {
    forall a, b | 0 <= a <= b < |times| ensures EarnedBy(rate, times[a]) <= EarnedBy(rate, times[b]) {
      Scales(rate, times[a], times[b]);
    }
  }

  lemma Scales(rate: real, a: real, b: real)
    requires rate > 0.0 && a <= b
    ensures EarnedBy(rate, a) <= EarnedBy(rate, b)
  {
  }

  lemma EarnedExtends(rate: real, times: seq<real>, now: real)
    ensures Earned(rate, times + [now]) == Earned(rate, times) + [EarnedBy(rate, now)]
  {
    assert (times + [now])[..|times|] == times;
  }

  /** What a further request finds, from the tokens its predecessors left and the time since the last. */
  lemma FurtherRequest(rate: real, burst: real, times: seq<real>, now: real)
    requires times != []
    ensures var n, earned := |times|, Earned(rate, times + [now]);
      Available(burst, earned, n) ==
        MinReal(burst, Tokens(burst, Earned(rate, times), n) + (now - times[n - 1]) * rate)
  {
    EarnedExtends(rate, times, now);
    TokensOfPrefix(burst, Earned(rate, times), EarnedBy(rate, now), |times|);
    Refill(rate, times[|times| - 1], now);
  }

  // ------------------------------------------------------------------ the limiter

  predicate LeftBy(rate: real, burst: real, tokens: real, times: seq<real>, n: nat) {
    0 < n <= |times| && tokens == Tokens(burst, Earned(rate, times), n)
  }

  /** These tokens and this time are what all of a key's requests leave. */
  ghost predicate Shows(rate: real, burst: real, tokens: real, last: real, times: seq<real>) {
    && times != [] && last == times[|times| - 1]
    && forall n | n == |times| :: LeftBy(rate, burst, tokens, times, n)
  }

  ghost predicate LastAdmitted(rate: real, burst: real, times: seq<real>) {
    times != [] && forall j | j == |times| - 1 :: Admitted(burst, Earned(rate, times), j)
  }

  lemma FirstLeaves(rate: real, burst: real, now: real)
    requires burst >= 1.0
    ensures Shows(rate, burst, burst - 1.0, now, [now]) && LastAdmitted(rate, burst, [now])
  {
    assert LeftBy(rate, burst, burst - 1.0, [now], 1);
  }

  lemma FurtherLeaves(rate: real, burst: real, tokens: real, last: real, times: seq<real>, now: real, found: real)
    requires Shows(rate, burst, tokens, last, times) && found == MinReal(burst, tokens + (now - last) * rate)
    ensures Shows(rate, burst, if found < 1.0 then found else found - 1.0, now, times + [now])
    ensures LastAdmitted(rate, burst, times + [now]) <==> found >= 1.0
  {
    assert LeftBy(rate, burst, tokens, times, |times|);
    FurtherRequest(rate, burst, times, now);
    assert LeftBy(rate, burst, if found < 1.0 then found else found - 1.0, times + [now], |times| + 1);
  }

  class Bucket {
    ghost const owner: string
    var tokens: real
    var last: real

    constructor (ghost owner: string, tokens: real, last: real)
      ensures this.owner == owner && this.tokens == tokens && this.last == last
    {
      this.owner := owner;
      this.tokens := tokens;
      this.last := last;
    }

    /** Refill for the time since the last request, then take a token if there is a whole one. */
    method Take(rate: real, burst: real, now: real, ghost times: seq<real>) returns (ok: bool)
      requires Shows(rate, burst, tokens, last, times)
      modifies this
      ensures Shows(rate, burst, tokens, last, times + [now])
      ensures ok <==> LastAdmitted(rate, burst, times + [now])
    {
      var elapsed := now - last;
      FurtherLeaves(rate, burst, tokens, last, times, now, MinReal(burst, tokens + elapsed * rate));
      tokens := MinReal(burst, tokens + elapsed * rate);
      last := now;
      if tokens < 1.0 {
        return false;
      }
      tokens := tokens - 1.0;
      return true;
    }
  }

  const STANDARD_PER_MINUTE := 60
  const STANDARD_BURST := 20

  class TokenLimiter {
    const rate: real
    const burst: real
    var buckets: map<string, Bucket>
    /** The times of the requests of each key. */
    ghost var log: map<string, seq<real>>

    ghost function Requests(key: string): seq<real>
      reads this
    {
      if key in log then log[key] else []
    }

    /** Each key has a bucket of its own, holding what the key's requests leave. */
    ghost predicate Valid()
      reads this, buckets.Values
    {
      && rate > 0.0 && burst >= 1.0 && log.Keys == buckets.Keys
      && (forall key :: key in buckets ==> buckets[key].owner == key)
      && forall key :: key in buckets ==> Shows(rate, burst, buckets[key].tokens, buckets[key].last, log[key])
    }

    /** Missing configuration becomes 60 requests a minute in bursts of 20. */
    constructor (perMinute: int, size: int)
      ensures Valid() && log == map[] && buckets == map[]
      ensures rate * 60.0 == (if perMinute <= 0 then 60 else perMinute) as real
      ensures burst == (if size <= 0 then 20 else size) as real
    {
      var minute := if perMinute <= 0 then STANDARD_PER_MINUTE else perMinute;
      var full := if size <= 0 then STANDARD_BURST else size;
      rate := minute as real / 60.0;
      burst := full as real;
      buckets := map[];
      log := map[];
    }

    /** The first request of a key finds a full bucket. */
    method Open(key: string, now: real)
      requires Valid() && key !in buckets
      modifies this
      ensures Valid() && fresh(buckets.Values - old(buckets.Values))
      ensures log == old(log)[key := old(Requests(key)) + [now]] && LastAdmitted(rate, burst, log[key])
      ensures buckets == old(buckets)[key := buckets[key]]
      ensures forall other :: other in old(buckets) && other != key ==> unchanged(old(buckets)[other])
    {
      FirstLeaves(rate, burst, now);
      assert Requests(key) + [now] == [now];
      var first := new Bucket(key, burst - 1.0, now);
      log := log[key := [now]];
      buckets := buckets[key := first];
    }

    /** One request: admitted iff the last request of its key's log is; other keys keep their buckets. */
    method Allow(key: string, now: real) returns (ok: bool)
      requires Valid()
      modifies this, buckets.Values
      ensures Valid() && fresh(buckets.Values - old(buckets.Values))
      ensures log == old(log)[key := old(Requests(key)) + [now]]
      ensures ok <==> LastAdmitted(rate, burst, log[key])
      ensures buckets == old(buckets)[key := buckets[key]]
      ensures forall other :: other in old(buckets) && other != key ==> unchanged(old(buckets)[other])
    {
      if key !in buckets {
        Open(key, now);
        ok := true;
      } else {
        ok := Refresh(key, now);
        SetsItsOwn(buckets, key);
      }
    }

    /** A further request refreshes the key's bucket. */
    method Refresh(key: string, now: real) returns (ok: bool)
      requires Valid() && key in buckets
      modifies this`log, buckets[key]
      ensures Valid()
      ensures log == old(log)[key := old(Requests(key)) + [now]]
      ensures ok <==> LastAdmitted(rate, burst, log[key])
      ensures forall other :: other in buckets && other != key ==> unchanged(buckets[other])
    {
      ghost var times := log[key];
      log := log[key := times + [now]];
      ok := buckets[key].Take(rate, burst, now, times);
      forall other | other in buckets && other != key ensures unchanged(buckets[other]) {
        assert buckets[other].owner != buckets[key].owner;
      }
    }
  }

  lemma SetsItsOwn<K, V>(m: map<K, V>, k: K)
    requires k in m
    ensures m[k := m[k]] == m
  {
  }
}
