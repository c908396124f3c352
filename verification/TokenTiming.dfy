/** The arithmetic of the token service: half-life, sleep target and retry backoff. */
module TokenTiming {

  datatype Token = Token(issuedAt: int, expiresAt: int)

  /** A reference to a token object: 0 is None, r > 0 is the r-th object ever stored. */
  type Ref = nat

  /** Time stamps never decrease from one stored token to the next. */
  ghost predicate Monotone(heap: seq<Token>) {
    forall i, j :: 0 <= i < j < |heap| ==>
                     heap[i].issuedAt <= heap[j].issuedAt && heap[i].expiresAt <= heap[j].expiresAt
  }

  const MIN_SLEEP := 1.0
  const MAX_SLEEP := 86400.0
  const BASE_DELAY := 1
  const MAX_DELAY := 30

  /** The integer instant at which the SDK stops using a token. Python's `//` floors, as does
      Dafny's `/` for a positive divisor. */
  function SdkExpiry(issuedAt: int, expiresAt: int): int {
    issuedAt + (expiresAt - issuedAt) / 2
  }

  predicate Valid(token: Token, time: int) {
    time < SdkExpiry(token.issuedAt, token.expiresAt)
  }

  /** Seconds from `time` to the real-valued half-life, before clamping. */
  function SecondsToHalfLife(issuedAt: int, expiresAt: int, time: int): real {
    issuedAt as real + (expiresAt - issuedAt) as real / 2.0 - time as real
  }

  function SleepSeconds(issuedAt: int, expiresAt: int, time: int): real {
    var floored := if SecondsToHalfLife(issuedAt, expiresAt, time) < MIN_SLEEP then MIN_SLEEP
                   else SecondsToHalfLife(issuedAt, expiresAt, time);
    if floored > MAX_SLEEP then MAX_SLEEP else floored
  }

  /** The validity test is monotone in both time stamps, so a verdict computed from fields of two
      older tokens is a verdict about the newer one. */
  lemma TornVerdict(a: Token, b: Token, c: Token, time: int)
    requires a.issuedAt <= c.issuedAt && b.expiresAt <= c.expiresAt
    requires time < SdkExpiry(a.issuedAt, b.expiresAt)
    ensures Valid(c, time)
  {
    SdkExpiryIsFloorOfMean(a.issuedAt, b.expiresAt);
    SdkExpiryIsFloorOfMean(c.issuedAt, c.expiresAt);
  }

  lemma SdkExpiryIsFloorOfMean(issuedAt: int, expiresAt: int)
    ensures SdkExpiry(issuedAt, expiresAt) == (issuedAt + expiresAt) / 2
  {
  }

  /** The integer test and the real-valued sleep agree: exactly the valid tokens are at least a
      whole second from their half-life. */
  lemma ValidIffSecondLeft(token: Token, time: int)
    ensures Valid(token, time) <==> SecondsToHalfLife(token.issuedAt, token.expiresAt, time) >= 1.0
  {
    MeanBounds(token.issuedAt, token.expiresAt);
  }

  lemma MeanBounds(issuedAt: int, expiresAt: int)
    ensures SdkExpiry(issuedAt, expiresAt) as real
            <= issuedAt as real + (expiresAt - issuedAt) as real / 2.0
            < SdkExpiry(issuedAt, expiresAt) as real + 1.0
  {
    var span := expiresAt - issuedAt;
    assert span == 2 * (span / 2) + span % 2;
    assert span as real == 2.0 * (span / 2) as real + (span % 2) as real;
  }

  /** The sleep lasts between a second and a day. Computed from a valid token it never overshoots the mean of
      the two time stamps, and, unless that is more than a day away, ends exactly there; computed from an
      expired one it lasts a second. */
  lemma SleepEndsAtHalfLife(token: Token, sampled: int)
    ensures var pause := SleepSeconds(token.issuedAt, token.expiresAt, sampled);
            var mean := (token.issuedAt + token.expiresAt) as real / 2.0;
            && 1.0 <= pause <= 86400.0
            && (Valid(token, sampled) ==> sampled as real + pause <= mean)
            && (Valid(token, sampled) && mean <= sampled as real + 86400.0 ==> sampled as real + pause == mean)
            && (!Valid(token, sampled) ==> pause == 1.0 && mean < sampled as real + 1.0)
  {
    ValidIffSecondLeft(token, sampled);
    hide SdkExpiry, Valid;
    assert (token.issuedAt + token.expiresAt) as real == 2.0 * token.issuedAt as real + (token.expiresAt - token.issuedAt) as real;
  }

  /** A sleep outlasts the token it was computed from exactly if the half-life is less than a second
      beyond the one-day cap: it is long enough then, however late the thread wakes, and too short
      otherwise, unless the thread wakes late. */
  lemma SleepOutlastsTokenExactly(issuedAt: int, expiresAt: int, sampled: int)
    ensures (forall wakeTime: real :: wakeTime >= sampled as real + SleepSeconds(issuedAt, expiresAt, sampled) ==>
                                        SdkExpiry(issuedAt, expiresAt) <= wakeTime.Floor)
            <==> SecondsToHalfLife(issuedAt, expiresAt, sampled) < MAX_SLEEP + 1.0
  {
    var expiry := SdkExpiry(issuedAt, expiresAt);
    var pause := SleepSeconds(issuedAt, expiresAt, sampled);
    MeanBounds(issuedAt, expiresAt);
    SleepReaches(issuedAt, expiresAt, sampled);
    hide SdkExpiry, SleepSeconds, SecondsToHalfLife;
    forall wakeTime: real ensures expiry <= wakeTime.Floor <==> expiry as real <= wakeTime {
    }
    if forall wakeTime: real :: wakeTime >= sampled as real + pause ==> expiry <= wakeTime.Floor {
      assert expiry <= (sampled as real + pause).Floor;
    }
  }

  lemma SleepReaches(issuedAt: int, expiresAt: int, sampled: int)
    ensures SdkExpiry(issuedAt, expiresAt) as real <= sampled as real + SleepSeconds(issuedAt, expiresAt, sampled)
            <==> SecondsToHalfLife(issuedAt, expiresAt, sampled) < MAX_SLEEP + 1.0
  {
    var mean := issuedAt as real + (expiresAt - issuedAt) as real / 2.0;
    var expiry := SdkExpiry(issuedAt, expiresAt);
    MeanBounds(issuedAt, expiresAt);
    if mean - sampled as real >= MAX_SLEEP {
      assert expiry >= sampled + 86400;
      assert mean - sampled as real < MAX_SLEEP + 1.0 <==> expiry == sampled + 86400;
    }
  }

  function Pow2(n: nat): nat {
    if n == 0 then 1 else 2 * Pow2(n - 1)
  }

  /** The backoff after the given (1-based) failed attempt. */
  function RetryDelay(attempt: nat): nat
    requires attempt >= 1
  {
    var uncapped := BASE_DELAY * Pow2(attempt - 1);
    if uncapped < MAX_DELAY then uncapped else MAX_DELAY
  }

  function TotalDelay(failures: nat): nat {
    if failures == 0 then 0 else TotalDelay(failures - 1) + RetryDelay(failures)
  }

  lemma {:induction false} Pow2Monotone(m: nat, n: nat)
    requires m <= n
    ensures 1 <= Pow2(m) <= Pow2(n)
    decreases n
  {
    if n == 0 {
    } else if m == n {
      Pow2Monotone(m - 1, n - 1);
    } else {
      Pow2Monotone(m, n - 1);
    }
  }

  lemma RetryDelayNondecreasing(a: nat, b: nat)
    requires 1 <= a <= b
    ensures 1 <= RetryDelay(a) <= RetryDelay(b) <= 30
  {
    Pow2Monotone(a - 1, b - 1);
  }

  lemma {:induction false} TotalDelayClosedForm(failures: nat)
    ensures failures <= 5 ==> TotalDelay(failures) == Pow2(failures) - 1
    ensures failures >= 5 ==> TotalDelay(failures) == 31 + 30 * (failures - 5)
  {
    if failures == 0 {
    } else {
      TotalDelayClosedForm(failures - 1);
      if failures <= 5 {
        assert Pow2(4) == 16;
        Pow2Monotone(failures - 1, 4);
      } else {
        assert Pow2(5) == 32;
        Pow2Monotone(5, failures - 1);
      }
    }
  }
}
