/** The refresher's retry loop and the guarded fetch as code: one thread's methods, with the steps of
    all other threads let in wherever the lock is not held. */
module TokenRefresh {
  import opened Wrappers
  import opened TokenTiming

  datatype Response = Ok(token: Token) | Error

  datatype Result = Fetched | Skipped | Failed

  /** Why the retry loop was left; `StillTrying` only says that the observation ended. */
  datatype Exit = FoundValid | Replaced | Stopped | StillTrying

  /** Whatever was stored since the heap was `before`, the token then cached is past its half-life, unless
      the tokens stored meanwhile have earlier time stamps. */
  ghost predicate Expired(before: seq<Token>, heap: seq<Token>, ref: Ref, time: int)
    requires before <= heap && ref <= |before|
  {
    ref > 0 && (heap == before || Monotone(heap)) ==> !Valid(heap[ref - 1], time)
  }

  lemma StaysExpired(before: seq<Token>, heap: seq<Token>, ref: Ref, time: int)
    requires before <= heap && ref <= |before| && Expired(before, heap, ref, time)
    ensures forall later, time' :: heap <= later && time <= time' ==> Expired(before, later, ref, time')
  {
  }

  /** The pauses after the first n failures. */
  function Delays(n: nat): seq<nat> {
    if n == 0 then [] else Delays(n - 1) + [RetryDelay(n)]
  }

  lemma NextDelays(n: nat)
    requires n >= 1
    ensures Delays(n) == Delays(n - 1) + [RetryDelay(n)]
  {
  }

  /** Each fetch starts a whole backoff after the one before. */
  ghost predicate BackedOff(starts: seq<real>, began: real) {
    && (forall i :: 0 < i < |starts| ==> starts[i] - starts[i - 1] >= RetryDelay(i) as real)
    && (starts != [] ==> starts[|starts| - 1] >= began + TotalDelay(|starts| - 1) as real)
  }

  lemma NextStart(starts: seq<real>, began: real, time: real)
    requires BackedOff(starts, began)
    requires if starts == [] then time >= began else time >= starts[|starts| - 1] + RetryDelay(|starts|) as real
    ensures BackedOff(starts + [time], began)
  {
  }

  /** Every fetch so far failed, and was followed by its whole pause. */
  ghost predicate Tried(starts: seq<real>, pauses: seq<nat>, responses: seq<Response>, began: real, now: real) {
    && |starts| <= |responses| && (forall i :: 0 <= i < |starts| ==> responses[i] == Error)
    && BackedOff(starts, began) && pauses == Delays(|starts|)
    && (if starts == [] then began <= now else now >= starts[|starts| - 1] + RetryDelay(|starts|) as real)
  }

  lemma NothingTried(responses: seq<Response>, began: real)
    ensures Tried([], [], responses, began, began)
  {
  }

  lemma TriedSoFar(starts: seq<real>, pauses: seq<nat>, responses: seq<Response>, began: real, now: real)
    requires Tried(starts, pauses, responses, began, now)
    ensures |starts| <= |responses| && (forall i :: 0 <= i < |starts| ==> responses[i] == Error)
    ensures BackedOff(starts, began) && pauses == Delays(|starts|)
    ensures if starts == [] then began <= now else now >= starts[|starts| - 1] + RetryDelay(|starts|) as real
  {
  }

  lemma TriedAgain(starts: seq<real>, pauses: seq<nat>, responses: seq<Response>, began: real, now: real)
    requires starts != [] && |starts| <= |responses|
    requires forall i :: 0 <= i < |starts| ==> responses[i] == Error
    requires BackedOff(starts, began) && pauses == Delays(|starts|)
    requires now >= starts[|starts| - 1] + RetryDelay(|starts|) as real
    ensures Tried(starts, pauses, responses, began, now)
  {
  }

  class TokenService {
    var heap: seq<Token>
    var cached: Ref
    var stop: bool
    var now: real
    var waits: seq<nat>  // history: the timeouts of the waits for the stop event

    ghost predicate Valid()
      reads this
    {
      cached == |heap|
    }

    /** What other threads may do even while this one holds the token lock: set the stop event, take
        time. Nobody else stores. */
    method Elapse()
      requires Valid()
      modifies this`stop, this`now
      ensures old(now) <= now && (old(stop) ==> stop)
    {
      var elapsed: real, stopped: bool := *, *;
      stop := stop || stopped;
      now := if elapsed > 0.0 then now + elapsed else now;
    }

    /** What they may do while it does not hold the lock: also store any number of newer tokens. */
    method Others()
      requires Valid()
      modifies this
      ensures Valid()
      ensures old(heap) <= heap && old(cached) <= cached && old(now) <= now && (old(stop) ==> stop) && waits == old(waits)
    {
      Elapse();
      var tokens: seq<Token> := *;
      heap := heap + tokens;
      cached := |heap|;
    }

    /** Compare and replace under the lock. `entry` is the heap when the lock was acquired, `started` the
        time: a fetch happens exactly when nothing was stored since the snapshot, and only its success
        stores, exactly the one new object. */
    method FetchAndStoreToken(previous: Ref, response: Response)
      returns (result: Result, ghost entry: seq<Token>, ghost started: real)
      requires Valid() && previous <= cached
      modifies this
      ensures Valid() && old(heap) <= entry <= heap && old(now) <= started <= now && (old(stop) ==> stop)
      ensures result == if |entry| != previous then Skipped else if response.Ok? then Fetched else Failed
      ensures heap == entry + (if result == Fetched then [response.token] else []) && waits == old(waits)
    {
      Others();  // until the lock is acquired
      entry, started := heap, now;
      if cached != previous {
        return Skipped, entry, started;
      }
      Elapse();  // the request
      match response
      case Ok(token) =>
        heap := heap + [token];
        cached := |heap|;
        result := Fetched;
      case Error =>
        result := Failed;
    }

    /** The lock-free validity test: its reads are separate, and others may store tokens between them.
        The verdict is exactly that of the `issued_at` of token `first` and the `expires_at` of token
        `second`, both at least as new as what was cached at the call. Undisturbed, that is the cached
        token; and if time stamps never decrease, a positive verdict speaks for the token cached at the
        end, and a negative one against the token cached at the call. */
    method IsCachedTokenValid() returns (valid: bool, ghost sampled: int, ghost first: Ref, ghost second: Ref)
      requires Valid()
      modifies this
      ensures Valid() && old(heap) <= heap && old(cached) <= cached && old(now) <= now && (old(stop) ==> stop)
      ensures old(now).Floor <= sampled <= now.Floor && waits == old(waits)
      ensures old(cached) <= first <= second <= cached && (first == 0 <==> old(cached) == 0)
      ensures valid <==> first > 0 && sampled < SdkExpiry(heap[first - 1].issuedAt, heap[second - 1].expiresAt)
      ensures heap == old(heap) ==> (valid <==> cached > 0 && TokenTiming.Valid(heap[cached - 1], sampled))
      ensures Monotone(heap) && valid ==> TokenTiming.Valid(heap[cached - 1], sampled)
      ensures !valid ==> Expired(old(heap), heap, old(cached), sampled)
    {
      hide SdkExpiry;
      first, second, sampled := 0, 0, now.Floor;
      if cached == 0 {
        return false, sampled, first, second;
      }
      ghost var start := cached;
      Others();
      first := cached;
      var issuedAt := heap[cached - 1].issuedAt;
      Others();
      second := cached;
      var expiresAt := heap[cached - 1].expiresAt;
      Others();
      var time := now.Floor;
      sampled := time;
      valid := time < SdkExpiry(issuedAt, expiresAt);
      if Monotone(heap) {
        if valid {
          TornVerdict(heap[first - 1], heap[second - 1], heap[cached - 1], time);
        } else if TokenTiming.Valid(heap[start - 1], time) {
          TornVerdict(heap[start - 1], heap[start - 1], Token(issuedAt, expiresAt), time);
        }
      }
    }

    /** Returns the token handed out, or 0 if the call raises: only if nothing was cached before. It fetches
        exactly if the verdict was negative and nobody stored since the snapshot; so a token that was valid
        at the call, undisturbed or if time stamps never decrease, is not fetched again. */
    method GetAuthToken(response: Response) returns (token: Ref, ghost fetched: bool, ghost sampled: int)
      requires Valid()
      modifies this
      ensures Valid() && old(heap) <= heap && token <= cached
      ensures old(cached) > 0 ==> token >= old(cached)
      ensures token == 0 ==> response == Error && fetched
      ensures old(now).Floor <= sampled <= now.Floor
      ensures old(cached) > 0 && (Monotone(heap) || heap == old(heap)) && TokenTiming.Valid(old(heap)[old(cached) - 1], sampled)
              ==> !fetched
      ensures fetched && response.Ok? ==> response.token in heap[old(cached)..]
      ensures Monotone(heap) && !fetched ==> token > old(cached) || TokenTiming.Valid(heap[token - 1], sampled)
    {
      fetched := false;
      var valid;
      ghost var first, second;
      valid, sampled, first, second := IsCachedTokenValid();
      if valid {
        ghost var judged := cached;
        Others();
        if Monotone(heap) {
          TornVerdict(heap[judged - 1], heap[judged - 1], heap[cached - 1], sampled);
        }
        return cached, fetched, sampled;
      }
      Others();
      var snapshot := cached;
      var result, entry, _ := FetchAndStoreToken(snapshot, response);
      fetched := result != Skipped;
      assert fetched && response.Ok? ==> heap[|entry|] == response.token;
      Others();
      if result == Failed && cached == 0 {
        return 0, fetched, sampled;
      }
      Others();
      token := cached;
    }

    /** If it returns normally, the cached token is strictly newer than any seen before the call. */
    method ForceRefreshToken(response: Response) returns (ok: bool)
      requires Valid()
      modifies this
      ensures Valid() && old(heap) <= heap && old(cached) <= cached
      ensures ok ==> old(cached) < cached
      ensures !ok ==> response == Error
    {
      Others();
      var result, _, _ := FetchAndStoreToken(cached, response);
      Others();
      ok := result != Failed;
    }

    /** `_stop_event.wait(timeout)`: comes back early only when the stop event is set. */
    method WaitForStop(delay: nat) returns (stopped: bool)
      requires Valid()
      modifies this
      ensures Valid() && old(heap) <= heap && old(cached) <= cached && old(now) <= now && (old(stop) ==> stop)
      ensures if stopped then stop else now >= old(now) + delay as real
      ensures waits == old(waits) + [delay]
    {
      waits := waits + [delay];
      var due := now + delay as real;
      Others();
      if stop {
        return true;
      }
      if now < due {
        now := due;
      }
      return false;
    }

    /** One attempt of the retry loop: fetch unless somebody else stored since the snapshot, and pause after a
        failure. `started` is when the fetch began, if it did. */
    method Attempt(attempt: nat, response: Response) returns (exit: Exit, ghost started: Option<real>)
      requires Valid() && attempt >= 1
      modifies this
      ensures Valid() && old(heap) <= heap && old(cached) <= cached && old(now) <= now && (old(stop) ==> stop)
      ensures exit in {Replaced, Stopped, StillTrying}
      ensures exit == Replaced ==> old(cached) < cached
      ensures exit == Stopped ==> stop
      ensures exit != Replaced ==> started.Some? && response == Error
      ensures started.Some? ==> old(now) <= started.value <= now
      ensures exit == StillTrying ==> now >= started.value + RetryDelay(attempt) as real
      ensures waits == old(waits) + if exit == Replaced then [] else [RetryDelay(attempt)]
    {
      hide RetryDelay;
      Others();
      var result, _, time := FetchAndStoreToken(cached, response);
      started := if result == Skipped then None else Some(time);
      if result != Failed {
        return Replaced, started;
      }
      Others();
      var stopped := WaitForStop(RetryDelay(attempt));
      exit := if stopped then Stopped else StillTrying;
    }

    /** The retry loop, observed for as many rounds as `responses` has entries. `starts` are the times
        its fetches began, `sampled` the time of the last verdict. Each failure doubles the pause before
        the next fetch, up to the cap; the loop is left only with a valid or a newer token, or because
        of the stop event. */
    method RefreshWithRetry(responses: seq<Response>)
      returns (exit: Exit, ghost starts: seq<real>, ghost failures: nat,
               ghost sampled: int, ghost first: Ref, ghost second: Ref)
      requires Valid()
      modifies this
      ensures Valid() && old(heap) <= heap && old(cached) <= cached
      ensures |starts| <= |responses|
      ensures BackedOff(starts, old(now))
      ensures failures <= |starts| <= failures + 1 && waits == old(waits) + Delays(failures)
      ensures forall i :: 0 <= i < |starts| - 1 ==> responses[i] == Error
      ensures exit == FoundValid ==>
                && 0 < first <= second <= cached && old(cached) <= first && old(now).Floor <= sampled <= now.Floor
                && sampled < SdkExpiry(heap[first - 1].issuedAt, heap[second - 1].expiresAt)
                && (heap == old(heap) || Monotone(heap) ==> TokenTiming.Valid(heap[cached - 1], sampled))
      ensures starts != [] ==> Expired(old(heap), heap, old(cached), now.Floor)
      ensures exit == Replaced ==> old(cached) < cached
      ensures exit == Stopped ==> stop
      ensures exit == StillTrying ==> |starts| == |responses| && forall i :: 0 <= i < |responses| ==> responses[i] == Error
    {
      hide Tried, Delays, TotalDelay, RetryDelay, BackedOff, SdkExpiry, Monotone, Expired, TokenTiming.Valid;
      var attempt := 0;
      ghost var pauses: seq<nat> := [];
      starts, failures, sampled, first, second := [], 0, now.Floor, 0, 0;
      NothingTried(responses, now);
      while !stop && attempt < |responses|
        invariant Valid() && old(heap) <= heap && old(cached) <= cached && old(now) <= now
        invariant failures == |starts| == attempt && Tried(starts, pauses, responses, old(now), now)
        invariant waits == old(waits) + pauses
        invariant if attempt == 0 then heap == old(heap) else Expired(old(heap), heap, old(cached), now.Floor)
        decreases |responses| - attempt
      {
        if attempt > 0 {
          StaysExpired(old(heap), heap, old(cached), now.Floor);
        }
        TriedSoFar(starts, pauses, responses, old(now), now);
        var valid;
        valid, sampled, first, second := IsCachedTokenValid();
        if valid {
          return FoundValid, starts, failures, sampled, first, second;
        }
        if attempt == 0 {
          StaysExpired(old(heap), heap, old(cached), sampled);
        }
        attempt := attempt + 1;
        ghost var started;
        exit, started := Attempt(attempt, responses[attempt - 1]);
        if started.Some? {
          NextStart(starts, old(now), started.value);
          starts := starts + [started.value];
        }
        if exit == Replaced {
          return exit, starts, failures, sampled, first, second;
        }
        failures, pauses := failures + 1, pauses + [RetryDelay(attempt)];
        NextDelays(failures);
        if exit == Stopped {
          return exit, starts, failures, sampled, first, second;
        }
        TriedAgain(starts, pauses, responses, old(now), now);
      }
      TriedSoFar(starts, pauses, responses, old(now), now);
      exit := if stop then Stopped else StillTrying;
    }
  }
}
