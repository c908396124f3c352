/** Where the token service promises less than one might expect, each time with the exact condition:
    fetches over a valid token, torn validity checks, and a second fetch without a request. */
module TokenLimits {
  import opened Wrappers
  import opened TokenTiming
  import opened TokenMachine
  import opened TokenInvariant
  import opened TokenTheorems
  import opened TokenSolo

  /** One thread's undisturbed steps lead from a reachable state to a reachable state. */
  lemma SoloReaches(s: State, t: Tid, inputs: seq<Input>, g': Shared, l': Thread) returns (s': State)
    requires Reachable(s) && t < |s.threads| && Solo(s.g, t, s.threads[t], inputs) == Does(g', l')
    ensures s' == State(g', s.threads[t := l']) && Reachable(s')
    ensures Exec(s, Actions(t, inputs)) == Some(s')
  {
    s' := State(g', s.threads[t := l']);
    SoloIsRun(s, t, inputs, g', l');
    ReachableThen(s, Actions(t, inputs), s');
  }

  // ---------- Fetching over a valid token ----------

  /** Inside get_auth_token's own fetch, for its caller or for an API request. */
  predicate Lazy(l: Thread) {
    (l.op.Get? || l.op.Api?) && !l.forcing
  }

  /** A lazy fetch is under way although the cached token is valid. */
  predicate Redundant(s: State, t: Tid)
    requires t < |s.threads|
  {
    Lazy(s.threads[t]) && s.threads[t].pc.Fetching? && CachedValid(s.g)
  }

  /** In every interleaving, a lazy fetch is redundant only if something was stored after the validity
      check had begun: the token overwritten is not the one that was found expired. */
  lemma RedundantOnlyAfterStore(s: State, t: Tid)
    requires Reachable(s) && t < |s.threads| && Redundant(s, t)
    ensures s.threads[t].judged < s.g.cached && s.threads[t].snap == Previous(s.g.cached)
  {
    ReachableInv(s);
    assert ThreadOk(s.g, t, s.threads[t]);
  }

  /** And then it is: a caller about to take its snapshot will, undisturbed, fetch over a valid token
      exactly if a valid one was stored since its validity check began. */
  lemma RedundantFetchExactly(s: State, t: Tid)
    requires Reachable(s) && t < |s.threads| && s.g.lock.None?
    requires Lazy(s.threads[t]) && s.threads[t].pc.TakeSnapshot?
    ensures var after := Exec(s, Actions(t, [Run, Run, Run]));
            && after.Some? && |after.value.threads| == |s.threads| && after.value.threads[t].pc.Fetching?
            && (Redundant(after.value, t) <==> s.threads[t].judged < s.g.cached && CachedValid(s.g))
  {
    hide Reachable, Exec, ThreadStep, Solo, SdkExpiry;
    var l' := FetchAlone(s.g, t, s.threads[t]);
    var s' := SoloReaches(s, t, [Run, Run, Run], s.g.(lock := Some(t)), l');
    if CachedValid(s.g) {
      RedundantOnlyAfterStore(s', t);
    }
  }

  /** An undisturbed force_refresh_token that succeeds stores its token. */
  lemma StoreOne(s: State, t: Tid, token: Token) returns (s': State)
    requires Reachable(s) && t < |s.threads| && s.threads[t].pc.Idle? && !s.threads[t].op.Refresh? && s.g.lock.None?
    ensures Reachable(s') && |s'.threads| == |s.threads| && s'.g.lock.None? && s'.g.now == s.g.now && s'.g.spawned == s.g.spawned
    ensures s'.g.heap == s.g.heap + [token] && s'.g.cached == |s'.g.heap|
    ensures s'.threads[t].pc.Idle? && !s'.threads[t].op.Refresh?
    ensures forall u: Tid :: u < |s.threads| && u != t ==> s'.threads[u] == s.threads[u]
  {
    hide Reachable, Exec, Solo;
    var rest, g', l' := ForceAlone(s.g, t, s.threads[t], FetchOk(token));
    s' := SoloReaches(s, t, [Begin(Force)] + rest, g', l');
  }

  lemma {:induction false} StoreAll(s: State, t: Tid, tokens: seq<Token>) returns (s': State)
    requires Reachable(s) && t < |s.threads| && s.threads[t].pc.Idle? && !s.threads[t].op.Refresh? && s.g.lock.None?
    requires s.g.cached == |s.g.heap|
    ensures Reachable(s') && |s'.threads| == |s.threads| && s'.g.lock.None? && s'.g.now == s.g.now && s'.g.spawned == s.g.spawned
    ensures s'.g.heap == s.g.heap + tokens && s'.g.cached == |s'.g.heap|
    ensures s'.threads[t].pc.Idle? && !s'.threads[t].op.Refresh?
    ensures forall u: Tid :: u < |s.threads| && u != t ==> s'.threads[u] == s.threads[u]
    decreases |tokens|
  {
    hide Reachable;
    if tokens == [] {
      s' := s;
    } else {
      var mid := StoreOne(s, t, tokens[0]);
      s' := StoreAll(mid, t, tokens[1..]);
      assert s.g.heap + tokens == s.g.heap + [tokens[0]] + tokens[1..];
    }
  }

  /** A service whose start() has returned although its one fetch failed for a transient reason: the
      refresher may run, nothing is cached, and threads 1 and 2 have yet to call. */
  lemma Started(now: real) returns (s: State)
    ensures Reachable(s) && |s.threads| == 4 && s.g.started && s.g.spawned
    ensures s.g.lock.None? && s.g.heap == [] && s.g.cached == 0 && s.g.now == now
    ensures forall t :: t in {1, 2} ==> s.threads[t].pc.Idle? && s.threads[t].op.Get?
  {
    var s0 := InitState(3, now);
    assert Exec(s0, []) == Some(s0);
    assert s0.threads[1] == s0.threads[2] == s0.threads[3] == NewThread(Get);
    var rest, g, l := StartAlone(s0.g, 3, s0.threads[3], FetchFail(Transient));
    hide Reachable;
    s := SoloReaches(s0, 3, [Begin(Start)] + rest, g, l);
  }

  /** A caller finds nothing cached, another stores a valid token, and the first fetches over it. */
  lemma FreshTokenRefetched(token: Token) returns (s: State)
    requires Valid(token, 0)
    ensures Reachable(s) && s.g.spawned && |s.threads| == 4 && s.threads[1].op.Get? && Redundant(s, 1)
    ensures s.g.heap == [token] && s.threads[1].judged == 0
  {
    hide Reachable;
    var s0 := Started(0.0);
    var l1 := BeginCall(s0.g, s0.threads[1], Get);
    assert ThreadStep(s0.g, 1, s0.threads[1], Begin(Get)) == Does(s0.g, l1);
    var l2 := ValidityStep(s0.g, l1);
    assert ThreadStep(s0.g, 1, l1, Run) == Does(s0.g, l2);
    assert Solo(s0.g, 1, l1, [Run]) == Does(s0.g, l2);
    var s1 := SoloReaches(s0, 1, [Begin(Get), Run], s0.g, l2);
    var s2 := StoreOne(s1, 2, token);
    var l3 := FetchAlone(s2.g, 1, s2.threads[1]);
    s := SoloReaches(s2, 1, [Run, Run, Run], s2.g.(lock := Some(1)), l3);
  }

  // ---------- Torn validity checks ----------

  /** No verdict mixing the fields of an older and a newer token outlasts the last one. */
  ghost predicate TornSafe(heap: seq<Token>) {
    forall i, j :: 0 <= i <= j < |heap| ==>
                     SdkExpiry(heap[i].issuedAt, heap[j].expiresAt)
                     <= SdkExpiry(heap[|heap| - 1].issuedAt, heap[|heap| - 1].expiresAt)
  }

  /** In every run in which these tokens were stored, a thread on the fast path is about to return a token
      that was before its half-life at the sampled time. */
  ghost predicate FastPathSafe(heap: seq<Token>) {
    forall s: State, t: Tid ::
      Reachable(s) && s.g.heap == heap && t < |s.threads| && s.threads[t].pc.ReadFast? ==>
        s.g.cached > 0 && Valid(s.g.heap[s.g.cached - 1], s.threads[t].sampled)
  }

  lemma TornSafeSuffices(s: State, t: Tid)
    requires Reachable(s) && TornSafe(s.g.heap) && t < |s.threads| && s.threads[t].pc.ReadFast?
    ensures s.g.cached > 0 && Valid(s.g.heap[s.g.cached - 1], s.threads[t].sampled)
  {
    ReachableInv(s);
    var l := s.threads[t];
    assert ThreadOk(s.g, t, l);
    assert SdkExpiry(s.g.heap[l.issuedRef - 1].issuedAt, s.g.heap[l.expiresRef - 1].expiresAt)
        <= SdkExpiry(s.g.heap[|s.g.heap| - 1].issuedAt, s.g.heap[|s.g.heap| - 1].expiresAt);
  }

  /** The fast path with stores in between: `issued_at` is read from token i, `expires_at` from token j,
      and the verdict falls in the last second in which that mix looks valid. */
  lemma TornRun(heap: seq<Token>, i: nat, j: nat) returns (s: State)
    requires i <= j < |heap|
    ensures Reachable(s) && s.g.spawned && s.g.heap == heap && s.g.cached == |heap| && |s.threads| == 4
    ensures s.threads[1].op.Get? && s.threads[1].pc.ReadFast?
    ensures s.threads[1].sampled == SdkExpiry(heap[i].issuedAt, heap[j].expiresAt) - 1
  {
    hide Reachable, SdkExpiry;
    var time := SdkExpiry(heap[i].issuedAt, heap[j].expiresAt) - 1;
    var s0 := Started(time as real);
    var s1 := StoreAll(s0, 2, heap[..i + 1]);
    assert s1.threads[1] == s0.threads[1];
    var s2 := ReadIssuedAlone(s1);
    var s3 := StoreAll(s2, 2, heap[i + 1..j + 1]);
    assert heap[..i + 1] + heap[i + 1..j + 1] == heap[..j + 1];
    assert s3.threads[1] == s2.threads[1];
    var s4 := ReadExpiresAlone(s3);
    s := StoreAll(s4, 2, heap[j + 1..]);
    assert heap[..j + 1] + heap[j + 1..] == heap;
    assert s.threads[1] == s4.threads[1];
  }

  lemma ReadIssuedAlone(s: State) returns (s': State)
    requires Reachable(s) && |s.threads| == 4 && s.g.cached > 0
    requires s.threads[1].pc.Idle? && s.threads[1].op.Get?
    ensures Reachable(s') && s'.g == s.g && |s'.threads| == 4 && s'.threads[2] == s.threads[2]
    ensures s'.threads[1].op.Get? && s'.threads[1].pc.ReadExpires? && s'.threads[1].issuedAt == Issued(s.g)
  {
    var g := s.g;
    var l1 := BeginCall(g, s.threads[1], Get);
    assert ThreadStep(g, 1, s.threads[1], Begin(Get)) == Does(g, l1);
    var l2 := ValidityStep(g, l1);
    assert ThreadStep(g, 1, l1, Run) == Does(g, l2);
    var l3 := ValidityStep(g, l2);
    assert ThreadStep(g, 1, l2, Run) == Does(g, l3);
    hide ThreadStep, Reachable;
    assert Solo(g, 1, l2, [Run]) == Does(g, l3);
    assert Solo(g, 1, l1, [Run, Run]) == Does(g, l3);
    s' := SoloReaches(s, 1, [Begin(Get), Run, Run], g, l3);
  }

  lemma ReadExpiresAlone(s: State) returns (s': State)
    requires Reachable(s) && |s.threads| == 4 && s.g.cached > 0
    requires s.threads[1].pc.ReadExpires? && s.threads[1].op.Get?
    requires s.g.now.Floor < SdkExpiry(s.threads[1].issuedAt, Expires(s.g))
    ensures Reachable(s') && s'.g == s.g && |s'.threads| == 4 && s'.threads[2] == s.threads[2]
    ensures s'.threads[1].op.Get? && s'.threads[1].pc.ReadFast? && s'.threads[1].sampled == s.g.now.Floor
  {
    var g, l := s.g, s.threads[1];
    var l1 := ValidityStep(g, l);
    assert ThreadStep(g, 1, l, Run) == Does(g, l1);
    var l2 := ValidityStep(g, l1);
    assert ThreadStep(g, 1, l1, Run) == Does(g, l2);
    hide ThreadStep, Reachable;
    assert Solo(g, 1, l1, [Run]) == Does(g, l2);
    s' := SoloReaches(s, 1, [Run, Run], g, l2);
  }

  /** The fast path is sound in every run storing these tokens if and only if no mix of an older and a newer
      one outlasts the last. */
  lemma FastPathExactly(heap: seq<Token>)
    ensures FastPathSafe(heap) <==> TornSafe(heap)
  {
    hide Reachable, SdkExpiry;
    if TornSafe(heap) {
      forall s: State, t: Tid | Reachable(s) && s.g.heap == heap && t < |s.threads| && s.threads[t].pc.ReadFast?
        ensures s.g.cached > 0 && Valid(s.g.heap[s.g.cached - 1], s.threads[t].sampled)
      {
        TornSafeSuffices(s, t);
      }
    }
    if FastPathSafe(heap) {
      forall i, j | 0 <= i <= j < |heap|
        ensures SdkExpiry(heap[i].issuedAt, heap[j].expiresAt)
             <= SdkExpiry(heap[|heap| - 1].issuedAt, heap[|heap| - 1].expiresAt)
      {
        var s := TornRun(heap, i, j);
        assert Valid(s.g.heap[s.g.cached - 1], s.threads[1].sampled);
      }
    }
  }

  /** Time stamps that never decrease meet that condition. */
  lemma MonotoneIsTornSafe(heap: seq<Token>)
    requires Monotone(heap)
    ensures TornSafe(heap)
  {
    forall i, j | 0 <= i <= j < |heap|
      ensures SdkExpiry(heap[i].issuedAt, heap[j].expiresAt)
           <= SdkExpiry(heap[|heap| - 1].issuedAt, heap[|heap| - 1].expiresAt)
    {
      SdkExpiryIsFloorOfMean(heap[i].issuedAt, heap[j].expiresAt);
      SdkExpiryIsFloorOfMean(heap[|heap| - 1].issuedAt, heap[|heap| - 1].expiresAt);
    }
  }

  /** Otherwise a call can return a token past its half-life without a fetch, even though no stored token
      is valid at the sampled time. */
  lemma TornVerdictCanMislead() returns (s: State, s': State)
    ensures Reachable(s) && s.g.spawned && s.g.heap == [Token(10, 10), Token(0, 20)] && |s.threads| == 4
    ensures Step(s, Act(1, Run)) == Some(s') && |s'.threads| == 4 && s'.threads[1].outcome == Returned(2)
    ensures forall token :: token in s.g.heap ==> !Valid(token, s.threads[1].sampled)
  {
    s := TornRun([Token(10, 10), Token(0, 20)], 0, 1);
    assert ThreadStep(s.g, 1, s.threads[1], Run) == Does(s.g, ReturnToken(s.g, s.threads[1]));
    s' := Step(s, Act(1, Run)).value;
  }

  // ---------- A second fetch without a request ----------

  /** An API call that has started two fetches and sent no request began with nothing cached, and its own
      fetch was refused with a 401. */
  lemma SecondFetchNeeds(s: State, t: Tid)
    requires Reachable(s) && t < |s.threads| && s.threads[t].op.Api?
    requires s.threads[t].fetches == 2 && s.threads[t].requests == 0
    ensures s.threads[t].forcing && s.threads[t].startRef == 0 && s.threads[t].failure.Unauthorized?
  {
    ReachableInv(s);
    assert ThreadOk(s.g, t, s.threads[t]);
  }

  /** What follows the response to an API call's own fetch: the forced fetch, exactly if nothing is cached
      and the response is a 401. */
  lemma SecondFetchExactly(s: State, t: Tid, response: Input)
    requires Reachable(s) && t < |s.threads|
    requires s.threads[t].op.Api? && Lazy(s.threads[t]) && s.threads[t].pc.Fetching?
    requires response.FetchOk? || (response.FetchFail? && !response.failure.NoneDereference?)
    ensures var next := Exec(s, Actions(t, [response, Run]));
            && next.Some? && |next.value.threads| == |s.threads|
            && (next.value.threads[t].pc.TakeSnapshot? <==> response == FetchFail(Unauthorized) && s.g.cached == 0)
    ensures response == FetchFail(Unauthorized) && s.g.cached == 0 ==>
              var after := Exec(s, Actions(t, [response, Run] + [Run, Run, Run]));
              && after.Some? && |after.value.threads| == |s.threads|
              && after.value.threads[t].fetches == 2 && after.value.threads[t].requests == 0
  {
    var g, l := s.g, s.threads[t];
    OwnFetchBegun(s, t);
    var g1, l1, l2 := OwnFetchAnswered(g, t, l, response);
    var s2 := SoloReaches(s, t, [response, Run], g1, l2);
    if response == FetchFail(Unauthorized) && g.cached == 0 {
      var l3 := FetchAlone(g1, t, l2);
      SoloThen(g, t, l, [response, Run], g1, l2, [Run, Run, Run]);
      var s3 := SoloReaches(s, t, [response, Run] + [Run, Run, Run], g1.(lock := Some(t)), l3);
    }
  }

  lemma OwnFetchBegun(s: State, t: Tid)
    requires Reachable(s) && t < |s.threads|
    requires s.threads[t].op.Api? && Lazy(s.threads[t]) && s.threads[t].pc.Fetching?
    ensures s.threads[t].fetches == 1 && s.threads[t].requests == 0
  {
    ReachableInv(s);
    assert ThreadOk(s.g, t, s.threads[t]);
  }

  lemma OwnFetchAnswered(g: Shared, t: Tid, l: Thread, response: Input) returns (g1: Shared, l1: Thread, l2: Thread)
    requires l.op.Api? && Lazy(l) && l.pc.Fetching?
    requires response.FetchOk? || (response.FetchFail? && !response.failure.NoneDereference?)
    ensures Solo(g, t, l, [response, Run]) == Does(g1, l2) && g1.lock.None? && g1.spawned == g.spawned
    ensures l2.pc.TakeSnapshot? <==> response == FetchFail(Unauthorized) && g.cached == 0
    ensures l2.op == l.op && l2.fetches == l.fetches && (l2.pc.TakeSnapshot? ==> l2.requests == l.requests)
  {
    var Does(g', l') := LockedStep(g, t, l, response);
    g1, l1 := g', l';
    assert ThreadStep(g, t, l, response) == Does(g1, l1);
    l2 := CallStep(g1, l1, Run).thread;
    assert ThreadStep(g1, t, l1, Run) == Does(g1, l2);
    hide ThreadStep;
    assert Solo(g1, t, l1, [Run]) == Does(g1, l2);
  }

  /** And such a call can be reached. */
  lemma SecondFetchWithoutRequest() returns (s: State)
    ensures Reachable(s) && s.g.spawned && |s.threads| == 4 && s.threads[1].op.Api?
    ensures s.threads[1].pc.Fetching? && s.threads[1].fetches == 2 && s.threads[1].requests == 0
  {
    var s1 := ApiDecides();
    hide Reachable, ThreadStep, Exec, Solo;
    var l3 := FetchAlone(s1.g, 1, s1.threads[1]);
    var s2 := SoloReaches(s1, 1, [Run, Run, Run], s1.g.(lock := Some(1)), l3);
    var g4, _, l4 := OwnFetchAnswered(s2.g, 1, l3, FetchFail(Unauthorized));
    var s3 := SoloReaches(s2, 1, [FetchFail(Unauthorized), Run], g4, l4);
    var l5 := FetchAlone(s3.g, 1, s3.threads[1]);
    s := SoloReaches(s3, 1, [Run, Run, Run], s3.g.(lock := Some(1)), l5);
  }

  lemma ApiDecides() returns (s: State)
    ensures Reachable(s) && s.g.spawned && |s.threads| == 4 && s.g.lock.None? && s.g.cached == 0
    ensures s.threads[1].op.Api? && Lazy(s.threads[1]) && s.threads[1].pc.TakeSnapshot?
    ensures s.threads[1].fetches == 0 && s.threads[1].requests == 0
  {
    hide Reachable;
    var s0 := Started(0.0);
    var l1 := BeginCall(s0.g, s0.threads[1], Api);
    assert ThreadStep(s0.g, 1, s0.threads[1], Begin(Api)) == Does(s0.g, l1);
    var l2 := ValidityStep(s0.g, l1);
    assert ThreadStep(s0.g, 1, l1, Run) == Does(s0.g, l2);
    hide ThreadStep;
    assert Solo(s0.g, 1, l1, [Run]) == Does(s0.g, l2);
    s := SoloReaches(s0, 1, [Begin(Api), Run], s0.g, l2);
  }
}
