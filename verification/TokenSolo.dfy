/** What each call to the token service comes to when no other thread moves meanwhile: its outcome and the
    whole memory it leaves, for every answer of the network. */
module TokenSolo {
  import opened Wrappers
  import opened TokenTiming
  import opened TokenMachine
  import opened TokenInvariant
  import opened TokenTheorems

  /** The steps of one thread, the others standing still. */
  function Solo(g: Shared, t: Tid, l: Thread, inputs: seq<Input>): Effect
    decreases |inputs|
  {
    if inputs == [] then Does(g, l) else
    match ThreadStep(g, t, l, inputs[0])
    case Does(g', l') => Solo(g', t, l', inputs[1..])
    case Disabled => Disabled
  }

  function Actions(t: Tid, inputs: seq<Input>): seq<Action> {
    seq(|inputs|, i requires 0 <= i < |inputs| => Act(t, inputs[i]))
  }

  /** A solo run is a run of the machine. */
  lemma {:induction false} SoloIsRun(s: State, t: Tid, inputs: seq<Input>, g': Shared, l': Thread)
    requires t < |s.threads| && Solo(s.g, t, s.threads[t], inputs) == Does(g', l')
    ensures Exec(s, Actions(t, inputs)) == Some(State(g', s.threads[t := l']))
    decreases |inputs|
  {
    hide ThreadStep;
    if inputs == [] {
      assert s.threads[t := l'] == s.threads;
    } else {
      var Does(g1, l1) := ThreadStep(s.g, t, s.threads[t], inputs[0]);
      var mid := State(g1, s.threads[t := l1]);
      SoloIsRun(mid, t, inputs[1..], g', l');
      assert Actions(t, inputs)[1..] == Actions(t, inputs[1..]);
      assert mid.threads[t := l'] == s.threads[t := l'];
    }
  }

  lemma {:induction false} SoloThen(g: Shared, t: Tid, l: Thread, first: seq<Input>, g1: Shared, l1: Thread, second: seq<Input>)
    requires Solo(g, t, l, first) == Does(g1, l1)
    ensures Solo(g, t, l, first + second) == Solo(g1, t, l1, second)
    decreases |first|
  {
    hide ThreadStep;
    if first == [] {
      assert first + second == second;
    } else {
      var Does(g', l') := ThreadStep(g, t, l, first[0]);
      SoloThen(g', t, l', first[1..], g1, l1, second);
      assert (first + second)[1..] == first[1..] + second;
    }
  }

  lemma SoloOne(g: Shared, t: Tid, l: Thread, e: Input, g': Shared, l': Thread)
    requires ThreadStep(g, t, l, e) == Does(g', l')
    ensures Solo(g, t, l, [e]) == Does(g', l')
  {
    hide ThreadStep;
  }

  /** One more step at the end. */
  lemma SoloStep(g: Shared, t: Tid, l: Thread, inputs: seq<Input>, g1: Shared, l1: Thread, e: Input, g2: Shared, l2: Thread)
    requires Solo(g, t, l, inputs) == Does(g1, l1) && ThreadStep(g1, t, l1, e) == Does(g2, l2)
    ensures Solo(g, t, l, inputs + [e]) == Does(g2, l2)
  {
    hide ThreadStep;
    SoloOne(g1, t, l1, e, g2, l2);
    SoloThen(g, t, l, inputs, g1, l1, [e]);
  }

  /** A response of the OAuth server to a fetch. */
  predicate Response?(e: Input) {
    e.FetchOk? || (e.FetchFail? && !e.failure.NoneDereference?)
  }

  /** The memory after a fetched token was stored: nothing else has changed. */
  predicate Stored(g: Shared, token: Token, g': Shared) {
    g' == g.(heap := g.heap + [token], cached := |g.heap| + 1, stores := g'.stores)
  }

  /** The validity check, untorn: what follows depends on the cached token and the time only. */
  lemma CheckAlone(g: Shared, t: Tid, l: Thread) returns (inputs: seq<Input>, l': Thread)
    requires l.pc.CheckNone?
    ensures Solo(g, t, l, inputs) == Does(g, l') && forall e :: e in inputs ==> e == Run
    ensures l'.pc == if !CachedValid(g) then TakeSnapshot else if l.op.Refresh? then LoopTop else ReadFast
    ensures l' == l.(pc := l'.pc, issuedRef := l'.issuedRef, issuedAt := l'.issuedAt,
                     expiresRef := l'.expiresRef, expiresAt := l'.expiresAt, sampled := l'.sampled, judged := l'.judged)
  {
    var l1 := ValidityStep(g, l);
    assert ThreadStep(g, t, l, Run) == Does(g, l1);
    if g.cached == 0 {
      inputs, l' := [Run], l1;
      return;
    }
    var l2 := ValidityStep(g, l1);
    assert ThreadStep(g, t, l1, Run) == Does(g, l2);
    var l3 := ValidityStep(g, l2);
    assert ThreadStep(g, t, l2, Run) == Does(g, l3);
    l' := ValidityStep(g, l3);
    assert ThreadStep(g, t, l3, Run) == Does(g, l');
    inputs := [Run, Run, Run, Run];
    hide ThreadStep, ValidityStep;
    assert Solo(g, t, l3, [Run]) == Does(g, l');
    assert Solo(g, t, l2, [Run, Run]) == Does(g, l');
    assert Solo(g, t, l1, [Run, Run, Run]) == Does(g, l');
  }

  /** From the snapshot to the request: alone, nobody has replaced what was snapshotted. */
  lemma FetchAlone(g: Shared, t: Tid, l: Thread) returns (l': Thread)
    requires l.pc.TakeSnapshot? && g.lock.None?
    ensures Solo(g, t, l, [Run, Run, Run]) == Does(StartFetch(g.(lock := Some(t)), l.op), l')
    ensures l' == l.(pc := Fetching, snap := Previous(g.cached), fetches := l.fetches + 1,
                     attempt := if l.op.Refresh? then l.attempt + 1 else l.attempt)
  {
    var l1 := CallStep(g, l, Run).thread;
    assert ThreadStep(g, t, l, Run) == Does(g, l1);
    var g2, l2 := g.(lock := Some(t)), l1.(pc := Guard);
    assert ThreadStep(g, t, l1, Run) == Does(g2, l2);
    var g3 := StartFetch(g2, l.op);
    l' := l2.(pc := Fetching, fetches := l2.fetches + 1);
    assert ThreadStep(g2, t, l2, Run) == Does(g3, l');
    hide ThreadStep;
    assert Solo(g2, t, l2, [Run]) == Does(g3, l');
    assert Solo(g, t, l1, [Run, Run]) == Does(g3, l');
  }

  // ---------- get_auth_token, for its caller or for an API request ----------

  /** A token was handed out: returned to the caller, or put into the header of the request just sent. */
  predicate HandedOut(g: Shared, l: Thread) {
    && g.cached > 0 && l.header == g.cached && !l.forcing
    && if l.op.Get? then l.pc.Idle? && l.outcome == Returned(g.cached) else l.pc.Sent? && l.requests == 1
  }

  /** A valid cached token is handed out without a fetch; otherwise one fetch decides between the new token,
      the cached one, and the error, which sends an API call on to the forced refresh if it is a 401. */
  predicate LazyResult(g: Shared, own: Input, g': Shared, l': Thread)
    requires Response?(own)
  {
    if CachedValid(g) then g' == g && l'.fetches == 0 && HandedOut(g', l')
    else
      && l'.fetches == 1
      && if own.FetchOk? then Stored(g, own.token, g') && HandedOut(g', l')
         else if g.cached > 0 then g' == g && HandedOut(g', l')
         else
           && g' == g && l'.requests == 0
           && if l'.op.Api? && own.failure.Unauthorized? then l'.pc.TakeSnapshot? && l'.forcing
              else l'.pc.Idle? && l'.outcome == Raised(own.failure)
  }

  lemma LazyAlone(g: Shared, t: Tid, l: Thread, op: Op, own: Input) returns (rest: seq<Input>, g': Shared, l': Thread)
    requires l.pc.Idle? && !l.op.Refresh? && g.lock.None? && (op.Get? || op.Api?) && Response?(own)
    ensures Solo(g, t, l, [Begin(op)] + rest) == Does(g', l') && forall e :: e in rest ==> e in {Run, own}
    ensures l'.op == op && LazyResult(g, own, g', l')
  {
    var l1 := BeginCall(g, l, op);
    assert ThreadStep(g, t, l, Begin(op)) == Does(g, l1);
    SoloOne(g, t, l, Begin(op), g, l1);
    hide ThreadStep, LazyResult, Solo, CachedValid;
    var check, l2 := CheckAlone(g, t, l1);
    var finish;
    finish, g', l' := FinishLazy(g, t, l2, own);
    rest := check + finish;
    SoloThen(g, t, l1, check, g, l2, finish);
    SoloThen(g, t, l, [Begin(op)], g, l1, rest);
  }

  lemma FinishLazy(g: Shared, t: Tid, l: Thread, own: Input) returns (inputs: seq<Input>, g': Shared, l': Thread)
    requires (l.op.Get? || l.op.Api?) && l.fetches == 0 && l.requests == 0 && !l.forcing && g.lock.None?
    requires l.pc == (if CachedValid(g) then ReadFast else TakeSnapshot) && Response?(own)
    ensures Solo(g, t, l, inputs) == Does(g', l') && forall e :: e in inputs ==> e in {Run, own}
    ensures l'.op == l.op && LazyResult(g, own, g', l')
  {
    if CachedValid(g) {
      inputs, g', l' := [Run], g, ReturnToken(g, l);
      assert ThreadStep(g, t, l, Run) == Does(g, l');
      SoloOne(g, t, l, Run, g, l');
    } else {
      hide ThreadStep;
      var l1 := FetchAlone(g, t, l);
      var rest;
      rest, g', l' := OwnFetchAlone(g, g.(lock := Some(t)), t, l1, own);
      SoloThen(g, t, l, [Run, Run, Run], g.(lock := Some(t)), l1, rest);
      inputs := [Run, Run, Run] + rest;
    }
  }

  /** What follows the response to the call's own fetch. */
  lemma OwnFetchAlone(g: Shared, g1: Shared, t: Tid, l1: Thread, own: Input)
    returns (inputs: seq<Input>, g': Shared, l': Thread)
    requires g.lock.None? && g1 == g.(lock := Some(t)) && !CachedValid(g) && Response?(own)
    requires l1.pc.Fetching? && (l1.op.Get? || l1.op.Api?) && !l1.forcing && l1.snap == Previous(g.cached)
    requires l1.fetches == 1 && l1.requests == 0
    ensures Solo(g1, t, l1, inputs) == Does(g', l') && forall e :: e in inputs ==> e in {Run, own}
    ensures l'.op == l1.op && LazyResult(g, own, g', l')
  {
    var g2, l2;
    var rest;
    if own.FetchOk? {
      g2, l2 := StoredAlone(g, g1, t, l1, own.token);
      rest, l' := [Run], ReturnToken(g2, l2);
      assert ThreadStep(g2, t, l2, Run) == Does(g2, l');
      SoloOne(g2, t, l2, Run, g2, l');
    } else {
      g2, l2 := g, l1.(pc := Recover, failure := own.failure);
      assert ThreadStep(g1, t, l1, own) == Does(g2, l2);
      SoloOne(g1, t, l1, own, g2, l2);
      rest, l' := RecoverAlone(g2, t, l2);
    }
    hide ThreadStep;
    g' := g2;
    SoloThen(g1, t, l1, [own], g2, l2, rest);
    inputs := [own] + rest;
  }

  lemma StoredAlone(g: Shared, g1: Shared, t: Tid, l: Thread, token: Token) returns (g': Shared, l': Thread)
    requires g.lock.None? && g1 == g.(lock := Some(t)) && l.pc.Fetching?
    ensures Solo(g1, t, l, [FetchOk(token)]) == Does(g', l') && Stored(g, token, g') && l' == AfterFetch(l)
  {
    g', l' := StoreToken(g1, t, l.snap, token), AfterFetch(l);
    assert ThreadStep(g1, t, l, FetchOk(token)) == Does(g', l');
    SoloOne(g1, t, l, FetchOk(token), g', l');
  }

  lemma RecoverAlone(g: Shared, t: Tid, l: Thread) returns (inputs: seq<Input>, l': Thread)
    requires l.pc.Recover? && (l.op.Get? || l.op.Api?) && !l.forcing && l.requests == 0
    ensures Solo(g, t, l, inputs) == Does(g, l') && forall e :: e in inputs ==> e == Run
    ensures l'.op == l.op && l'.fetches == l.fetches
    ensures if g.cached > 0 then HandedOut(g, l')
            else
              && l'.requests == 0
              && if l.op.Api? && l.failure.Unauthorized? then l'.pc.TakeSnapshot? && l'.forcing
                 else l'.pc.Idle? && l'.outcome == Raised(l.failure)
  {
    var l1 := CallStep(g, l, Run).thread;
    assert ThreadStep(g, t, l, Run) == Does(g, l1);
    SoloOne(g, t, l, Run, g, l1);
    inputs, l' := [Run], l1;
    if g.cached > 0 {
      l' := ReturnToken(g, l1);
      assert ThreadStep(g, t, l1, Run) == Does(g, l');
      hide ThreadStep;
      SoloStep(g, t, l, [Run], g, l1, Run, g, l');
      inputs := [Run] + [Run];
    }
  }

  /** get_auth_token alone. */
  lemma GetAlone(g: Shared, t: Tid, l: Thread, own: Input) returns (rest: seq<Input>, g': Shared, l': Thread)
    requires l.pc.Idle? && !l.op.Refresh? && g.lock.None? && Response?(own)
    ensures Solo(g, t, l, [Begin(Get)] + rest) == Does(g', l') && forall e :: e in rest ==> e in {Run, own}
    ensures l'.pc.Idle? && l'.op.Get?
    ensures if CachedValid(g) then g' == g && l'.fetches == 0 && l'.outcome == Returned(g.cached)
            else if own.FetchOk? then Stored(g, own.token, g') && l'.fetches == 1 && l'.outcome == Returned(g'.cached)
            else
              && g' == g && l'.fetches == 1
              && l'.outcome == if g.cached > 0 then Returned(g.cached) else Raised(own.failure)
  {
    hide Solo;
    rest, g', l' := LazyAlone(g, t, l, Get, own);
  }

  // ---------- The API request and the 401 path ----------

  /** An accepted request ends the call and touches no token. */
  lemma AcceptedAlone(g: Shared, t: Tid, l: Thread) returns (l': Thread)
    requires l.pc.Sent? && l.op.Api?
    ensures Solo(g, t, l, [Response(false)]) == Does(g, l')
    ensures l' == l.(pc := Idle, outcome := Completed, answer := Accepted)
  {
    l' := l.(pc := Idle, outcome := Completed, answer := Accepted);
    assert ThreadStep(g, t, l, Response(false)) == Does(g, l');
    SoloOne(g, t, l, Response(false), g, l');
  }

  /** A forced fetch that succeeds replaces the cached token and wakes the refresher; one that fails raises
      its own error and changes nothing. */
  predicate ForcedResult(g: Shared, response: Input, g': Shared, l': Thread)
    requires Response?(response)
  {
    && l'.pc.Idle?
    && if response.FetchOk? then
         && g' == g.(heap := g.heap + [response.token], cached := |g.heap| + 1, stores := g'.stores,
                     wake := true, forced := |g.heap| + 1)
         && l'.outcome == if l'.op.Api? then Rejected else Completed
       else g' == g && l'.outcome == Raised(response.failure)
  }

  /** A request answered with a 401 leads to one forced fetch. */
  lemma RejectedAlone(g: Shared, t: Tid, l: Thread, response: Input) returns (rest: seq<Input>, g': Shared, l': Thread)
    requires l.pc.Sent? && l.op.Api? && g.lock.None? && Response?(response)
    ensures Solo(g, t, l, [Response(true)] + rest) == Does(g', l') && forall e :: e in rest ==> e in {Run, response}
    ensures l'.op.Api? && l'.fetches == l.fetches + 1 && l'.requests == l.requests && ForcedResult(g, response, g', l')
  {
    var l1 := l.(pc := TakeSnapshot, forcing := true, answer := Unauthorised);
    assert ThreadStep(g, t, l, Response(true)) == Does(g, l1);
    SoloOne(g, t, l, Response(true), g, l1);
    hide ThreadStep, ForcedResult;
    rest, g', l' := ForcedAlone(g, t, l1, response);
    SoloThen(g, t, l, [Response(true)], g, l1, rest);
  }

  lemma ForcedAlone(g: Shared, t: Tid, l: Thread, response: Input) returns (inputs: seq<Input>, g': Shared, l': Thread)
    requires l.pc.TakeSnapshot? && l.forcing && (l.op.Api? || l.op.Force?) && g.lock.None? && Response?(response)
    ensures Solo(g, t, l, inputs) == Does(g', l') && forall e :: e in inputs ==> e in {Run, response}
    ensures l'.op == l.op && l'.fetches == l.fetches + 1 && l'.requests == l.requests && ForcedResult(g, response, g', l')
  {
    hide ForcedResult;
    var l2 := FetchAlone(g, t, l);
    var g2 := g.(lock := Some(t));
    var rest;
    rest, g', l' := ForcedAnswered(g, g2, t, l2, response);
    SoloThen(g, t, l, [Run, Run, Run], g2, l2, rest);
    inputs := [Run, Run, Run] + rest;
  }

  lemma ForcedAnswered(g: Shared, g1: Shared, t: Tid, l: Thread, response: Input)
    returns (inputs: seq<Input>, g': Shared, l': Thread)
    requires g.lock.None? && g1 == g.(lock := Some(t)) && l.pc.Fetching? && l.forcing && l.snap == Previous(g.cached)
    requires (l.op.Api? || l.op.Force?) && Response?(response)
    ensures Solo(g1, t, l, inputs) == Does(g', l') && forall e :: e in inputs ==> e in {Run, response}
    ensures l'.op == l.op && l'.fetches == l.fetches && l'.requests == l.requests && ForcedResult(g, response, g', l')
  {
    if response.FetchFail? {
      inputs, g', l' := [response], g, Throw(l, response.failure);
      assert ThreadStep(g1, t, l, response) == Does(g', l');
      SoloOne(g1, t, l, response, g', l');
    } else {
      var g2, l2 := StoredAlone(g, g1, t, l, response.token);
      StoredIs(g, response.token, g2);
      hide ThreadStep, Stored;
      l' := WakeSetAlone(g2, t, l2);
      g' := g2.(wake := true, forced := g2.cached);
      SoloThen(g1, t, l, [response], g2, l2, [Run]);
      inputs := [response] + [Run];
    }
  }

  lemma StoredIs(g: Shared, token: Token, g': Shared)
    requires Stored(g, token, g')
    ensures g' == g.(heap := g.heap + [token], cached := |g.heap| + 1, stores := g'.stores)
  {
  }

  lemma WakeSetAlone(g: Shared, t: Tid, l: Thread) returns (l': Thread)
    requires l.pc.SetWake? && !l.op.Close?
    ensures Solo(g, t, l, [Run]) == Does(g.(wake := true, forced := g.cached), l')
    ensures l' == l.(pc := Idle, outcome := if l.op.Api? then Rejected else Completed)
  {
    l' := l.(pc := Idle, outcome := if l.op.Api? then Rejected else Completed);
    assert ThreadStep(g, t, l, Run) == Does(g.(wake := true, forced := g.cached), l');
    SoloOne(g, t, l, Run, g.(wake := true, forced := g.cached), l');
  }

  /** force_refresh_token alone: always one fetch, however valid the cached token looks. */
  lemma ForceAlone(g: Shared, t: Tid, l: Thread, response: Input) returns (rest: seq<Input>, g': Shared, l': Thread)
    requires l.pc.Idle? && !l.op.Refresh? && g.lock.None? && Response?(response)
    ensures Solo(g, t, l, [Begin(Force)] + rest) == Does(g', l') && forall e :: e in rest ==> e in {Run, response}
    ensures l'.op.Force? && l'.fetches == 1 && ForcedResult(g, response, g', l')
  {
    var l1 := BeginCall(g, l, Force);
    assert ThreadStep(g, t, l, Begin(Force)) == Does(g, l1);
    SoloOne(g, t, l, Begin(Force), g, l1);
    hide ThreadStep, ForcedResult;
    rest, g', l' := ForcedAlone(g, t, l1, response);
    SoloThen(g, t, l, [Begin(Force)], g, l1, rest);
  }

  /** An API call with a valid token cached: that token goes into the header and nothing is fetched; an
      accepted request leaves the memory as it was, a 401 leads to one forced fetch. */
  lemma ApiAlone(g: Shared, t: Tid, l: Thread, unauthorized: bool, response: Input)
    returns (before: seq<Input>, after: seq<Input>, g': Shared, l': Thread)
    requires l.pc.Idle? && !l.op.Refresh? && g.lock.None? && CachedValid(g) && Response?(response)
    ensures Solo(g, t, l, [Begin(Api)] + before + [Response(unauthorized)] + after) == Does(g', l')
    ensures forall e :: e in before + after ==> e in {Run, response}
    ensures l'.op.Api? && l'.pc.Idle? && l'.requests == 1
    ensures if unauthorized then l'.fetches == 1 && ForcedResult(g, response, g', l')
            else g' == g && l'.fetches == 0 && l'.header == g.cached && l'.outcome == Completed && after == []
  {
    hide Solo;
    var g1, l1;
    before, g1, l1 := LazyAlone(g, t, l, Api, response);
    var last;
    if unauthorized {
      after, g', l' := RejectedAlone(g1, t, l1, response);
    } else {
      l' := AcceptedAlone(g1, t, l1);
      after, g' := [], g1;
      assert [Response(false)] + after == [Response(false)];
    }
    last := [Response(unauthorized)] + after;
    SoloThen(g, t, l, [Begin(Api)] + before, g1, l1, last);
    assert [Begin(Api)] + before + last == [Begin(Api)] + before + [Response(unauthorized)] + after;
  }

  // ---------- Finding the snapshot replaced ----------

  /** Somebody else stored since the snapshot: no fetch is made. The lazy call hands out the newer token, the
      forced one counts as done and wakes the refresher, and the refresher goes back to the top of its loop. */
  lemma SkippedAlone(g: Shared, t: Tid, l: Thread) returns (inputs: seq<Input>, g': Shared, l': Thread)
    requires g.lock.None? && l.pc.Guard? && l.snap.Previous? && l.snap.ref != g.cached && g.cached > 0
    requires l.op.Get? || l.op.Api? || l.op.Force? || l.op.Refresh?
    requires (l.op.Get? || l.op.Refresh? ==> !l.forcing) && (l.op.Force? ==> l.forcing)
    requires !l.forcing ==> l.requests == 0
    ensures Solo(g.(lock := Some(t)), t, l, inputs) == Does(g', l') && forall e :: e in inputs ==> e == Run
    ensures l'.op == l.op && l'.fetches == l.fetches
    ensures if l.op.Refresh? then g' == g && l'.pc.LoopTop?
            else if l.forcing then
              && g' == g.(wake := true, forced := g.cached)
              && l'.pc.Idle? && l'.outcome == if l.op.Api? then Rejected else Completed
            else g' == g && HandedOut(g, l')
  {
    var g1, l1 := g.(lock := Some(t)), AfterFetch(l);
    assert ThreadStep(g1, t, l, Run) == Does(g, l1);
    SoloOne(g1, t, l, Run, g, l1);
    inputs, g', l' := [Run], g, l1;
    if !l.op.Refresh? {
      g', l' := AfterSkip(g, t, l1);
      hide ThreadStep, Solo;
      SoloThen(g1, t, l, [Run], g, l1, [Run]);
      inputs := [Run] + [Run];
    }
  }

  lemma AfterSkip(g: Shared, t: Tid, l: Thread) returns (g': Shared, l': Thread)
    requires l.op.Get? || l.op.Api? || l.op.Force?
    requires l.pc == (if l.forcing then SetWake else ReadFinal) && g.cached > 0 && (!l.forcing ==> l.requests == 0)
    ensures Solo(g, t, l, [Run]) == Does(g', l') && l'.op == l.op && l'.fetches == l.fetches
    ensures if l.forcing then
              && g' == g.(wake := true, forced := g.cached)
              && l'.pc.Idle? && l'.outcome == if l.op.Api? then Rejected else Completed
            else l.op.Force? || (g' == g && HandedOut(g, l'))
  {
    var Does(g1, l1) := ThreadStep(g, t, l, Run);
    g', l' := g1, l1;
    SoloOne(g, t, l, Run, g1, l1);
  }

  // ---------- start() and close() ----------

  /** start() alone: one fetch; whatever its outcome the refresher is started, unless a client error other
      than "too many requests" is raised instead. */
  lemma StartAlone(g: Shared, t: Tid, l: Thread, response: Input) returns (rest: seq<Input>, g': Shared, l': Thread)
    requires l.pc.Idle? && !l.op.Refresh? && g.lock.None? && !g.started && Response?(response)
    ensures Solo(g, t, l, [Begin(Start)] + rest) == Does(g', l') && forall e :: e in rest ==> e in {Run, response}
    ensures l'.op.Start? && l'.pc.Idle? && l'.fetches == 1
    ensures if response.FetchOk? then
              && Stored(g.(started := true, spawned := true), response.token, g')
              && l'.outcome == Completed
            else if response.failure.Unauthorized? || response.failure.OtherClientError? then
              g' == g.(started := true) && l'.outcome == Raised(response.failure)
            else g' == g.(started := true, spawned := true) && l'.outcome == Completed
  {
    var g2, l2 := StartFetchAlone(g, t, l);
    hide ThreadStep;
    var after;
    after, g', l' := StartAnswered(g.(started := true), g2, t, l2, response);
    SoloThen(g, t, l, [Begin(Start), Run, Run], g2, l2, after);
    rest := [Run, Run] + after;
    assert [Begin(Start)] + rest == [Begin(Start), Run, Run] + after;
  }

  lemma StartAnswered(g: Shared, g1: Shared, t: Tid, l: Thread, response: Input)
    returns (inputs: seq<Input>, g': Shared, l': Thread)
    requires g.lock.None? && g1 == g.(lock := Some(t)) && l.pc.Fetching? && l.op.Start? && Response?(response)
    ensures Solo(g1, t, l, inputs) == Does(g', l') && forall e :: e in inputs ==> e in {Run, response}
    ensures l'.op.Start? && l'.pc.Idle? && l'.fetches == l.fetches
    ensures if response.FetchOk? then Stored(g.(spawned := true), response.token, g') && l'.outcome == Completed
            else if response.failure.Unauthorized? || response.failure.OtherClientError? then
              g' == g && l'.outcome == Raised(response.failure)
            else g' == g.(spawned := true) && l'.outcome == Completed
  {
    var g2, l2;
    if response.FetchOk? {
      g2, l2 := StoredAlone(g, g1, t, l, response.token);
    } else {
      g2, l2 := g, AfterFailure(l, response.failure);
      assert ThreadStep(g1, t, l, response) == Does(g2, l2);
      SoloOne(g1, t, l, response, g2, l2);
    }
    inputs, g', l' := [response], g2, l2;
    hide ThreadStep;
    if l2.pc.Spawn? {
      l' := SpawnAlone(g2, t, l2);
      g' := g2.(spawned := true);
      SoloThen(g1, t, l, [response], g2, l2, [Run]);
      inputs := [response] + [Run];
    }
  }

  lemma SpawnAlone(g: Shared, t: Tid, l: Thread) returns (l': Thread)
    requires l.pc.Spawn?
    ensures Solo(g, t, l, [Run]) == Does(g.(spawned := true), l') && l' == l.(pc := Idle, outcome := Completed)
  {
    l' := l.(pc := Idle, outcome := Completed);
    assert ThreadStep(g, t, l, Run) == Does(g.(spawned := true), l');
    SoloOne(g, t, l, Run, g.(spawned := true), l');
  }

  lemma StartFetchAlone(g: Shared, t: Tid, l: Thread) returns (g': Shared, l': Thread)
    requires l.pc.Idle? && !l.op.Refresh? && g.lock.None? && !g.started
    ensures Solo(g, t, l, [Begin(Start), Run, Run]) == Does(g', l')
    ensures g' == g.(started := true, lock := Some(t))
    ensures l' == BeginCall(g, l, Start).(pc := Fetching, fetches := 1)
  {
    var g1, l1 := g.(started := true), BeginCall(g, l, Start);
    assert ThreadStep(g, t, l, Begin(Start)) == Does(g1, l1);
    var l2 := l1.(pc := Guard);
    g' := g1.(lock := Some(t));
    assert ThreadStep(g1, t, l1, Run) == Does(g', l2);
    l' := l2.(pc := Fetching, fetches := l2.fetches + 1);
    assert ThreadStep(g', t, l2, Run) == Does(g', l');
    hide ThreadStep;
    assert Solo(g', t, l2, [Run]) == Does(g', l');
    assert Solo(g1, t, l1, [Run, Run]) == Does(g', l');
  }

  /** close() alone: both events are set. */
  lemma CloseAlone(g: Shared, t: Tid, l: Thread) returns (g': Shared, l': Thread)
    requires l.pc.Idle? && !l.op.Refresh?
    ensures Solo(g, t, l, [Begin(Close), Run, Run]) == Does(g', l')
    ensures g' == g.(stop := true, wake := true, closed := true) && l'.pc.Idle? && l'.outcome == Completed
  {
    var l1 := BeginCall(g, l, Close);
    assert ThreadStep(g, t, l, Begin(Close)) == Does(g, l1);
    var g2, l2 := g.(stop := true), l1.(pc := SetWake);
    assert ThreadStep(g, t, l1, Run) == Does(g2, l2);
    g', l' := g2.(wake := true, closed := true), l2.(pc := Idle, outcome := Completed);
    assert ThreadStep(g2, t, l2, Run) == Does(g', l');
    hide ThreadStep;
    assert Solo(g2, t, l2, [Run]) == Does(g', l');
    assert Solo(g, t, l1, [Run, Run]) == Does(g', l');
  }
}
