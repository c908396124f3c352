/** The background refresher left alone: when it sleeps until, what ends its sleep, what it does then, and
    how it takes failures, unexpected exceptions and the stop event. */
module RefresherSolo {
  import opened Wrappers
  import opened TokenTiming
  import opened TokenMachine
  import opened TokenInvariant
  import opened TokenTheorems
  import opened TokenSolo

  /** A step of the refresher's loops on its own variables. */
  lemma LoopStep(g: Shared, l: Thread, e: Input, l': Thread)
    requires l.op.Refresh? && RefresherPc(l.pc) && !l.pc.ClearWake? && !e.Unexpected? && SleepStep(g, l, e) == To(l')
    ensures ThreadStep(g, REFRESHER, l, e) == Does(g, l')
  {
    hide SleepStep;
  }

  lemma BeginAlone(g: Shared, l: Thread)
    requires l.op.Refresh? && l.pc.Idle?
    ensures Solo(g, REFRESHER, l, [Run]) == if g.spawned then Does(g, l.(pc := LoopTop)) else Disabled
  {
  }

  lemma StoppedAlone(g: Shared, l: Thread)
    requires l.op.Refresh? && l.pc.LoopTop? && g.stop
    ensures Solo(g, REFRESHER, l, [Run]) == Does(g, l.(pc := Exited))
  {
  }

  // ---------- Going to sleep ----------

  /** When the refresher is to wake: now if nothing is cached; a second from now if the cached token is past
      its half-life; else less than a second after the real half-life, since the clock it subtracts is cut
      to whole seconds, and not before it unless that is more than a day away. */
  predicate WellTimed(g: Shared, deadline: real) {
    if g.cached == 0 then deadline == g.now
    else
      var token := g.heap[g.cached - 1];
      var halfLife := (token.issuedAt + token.expiresAt) as real / 2.0;
      if !CachedValid(g) then deadline == g.now + 1.0
      else
        && deadline < halfLife + 1.0 && g.now + 1.0 <= deadline <= g.now + 86400.0
        && (halfLife <= g.now.Floor as real + 86400.0 ==> halfLife <= deadline)
  }

  /** From the top of the loop to the wait, with a deadline computed from the token now cached. */
  lemma SleepAlone(g: Shared, l: Thread) returns (inputs: seq<Input>, l': Thread)
    requires l.op.Refresh? && l.pc.LoopTop? && !g.stop
    ensures Solo(g, REFRESHER, l, inputs) == Does(g, l') && forall e :: e in inputs ==> e == Run
    ensures l'.op.Refresh? && l'.pc.Waiting? && l'.sleepRef == g.cached && WellTimed(g, l'.deadline)
  {
    hide WellTimed, CallStep, ValidityStep, SleepSeconds;
    var l1 := l.(pc := SleepNone);
    assert ThreadStep(g, REFRESHER, l, Run) == Does(g, l1);
    SoloOne(g, REFRESHER, l, Run, g, l1);
    var compute, l2 := ComputeAlone(g, l1);
    l' := l2.(pc := Waiting, deadline := g.now + l2.sleep);
    assert ThreadStep(g, REFRESHER, l2, Run) == Does(g, l');
    hide ThreadStep;
    SoloThen(g, REFRESHER, l, [Run], g, l1, compute);
    SoloStep(g, REFRESHER, l, [Run] + compute, g, l2, Run, g, l');
    inputs := [Run] + compute + [Run];
  }

  lemma ComputeAlone(g: Shared, l: Thread) returns (inputs: seq<Input>, l': Thread)
    requires l.op.Refresh? && l.pc.SleepNone?
    ensures Solo(g, REFRESHER, l, inputs) == Does(g, l') && forall e :: e in inputs ==> e == Run
    ensures l'.op.Refresh? && l'.pc.EnterWait? && l'.sleepRef == g.cached && WellTimed(g, g.now + l'.sleep)
  {
    hide SleepSeconds, CachedValid, ThreadStep;
    if g.cached == 0 {
      inputs, l' := [Run], l.(pc := EnterWait, sleepRef := 0, sleep := 0.0);
      LoopStep(g, l, Run, l');
      SoloOne(g, REFRESHER, l, Run, g, l');
      return;
    }
    var token := g.heap[g.cached - 1];
    SleepWellTimed(g);
    hide WellTimed;
    var l1 := l.(pc := SleepIssued, sleepRef := g.cached);
    LoopStep(g, l, Run, l1);
    var l2 := l1.(pc := SleepExpires, issuedRef := g.cached, issuedAt := token.issuedAt);
    LoopStep(g, l1, Run, l2);
    var l3 := l2.(pc := SleepSample, expiresRef := g.cached, expiresAt := token.expiresAt);
    LoopStep(g, l2, Run, l3);
    l' := l3.(pc := EnterWait, sampled := g.now.Floor,
              sleep := SleepSeconds(token.issuedAt, token.expiresAt, g.now.Floor));
    LoopStep(g, l3, Run, l');
    hide SleepStep;
    inputs := [Run, Run, Run, Run];
    assert Solo(g, REFRESHER, l3, [Run]) == Does(g, l');
    assert Solo(g, REFRESHER, l2, [Run, Run]) == Does(g, l');
    assert Solo(g, REFRESHER, l1, [Run, Run, Run]) == Does(g, l');
  }

  lemma SleepWellTimed(g: Shared)
    requires g.cached > 0
    ensures WellTimed(g, g.now + SleepSeconds(Issued(g), Expires(g), g.now.Floor))
  {
    SleepEndsAtHalfLife(g.heap[g.cached - 1], g.now.Floor);
    hide SleepSeconds, Valid;
  }

  // ---------- Waking up ----------

  /** The wait ends as soon as the wake event is set, or its deadline has passed. Either way the event is
      cleared; then a stop is heeded before anything else, a wake-up leads back to the top of the loop,
      and a time-out to the refresh. */
  lemma WakeAlone(g: Shared, l: Thread, e: Input) returns (l': Thread)
    requires l.op.Refresh? && l.pc.Waiting? && ((e.Signalled? && g.wake) || (e.TimedOut? && g.now >= l.deadline))
    ensures Solo(g, REFRESHER, l, [e, Run, Run]) == Does(g.(wake := false), l')
    ensures if g.stop then l'.pc.Exited?
            else if e.Signalled? then l'.pc.LoopTop?
            else l'.pc.InnerTop? && l'.attempt == 0 && l'.innerStart == g.now
    ensures l' == l.(pc := l'.pc, wokeEarly := e.Signalled?, attempt := l'.attempt, innerStart := l'.innerStart)
  {
    var l1 := l.(pc := ClearWake, wokeEarly := e.Signalled?);
    LoopStep(g, l, e, l1);
    SoloOne(g, REFRESHER, l, e, g, l1);
    hide ThreadStep, Solo, SleepStep;
    ClearAlone(g, l1);
    l' := HeedAlone(g.(wake := false), l1.(pc := StopCheck));
    SoloThen(g, REFRESHER, l, [e], g, l1, [Run]);
    SoloThen(g, REFRESHER, l, [e] + [Run], g.(wake := false), l1.(pc := StopCheck), [Run]);
    assert [e] + [Run] + [Run] == [e, Run, Run];
  }

  lemma ClearAlone(g: Shared, l: Thread)
    requires l.op.Refresh? && l.pc.ClearWake?
    ensures Solo(g, REFRESHER, l, [Run]) == Does(g.(wake := false), l.(pc := StopCheck))
  {
  }

  lemma HeedAlone(g: Shared, l: Thread) returns (l': Thread)
    requires l.op.Refresh? && l.pc.StopCheck?
    ensures Solo(g, REFRESHER, l, [Run]) == Does(g, l')
    ensures if g.stop then l'.pc.Exited?
            else if l.wokeEarly then l'.pc.LoopTop?
            else l'.pc.InnerTop? && l'.attempt == 0 && l'.innerStart == g.now
    ensures l' == l.(pc := l'.pc, attempt := l'.attempt, innerStart := l'.innerStart)
  {
    l' := SleepStep(g, l, Run).thread;
    LoopStep(g, l, Run, l');
    hide ThreadStep, SleepStep;
    SoloOne(g, REFRESHER, l, Run, g, l');
  }

  /** Woken early, the refresher fetches nothing: it clears the wake event and goes back to sleep on a
      schedule computed from the token now cached. */
  lemma WokenAlone(g: Shared, l: Thread) returns (rest: seq<Input>, l': Thread)
    requires l.op.Refresh? && l.pc.Waiting? && g.wake && !g.stop
    ensures Solo(g, REFRESHER, l, [Signalled] + rest) == Does(g.(wake := false), l')
    ensures forall e :: e in rest ==> e == Run
    ensures l'.op.Refresh? && l'.pc.Waiting? && l'.sleepRef == g.cached && WellTimed(g, l'.deadline)
  {
    hide Solo;
    var l1 := WakeAlone(g, l, Signalled);
    var sleep;
    sleep, l' := SleepAlone(g.(wake := false), l1);
    SoloThen(g, REFRESHER, l, [Signalled, Run, Run], g.(wake := false), l1, sleep);
    rest := [Run, Run] + sleep;
    assert [Signalled] + rest == [Signalled, Run, Run] + sleep;
  }

  /** One round of the retry loop: the stop event or a valid token ends it, otherwise a fetch is started
      that will replace exactly the token now cached. */
  lemma RoundAlone(g: Shared, l: Thread) returns (inputs: seq<Input>, g': Shared, l': Thread)
    requires l.op.Refresh? && l.pc.InnerTop? && g.lock.None?
    ensures Solo(g, REFRESHER, l, inputs) == Does(g', l') && forall e :: e in inputs ==> e == Run
    ensures l'.op.Refresh?
    ensures if g.stop || CachedValid(g) then g' == g && l'.pc.LoopTop?
            else
              && g' == g.(lock := Some(REFRESHER), pings := g.pings + [g.now])
              && l'.pc.Fetching? && l'.snap == Previous(g.cached) && l'.attempt == l.attempt + 1
  {
    var l1 := l.(pc := if g.stop then LoopTop else CheckNone);
    assert ThreadStep(g, REFRESHER, l, Run) == Does(g, l1);
    SoloOne(g, REFRESHER, l, Run, g, l1);
    inputs, g', l' := [Run], g, l1;
    hide ThreadStep;
    if !g.stop {
      var check, l2 := CheckAlone(g, REFRESHER, l1);
      SoloThen(g, REFRESHER, l, [Run], g, l1, check);
      inputs, l' := [Run] + check, l2;
      if !CachedValid(g) {
        l' := FetchAlone(g, REFRESHER, l2);
        g' := StartFetch(g.(lock := Some(REFRESHER)), Refresh);
        SoloThen(g, REFRESHER, l, [Run] + check, g, l2, [Run, Run, Run]);
        inputs := [Run] + check + [Run, Run, Run];
      }
    }
  }

  /** From its deadline on, a sleep times out, and the refresher fetches unless the cached token is valid. */
  lemma TimedOutAlone(g: Shared, l: Thread) returns (rest: seq<Input>, g': Shared, l': Thread)
    requires l.op.Refresh? && l.pc.Waiting? && g.now >= l.deadline && !g.stop && g.lock.None?
    ensures Solo(g, REFRESHER, l, [TimedOut] + rest) == Does(g', l') && forall e :: e in rest ==> e == Run
    ensures if CachedValid(g) then g' == g.(wake := false) && l'.pc.LoopTop?
            else
              && g' == g.(wake := false, lock := Some(REFRESHER), pings := g.pings + [g.now])
              && l'.pc.Fetching? && l'.snap == Previous(g.cached) && l'.attempt == 1
  {
    hide Solo;
    var l1 := WakeAlone(g, l, TimedOut);
    var round;
    round, g', l' := RoundAlone(g.(wake := false), l1);
    SoloThen(g, REFRESHER, l, [TimedOut, Run, Run], g.(wake := false), l1, round);
    rest := [Run, Run] + round;
    assert [TimedOut] + rest == [TimedOut, Run, Run] + round;
  }

  /** The refresher does its job: once the deadline of its sleep has passed, with the token the sleep was
      computed from still cached and its half-life less than a day and a second away from then, or still
      none cached, it is enabled to go on, undisturbed, to a fetch that will replace exactly that token. */
  lemma DueTokenIsFetched(s: State) returns (rest: seq<Input>, s': State)
    requires Reachable(s) && s.threads != [] && s.g.lock.None? && !s.g.stop
    requires var r := s.threads[REFRESHER];
             && r.pc.Waiting? && s.g.now >= r.deadline && r.sleepRef == s.g.cached
             && (r.sleepRef > 0 ==> SecondsToHalfLife(r.issuedAt, r.expiresAt, r.sampled) < MAX_SLEEP + 1.0)
    ensures Exec(s, Actions(REFRESHER, [TimedOut] + rest)) == Some(s') && forall e :: e in rest ==> e == Run
    ensures s'.threads != [] && s'.threads[REFRESHER].pc.Fetching? && s'.threads[REFRESHER].snap == Previous(s.g.cached)
    ensures s'.g.pings == s.g.pings + [s.g.now] && s'.g.cached == s.g.cached
  {
    DueIsInvalid(s);
    hide Reachable, Solo, CachedValid, SecondsToHalfLife;
    var g', l';
    rest, g', l' := TimedOutAlone(s.g, s.threads[REFRESHER]);
    SoloIsRun(s, REFRESHER, [TimedOut] + rest, g', l');
    s' := State(g', s.threads[REFRESHER := l']);
  }

  lemma DueIsInvalid(s: State)
    requires Reachable(s) && s.threads != []
    requires var r := s.threads[REFRESHER];
             && r.pc.Waiting? && s.g.now >= r.deadline && r.sleepRef == s.g.cached
             && (r.sleepRef > 0 ==> SecondsToHalfLife(r.issuedAt, r.expiresAt, r.sampled) < MAX_SLEEP + 1.0)
    ensures !CachedValid(s.g) && s.threads[REFRESHER].op.Refresh?
  {
    ReachableInv(s);
    var r := s.threads[REFRESHER];
    assert ThreadOk(s.g, REFRESHER, r);
    SleepOutlastsTokenExactly(r.issuedAt, r.expiresAt, r.sampled);
    hide Reachable, Inv, ThreadOk, SecondsToHalfLife, SleepSeconds;
  }

  // ---------- After a fetch ----------

  /** A fetch that succeeds stores its token and leads back to the top of the loop. */
  lemma FetchedAlone(g: Shared, l: Thread, token: Token) returns (g': Shared, l': Thread)
    requires l.op.Refresh? && l.pc.Fetching? && g.lock.None?
    ensures Solo(g.(lock := Some(REFRESHER)), REFRESHER, l, [FetchOk(token)]) == Does(g', l')
    ensures Stored(g, token, g') && l' == l.(pc := LoopTop)
  {
    g', l' := StoredAlone(g, g.(lock := Some(REFRESHER)), REFRESHER, l, token);
  }

  /** One that fails changes nothing but the lock, and is followed by a pause of exactly the backoff. */
  lemma FailedAlone(g: Shared, l: Thread, failure: Failure) returns (l': Thread)
    requires l.op.Refresh? && l.pc.Fetching? && g.lock.None? && !failure.NoneDereference? && l.attempt >= 1
    ensures Solo(g.(lock := Some(REFRESHER)), REFRESHER, l, [FetchFail(failure), Run]) == Does(g, l')
    ensures l' == l.(pc := Backoff, deadline := g.now + RetryDelay(l.attempt) as real)
  {
    var g1, l1 := g.(lock := Some(REFRESHER)), l.(pc := EnterBackoff);
    assert ThreadStep(g1, REFRESHER, l, FetchFail(failure)) == Does(g, l1);
    l' := l1.(pc := Backoff, deadline := g.now + RetryDelay(l.attempt) as real);
    assert ThreadStep(g, REFRESHER, l1, Run) == Does(g, l');
    hide ThreadStep;
    assert Solo(g, REFRESHER, l1, [Run]) == Does(g, l');
  }

  /** The pause ends when the stop event is set, which ends the refresh, or at its deadline, which starts the
      next round. */
  lemma BackoffOverAlone(g: Shared, l: Thread)
    requires l.op.Refresh? && l.pc.Backoff?
    ensures g.now >= l.deadline ==> Solo(g, REFRESHER, l, [TimedOut]) == Does(g, l.(pc := InnerTop))
    ensures g.stop ==> Solo(g, REFRESHER, l, [Signalled]) == Does(g, l.(pc := LoopTop))
    ensures !g.stop ==> Solo(g, REFRESHER, l, [Signalled]) == Disabled
    ensures g.now < l.deadline ==> Solo(g, REFRESHER, l, [TimedOut]) == Disabled
  {
  }

  /** After n failures and their pauses, the next fetch is attempt n + 1, for the token then cached. */
  lemma RetryAlone(g: Shared, l: Thread) returns (rest: seq<Input>, g': Shared, l': Thread)
    requires l.op.Refresh? && l.pc.Backoff? && g.now >= l.deadline && !g.stop && g.lock.None?
    ensures Solo(g, REFRESHER, l, [TimedOut] + rest) == Does(g', l') && forall e :: e in rest ==> e == Run
    ensures if CachedValid(g) then g' == g && l'.pc.LoopTop?
            else
              && g' == g.(lock := Some(REFRESHER), pings := g.pings + [g.now])
              && l'.pc.Fetching? && l'.snap == Previous(g.cached) && l'.attempt == l.attempt + 1
  {
    BackoffOverAlone(g, l);
    hide Solo;
    rest, g', l' := RoundAlone(g, l.(pc := InnerTop));
    SoloThen(g, REFRESHER, l, [TimedOut], g, l.(pc := InnerTop), rest);
  }

  // ---------- The exception handler ----------

  /** Whatever is raised inside the `try`, the thread survives: it pauses for a second, or until the stop
      event is set, and starts over. */
  lemma HandlerAlone(g: Shared, l: Thread) returns (l': Thread)
    requires l.op.Refresh? && InTry(l.pc)
    ensures Solo(g, REFRESHER, l, [Unexpected, Run]) == Does(g, l')
    ensures l' == l.(pc := Pace, deadline := g.now + 1.0)
  {
    var l1 := l.(pc := EnterPace);
    assert ThreadStep(g, REFRESHER, l, Unexpected) == Does(g, l1);
    l' := l1.(pc := Pace, deadline := g.now + 1.0);
    assert ThreadStep(g, REFRESHER, l1, Run) == Does(g, l');
    hide ThreadStep;
    assert Solo(g, REFRESHER, l1, [Run]) == Does(g, l');
  }

  lemma PaceOverAlone(g: Shared, l: Thread)
    requires l.op.Refresh? && l.pc.Pace?
    ensures Solo(g, REFRESHER, l, [TimedOut]) == if g.now >= l.deadline then Does(g, l.(pc := LoopTop)) else Disabled
    ensures Solo(g, REFRESHER, l, [Signalled]) == if g.stop then Does(g, l.(pc := LoopTop)) else Disabled
  {
  }
}
