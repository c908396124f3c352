/** The inductive invariant of the token service, proved thread by thread: each step keeps the
    stepping thread's part (`OwnStep`) and disturbs no other thread's part (`Stable`). */
module TokenInvariant {
  import opened Wrappers
  import opened TokenTiming
  import opened TokenMachine

  // ---------- Shared memory ----------

  ghost predicate Paced(pings: seq<real>) {
    forall i :: 0 < i < |pings| ==> pings[i] - pings[i - 1] >= 1.0
  }

  ghost predicate StoresOk(stores: seq<Store>) {
    forall i :: 0 <= i < |stores| ==>
                  && stores[i].over == i && stores[i].stored == i + 1
                  && (stores[i].prev.Previous? ==> stores[i].prev.ref == i)
  }

  ghost predicate MemoryOk(g: Shared) {
    && g.cached == |g.heap| == |g.stores|
    && StoresOk(g.stores)
    && g.forced <= g.cached
    && (g.closed ==> g.stop)
    && Paced(g.pings)
    && (g.pings != [] ==> g.pings[|g.pings| - 1] <= g.now)
    && (!g.stop ==> g.late == 0)
  }

  /** At least a second has passed since the refresher last started a fetch. */
  ghost predicate Rested(g: Shared, time: real) {
    g.pings == [] || time >= g.pings[|g.pings| - 1] + 1.0
  }

  // ---------- One thread ----------

  ghost predicate RefresherPc(pc: PC) {
    pc.LoopTop? || pc.SleepNone? || pc.SleepIssued? || pc.SleepExpires? || pc.SleepSample? || pc.EnterWait?
    || pc.Waiting? || pc.ClearWake? || pc.StopCheck? || pc.EnterPace? || pc.Pace? || pc.Exited?
    || pc.InnerTop? || pc.EnterBackoff? || pc.Backoff?
  }

  predicate Validating(pc: PC) {
    pc.CheckNone? || pc.ReadIssued? || pc.ReadExpires? || pc.Verdict?
  }

  predicate BeforeFetch(pc: PC) {
    pc.TakeSnapshot? || pc.AwaitLock? || pc.Guard?
  }

  ghost predicate RoleOk(t: Tid, l: Thread) {
    && (l.op.Refresh? <==> t == REFRESHER)
    && (RefresherPc(l.pc) ==> l.op.Refresh?)
    && (l.forcing ==> l.op.Force? || l.op.Api?)
    && match l.op
       case Get => l.pc.Idle? || Validating(l.pc) || BeforeFetch(l.pc) || l.pc.Fetching?
                   || l.pc.Recover? || l.pc.ReadFast? || l.pc.ReadFinal?
       case Force => l.forcing && (l.pc.Idle? || BeforeFetch(l.pc) || l.pc.Fetching? || l.pc.SetWake?)
       case Api => l.pc.Idle? || BeforeFetch(l.pc) || l.pc.Fetching?
                   || (if l.forcing then l.pc.SetWake?
                       else Validating(l.pc) || l.pc.Recover? || l.pc.ReadFast? || l.pc.ReadFinal? || l.pc.Sent?)
       case Start => l.snap.NoPrevious?
                     && (l.pc.Idle? || l.pc.AwaitLock? || l.pc.Guard? || l.pc.Fetching? || l.pc.Spawn?)
       case Close => l.pc.Idle? || l.pc.SetStop? || l.pc.SetWake?
       case Refresh => l.pc.Idle? || RefresherPc(l.pc) || Validating(l.pc) || BeforeFetch(l.pc) || l.pc.Fetching?
  }

  ghost predicate LockOk(g: Shared, t: Tid, l: Thread) {
    && (l.pc.Guard? || l.pc.Fetching? <==> g.lock == Some(t))
    && (!l.op.Start? && (l.pc.AwaitLock? || l.pc.Guard? || l.pc.Fetching?) ==> l.snap.Previous?)
    && (l.snap.Previous? ==> l.snap.ref <= g.cached)
    && (l.pc.Fetching? && l.snap.Previous? ==> l.snap.ref == g.cached)
  }

  ghost predicate FieldsOk(g: Shared, l: Thread) {
    && (l.pc.ReadExpires? || l.pc.Verdict? || l.pc.ReadFast? || l.pc.SleepExpires? || l.pc.SleepSample? ==>
          1 <= l.issuedRef <= |g.heap| && l.issuedAt == g.heap[l.issuedRef - 1].issuedAt)
    && (l.pc.Verdict? || l.pc.ReadFast? || l.pc.SleepSample? ==>
          l.issuedRef <= l.expiresRef <= |g.heap| && l.expiresAt == g.heap[l.expiresRef - 1].expiresAt)
    && (l.pc.ReadFast? ==> l.sampled < SdkExpiry(l.issuedAt, l.expiresAt))
  }

  ghost predicate CallOk(g: Shared, l: Thread) {
    && l.seen <= g.cached && l.startRef <= g.cached && l.header <= g.cached
    && (l.pc.ReadIssued? || l.pc.ReadFast? || l.pc.ReadFinal? || l.pc.SleepIssued? ==> g.cached > 0)
    && (l.outcome.Returned? ==> l.startRef <= l.outcome.ref <= l.seen && 1 <= l.outcome.ref)
    && (l.op.Get? ==> l.outcome.Pending? || l.outcome.Returned? || (l.outcome.Raised? && l.startRef == 0))
    && (!l.pc.Idle? || l.op.Refresh? ==> l.outcome.Pending?)
    && (l.op.Close? && l.pc.SetWake? ==> g.stop)
    && (l.op.Api? && l.pc.Sent? ==> 1 <= l.header && l.startRef <= l.header)
    && (l.op.Api? && l.outcome.Raised? && !l.forcing ==> l.startRef == 0)
    && (l.op.Api? && l.forcing && l.requests == 0 ==> l.startRef == 0 && l.failure.Unauthorized?)
    && l.outcome != Raised(NoneDereference) && !l.failure.NoneDereference?
  }

  ghost predicate ForceOk(g: Shared, l: Thread) {
    && (l.forcing && (l.pc.AwaitLock? || l.pc.Guard? || l.pc.Fetching? || l.pc.SetWake?) ==>
          l.snap.Previous? && l.header <= l.snap.ref)
    && (l.forcing && l.pc.SetWake? ==> l.snap.ref < g.cached)
    && (l.outcome.Rejected? ==> l.forcing && l.header < g.cached)
  }

  /** If nothing was stored since a lazy caller's validity check, the cached token is the one that it
      found expired. */
  ghost predicate JudgedOk(g: Shared, l: Thread) {
    && (l.pc.ReadExpires? || l.pc.Verdict? ==> l.judged == l.issuedRef)
    && (!l.forcing && !l.op.Start? && (BeforeFetch(l.pc) || l.pc.Fetching?) ==>
          l.judged <= g.cached && (l.judged == g.cached ==> !CachedValid(g)))
  }

  predicate CachedValid(g: Shared) {
    g.cached > 0 && Valid(g.heap[g.cached - 1], g.now.Floor)
  }

  /** How many more fetches the current call may start. */
  function FetchesLeft(l: Thread): nat {
    if l.pc.Idle? || l.op.Close? then 0
    else if l.forcing || l.op.Start? then if BeforeFetch(l.pc) then 1 else 0
    else (if Validating(l.pc) || BeforeFetch(l.pc) then 1 else 0) + (if l.op.Api? then 1 else 0)
  }

  /** A forced refresh inside an API call follows a 401; a completed call was answered otherwise. */
  ghost predicate AnswerOk(l: Thread) {
    l.op.Api? ==>
      && l.answer == (if l.outcome.Completed? then Accepted
                      else if l.forcing && l.requests == 1 then Unauthorised
                      else NoAnswer)
      && (l.outcome.Completed? || l.outcome.Rejected? ==> l.pc.Idle?)
      && (l.outcome.Completed? ==> !l.forcing)
  }

  ghost predicate CountOk(l: Thread) {
    && (!l.op.Refresh? ==> l.fetches + FetchesLeft(l) <= if l.op.Api? then 2 else if l.op.Close? then 0 else 1)
    && l.requests <= (if l.op.Api? then 1 else 0)
    && (l.op.Api? && !l.forcing && !l.pc.Idle? && !l.pc.Sent? ==> l.requests == 0)
    && (l.op.Api? && !l.forcing ==> l.fetches <= 1)
    && (l.op.Api? && (l.pc.Sent? || l.outcome.Completed?) ==> l.requests == 1)
    && (l.op.Api? ==> !l.outcome.Returned?)
    && (l.pc.Fetching? ==> l.fetches >= 1)
  }

  /** Wake-ups are never lost: with the wake event clear, nothing the refresher should react to has
      happened since it started computing its sleep. */
  ghost predicate WakeOk(g: Shared, l: Thread) {
    && ((l.pc.SleepNone? || l.pc.SleepIssued? || l.pc.SleepExpires? || l.pc.SleepSample? || l.pc.EnterWait?
         || l.pc.Waiting?) && !g.wake ==>
          !g.closed && (!l.pc.SleepNone? ==> g.forced <= l.sleepRef))
    && ((l.pc.EnterWait? || l.pc.Waiting?) && l.sleepRef > 0 ==> SleepComputed(g, l))
    && (l.pc.SleepExpires? || l.pc.SleepSample? ==> 1 <= l.sleepRef <= l.issuedRef)
    && (l.pc.SleepIssued? ==> 1 <= l.sleepRef <= g.cached)
    && (l.pc.EnterWait? || l.pc.Waiting? ==> 0 <= l.sleepRef <= g.cached)
  }

  /** The sleep was computed from tokens at least as new as the one seen at its start. */
  ghost predicate SleepComputed(g: Shared, l: Thread) {
    && 1 <= l.sleepRef <= l.issuedRef <= l.expiresRef <= |g.heap|
    && l.issuedAt == g.heap[l.issuedRef - 1].issuedAt && l.expiresAt == g.heap[l.expiresRef - 1].expiresAt
    && l.sleep == SleepSeconds(l.issuedAt, l.expiresAt, l.sampled)
  }

  ghost predicate PaceOk(g: Shared, l: Thread) {
    && ((Validating(l.pc) || BeforeFetch(l.pc) || l.pc.InnerTop?) && l.op.Refresh? ==> Rested(g, g.now))
    && (l.pc.SleepNone? ==> Rested(g, g.now) || g.cached > 0)
    && (l.pc.LoopTop? || (l.pc.Idle? && l.op.Refresh?) ==> Rested(g, g.now) || g.cached > 0 || g.stop)
    && (l.pc.SleepIssued? || l.pc.SleepExpires? || l.pc.SleepSample? ==> g.cached > 0)
    && (l.pc.EnterWait? ==> Rested(g, g.now) || (g.cached > 0 && l.sleep >= 1.0))
    && (l.pc.EnterWait? ==> l.sleep >= 0.0)
    && (l.pc.Waiting? ==> Rested(g, l.deadline) && (Rested(g, g.now) || g.cached > 0))
    && (l.pc.ClearWake? || l.pc.StopCheck? ==> Rested(g, g.now) || (g.cached > 0 && l.wokeEarly))
    && (l.pc.Backoff? || l.pc.Pace? ==> Rested(g, l.deadline))
  }

  ghost predicate BackoffOk(g: Shared, l: Thread) {
    l.op.Refresh? ==>
      && (l.pc.AwaitLock? || l.pc.Guard? || l.pc.Fetching? || l.pc.EnterBackoff? || l.pc.Backoff? ==> l.attempt >= 1)
      && (l.pc.InnerTop? || Validating(l.pc) || l.pc.TakeSnapshot? ==>
            g.now >= l.innerStart + TotalDelay(l.attempt) as real)
      && (l.attempt >= 1 && (l.pc.AwaitLock? || l.pc.Guard? || l.pc.Fetching? || l.pc.EnterBackoff?) ==>
            g.now >= l.innerStart + TotalDelay(l.attempt - 1) as real)
      && (l.pc.Backoff? ==> l.deadline >= l.innerStart + TotalDelay(l.attempt) as real)
  }

  ghost predicate TimeoutOk(g: Shared, l: Thread) {
    && (l.pc.EnterWait? && l.sleepRef > 0 ==> l.sampled <= g.now.Floor)
    && (l.pc.Waiting? && l.sleepRef > 0 ==> l.deadline >= l.sampled as real + l.sleep)
    && ((l.pc.ClearWake? || l.pc.StopCheck?) && !l.wokeEarly && l.sleepRef > 0 ==>
          SleepComputed(g, l) && g.now >= l.sampled as real + l.sleep)
  }

  /** 1 where the refresher has passed the stop check and may still start a fetch. */
  function MayFetch(l: Thread): nat {
    if l.op.Refresh? && (Validating(l.pc) || BeforeFetch(l.pc)) then 1 else 0
  }

  ghost predicate ShutdownOk(g: Shared, l: Thread) {
    l.op.Refresh? ==> g.late + MayFetch(l) <= 1
  }

  ghost predicate AccessOk(g: Shared, t: Tid, l: Thread) {
    RoleOk(t, l) && LockOk(g, t, l) && FieldsOk(g, l) && JudgedOk(g, l)
  }

  ghost predicate ProgressOk(g: Shared, l: Thread) {
    CallOk(g, l) && ForceOk(g, l) && CountOk(l) && AnswerOk(l)
  }

  ghost predicate CallerOk(g: Shared, t: Tid, l: Thread) {
    AccessOk(g, t, l) && ProgressOk(g, l)
  }

  ghost predicate RefresherOk(g: Shared, l: Thread) {
    WakeOk(g, l) && PaceOk(g, l) && BackoffOk(g, l) && TimeoutOk(g, l) && ShutdownOk(g, l)
  }

  ghost predicate ThreadOk(g: Shared, t: Tid, l: Thread) {
    CallerOk(g, t, l) && RefresherOk(g, l)
  }

  ghost predicate LockHeld(s: State) {
    s.g.lock.Some? ==> s.g.lock.value < |s.threads|
  }

  ghost predicate Inv(s: State) {
    && MemoryOk(s.g)
    && |s.threads| > REFRESHER
    && LockHeld(s)
    && forall t :: 0 <= t < |s.threads| ==> ThreadOk(s.g, t, s.threads[t])
  }

  // ---------- What a step may do to the others ----------

  /** What thread `u` may rely on whenever another thread, or the clock, moves. */
  ghost predicate Rely(g: Shared, g': Shared, u: Tid) {
    && g.heap <= g'.heap && g.cached <= g'.cached
    && g.now <= g'.now
    && (g.lock == Some(u) <==> g'.lock == Some(u))
    && (g.lock == Some(u) ==> g.cached == g'.cached)
    && (g.stop ==> g'.stop) && (g.closed ==> g'.closed) && g.forced <= g'.forced
    && (u == REFRESHER ==>
          && g.pings == g'.pings && g.late == g'.late
          && (g.wake ==> g'.wake)
          && (!g'.wake ==> g'.forced == g.forced && g'.closed == g.closed))
  }

  lemma Stable(g: Shared, g': Shared, u: Tid, l: Thread)
    requires ThreadOk(g, u, l) && Rely(g, g', u) && MemoryOk(g) && MemoryOk(g')
    ensures ThreadOk(g', u, l)
  {
    StableCaller(g, g', u, l);
    StableRefresher(g, g', u, l);
    hide MemoryOk, CallerOk, RefresherOk;
  }

  lemma StableCaller(g: Shared, g': Shared, u: Tid, l: Thread)
    requires ThreadOk(g, u, l) && Rely(g, g', u) && MemoryOk(g) && MemoryOk(g')
    ensures CallerOk(g', u, l)
  {
    hide RefresherOk, RoleOk, CountOk, StoresOk, Paced, SdkExpiry;
  }

  lemma StableRefresher(g: Shared, g': Shared, u: Tid, l: Thread)
    requires ThreadOk(g, u, l) && Rely(g, g', u) && MemoryOk(g) && MemoryOk(g')
    ensures RefresherOk(g', l)
  {
    hide LockOk, FieldsOk, CallOk, ForceOk, CountOk, JudgedOk, StoresOk, Paced, TotalDelay, SleepSeconds;
  }

  /** The refresher's part of the invariant asks nothing of the other threads. */
  lemma OnlyRefresher(g: Shared, t: Tid, l: Thread)
    requires RoleOk(t, l) && t != REFRESHER
    ensures RefresherOk(g, l)
  {
  }

  // ---------- Steps on the thread's own variables ----------

  lemma BeginOk(g: Shared, t: Tid, l: Thread, op: Op)
    requires MemoryOk(g) && ThreadOk(g, t, l) && !l.op.Refresh? && l.pc.Idle? && !op.Refresh?
    ensures ThreadOk(g, t, BeginCall(g, l, op))
  {
  }

  lemma ValidityAccess(g: Shared, t: Tid, l: Thread, l': Thread)
    requires MemoryOk(g) && ThreadOk(g, t, l) && Validating(l.pc) && l' == ValidityStep(g, l)
    ensures AccessOk(g, t, l')
  {
    hide RefresherOk, StoresOk, Paced, ForceOk, CountOk;
  }

  lemma ValidityProgress(g: Shared, t: Tid, l: Thread, l': Thread)
    requires MemoryOk(g) && ThreadOk(g, t, l) && Validating(l.pc) && l' == ValidityStep(g, l)
    ensures ProgressOk(g, l')
  {
    hide RefresherOk, StoresOk, Paced, LockOk, JudgedOk, SdkExpiry;
  }

  lemma ValidityRefresher(g: Shared, t: Tid, l: Thread, l': Thread)
    requires MemoryOk(g) && ThreadOk(g, t, l) && Validating(l.pc) && l' == ValidityStep(g, l) && l.op.Refresh?
    ensures RefresherOk(g, l')
  {
    hide ForceOk, CountOk, StoresOk, Paced;
  }

  lemma SnapshotAccess(g: Shared, t: Tid, l: Thread, e: Input, l': Thread)
    requires MemoryOk(g) && ThreadOk(g, t, l) && CallStep(g, l, e) == To(l')
    requires (l.op.Refresh? ==> l.pc.TakeSnapshot?) && (l.pc.TakeSnapshot? || l.pc.Recover?)
    ensures AccessOk(g, t, l')
  {
    hide RefresherOk, MemoryOk, ForceOk, CountOk;
  }

  lemma SnapshotProgress(g: Shared, t: Tid, l: Thread, e: Input, l': Thread)
    requires MemoryOk(g) && ThreadOk(g, t, l) && CallStep(g, l, e) == To(l')
    requires (l.op.Refresh? ==> l.pc.TakeSnapshot?) && (l.pc.TakeSnapshot? || l.pc.Recover?)
    ensures ProgressOk(g, l')
  {
    hide RefresherOk, MemoryOk, JudgedOk, FieldsOk, SdkExpiry;
  }

  lemma ReturnAccess(g: Shared, t: Tid, l: Thread, e: Input, l': Thread)
    requires MemoryOk(g) && ThreadOk(g, t, l) && CallStep(g, l, e) == To(l')
    requires (l.op.Refresh? ==> l.pc.TakeSnapshot?) && (l.pc.ReadFast? || l.pc.ReadFinal? || l.pc.Sent?)
    ensures AccessOk(g, t, l')
  {
    hide RefresherOk, MemoryOk, ForceOk, CountOk, CallOk, SdkExpiry;
  }

  lemma ReturnProgress(g: Shared, t: Tid, l: Thread, e: Input, l': Thread)
    requires MemoryOk(g) && ThreadOk(g, t, l) && CallStep(g, l, e) == To(l')
    requires (l.op.Refresh? ==> l.pc.TakeSnapshot?) && (l.pc.ReadFast? || l.pc.ReadFinal? || l.pc.Sent?)
    ensures ProgressOk(g, l')
  {
    hide RefresherOk, MemoryOk, JudgedOk, FieldsOk, LockOk, SdkExpiry;
  }

  lemma SnapshotRefresher(g: Shared, t: Tid, l: Thread, e: Input, l': Thread)
    requires MemoryOk(g) && ThreadOk(g, t, l) && CallStep(g, l, e) == To(l') && l.op.Refresh? && l.pc.TakeSnapshot?
    ensures RefresherOk(g, l')
  {
    hide ForceOk, CountOk, StoresOk, Paced;
  }

  lemma ComputeCaller(g: Shared, t: Tid, l: Thread, e: Input, l': Thread)
    requires MemoryOk(g) && ThreadOk(g, t, l) && SleepStep(g, l, e) == To(l')
    requires l.op.Refresh? && (l.pc.LoopTop? || l.pc.SleepNone? || l.pc.SleepIssued? || l.pc.SleepExpires? || l.pc.SleepSample?)
    ensures CallerOk(g, t, l')
  {
    hide RefresherOk, StoresOk, Paced;
  }

  lemma ComputeRefresher(g: Shared, t: Tid, l: Thread, e: Input, l': Thread)
    requires MemoryOk(g) && ThreadOk(g, t, l) && SleepStep(g, l, e) == To(l')
    requires l.op.Refresh? && (l.pc.LoopTop? || l.pc.SleepNone? || l.pc.SleepIssued? || l.pc.SleepExpires? || l.pc.SleepSample?)
    ensures RefresherOk(g, l')
  {
    hide ForceOk, CountOk, AnswerOk, JudgedOk, LockOk, StoresOk, Paced, TotalDelay, RetryDelay;
  }

  lemma WaitCaller(g: Shared, t: Tid, l: Thread, e: Input, l': Thread)
    requires MemoryOk(g) && ThreadOk(g, t, l) && SleepStep(g, l, e) == To(l')
    requires l.op.Refresh? && (l.pc.EnterWait? || l.pc.Waiting? || l.pc.StopCheck?)
    ensures CallerOk(g, t, l')
  {
    hide RefresherOk, StoresOk, Paced;
  }

  lemma WaitRefresher(g: Shared, t: Tid, l: Thread, e: Input, l': Thread)
    requires MemoryOk(g) && ThreadOk(g, t, l) && SleepStep(g, l, e) == To(l')
    requires l.op.Refresh? && (l.pc.EnterWait? || l.pc.Waiting? || l.pc.StopCheck?)
    ensures RefresherOk(g, l')
  {
    hide ForceOk, CountOk, AnswerOk, CallOk, JudgedOk, FieldsOk, LockOk, StoresOk, Paced, SleepSeconds, RetryDelay;
  }

  lemma RetryCaller(g: Shared, t: Tid, l: Thread, e: Input, l': Thread)
    requires MemoryOk(g) && ThreadOk(g, t, l) && SleepStep(g, l, e) == To(l')
    requires l.op.Refresh? && (l.pc.EnterPace? || l.pc.Pace? || l.pc.InnerTop? || l.pc.EnterBackoff? || l.pc.Backoff?)
    ensures CallerOk(g, t, l')
  {
    hide RefresherOk, StoresOk, Paced;
  }

  lemma RetryRefresher(g: Shared, t: Tid, l: Thread, e: Input, l': Thread)
    requires MemoryOk(g) && ThreadOk(g, t, l) && SleepStep(g, l, e) == To(l')
    requires l.op.Refresh? && (l.pc.EnterPace? || l.pc.Pace? || l.pc.InnerTop?)
    ensures RefresherOk(g, l')
  {
    hide ForceOk, CountOk, CallOk, FieldsOk, LockOk, StoresOk, Paced, TotalDelay, RetryDelay, SleepSeconds;
  }

  lemma BackoffRefresher(g: Shared, t: Tid, l: Thread, e: Input, l': Thread)
    requires MemoryOk(g) && ThreadOk(g, t, l) && SleepStep(g, l, e) == To(l')
    requires l.op.Refresh? && (l.pc.EnterBackoff? || l.pc.Backoff?)
    ensures RefresherOk(g, l')
  {
    hide ForceOk, CountOk, CallOk, FieldsOk, LockOk, StoresOk, Paced, SleepSeconds;
    if l.pc.EnterBackoff? {
      RetryDelayNondecreasing(1, l.attempt);
    }
  }

  /** The refresher starts, or an unexpected exception takes it to its handler. */
  lemma JumpOk(g: Shared, t: Tid, l: Thread, e: Input, l': Thread)
    requires MemoryOk(g) && ThreadOk(g, t, l) && LocalStep(g, l, e) == To(l')
    requires e.Unexpected? || (l.op.Refresh? && l.pc.Idle?)
    ensures ThreadOk(g, t, l')
  {
    hide StoresOk, Paced;
  }

  lemma LocalOk(g: Shared, t: Tid, l: Thread, e: Input, l': Thread)
    requires MemoryOk(g) && ThreadOk(g, t, l) && LocalStep(g, l, e) == To(l')
    ensures ThreadOk(g, t, l')
  {
    if e.Unexpected? || (l.op.Refresh? && l.pc.Idle?) {
      JumpOk(g, t, l, e, l');
      return;
    }
    hide LockOk, FieldsOk, CallOk, ForceOk, CountOk, RefresherOk, MemoryOk, SleepStep, CallStep, ValidityStep, BeginCall;
    if l.pc.Idle? {
      BeginOk(g, t, l, e.op);
    } else if Validating(l.pc) {
      ValidityAccess(g, t, l, l');
      ValidityProgress(g, t, l, l');
      if l.op.Refresh? {
        ValidityRefresher(g, t, l, l');
      }
    } else if l.op.Refresh? && !l.pc.TakeSnapshot? {
      if l.pc.EnterWait? || l.pc.Waiting? || l.pc.StopCheck? {
        WaitCaller(g, t, l, e, l');
        WaitRefresher(g, t, l, e, l');
      } else if l.pc.EnterPace? || l.pc.Pace? || l.pc.InnerTop? || l.pc.EnterBackoff? || l.pc.Backoff? {
        RetryCaller(g, t, l, e, l');
        if l.pc.EnterBackoff? || l.pc.Backoff? {
          BackoffRefresher(g, t, l, e, l');
        } else {
          RetryRefresher(g, t, l, e, l');
        }
      } else {
        ComputeCaller(g, t, l, e, l');
        ComputeRefresher(g, t, l, e, l');
      }
    } else {
      if l.pc.TakeSnapshot? || l.pc.Recover? {
        SnapshotAccess(g, t, l, e, l');
        SnapshotProgress(g, t, l, e, l');
      } else {
        ReturnAccess(g, t, l, e, l');
        ReturnProgress(g, t, l, e, l');
      }
      if l.op.Refresh? {
        SnapshotRefresher(g, t, l, e, l');
      }
    }
    if t != REFRESHER {
      OnlyRefresher(g, t, l');
    }
  }

  // ---------- Steps on shared memory ----------

  lemma AcquireOk(g: Shared, t: Tid, l: Thread, e: Input, g': Shared, l': Thread)
    requires MemoryOk(g) && ThreadOk(g, t, l)
    requires l.pc.AwaitLock? && LockedStep(g, t, l, e) == Does(g', l')
    ensures MemoryOk(g') && ThreadOk(g', t, l')
    ensures forall u: Tid :: u != t ==> Rely(g, g', u)
  {
  }

  lemma SkipOk(g: Shared, t: Tid, l: Thread, g': Shared, l': Thread)
    requires MemoryOk(g) && ThreadOk(g, t, l)
    requires l.pc.Guard? && l.snap.Previous? && g.cached != l.snap.ref && (g', l') == (g.(lock := None), AfterFetch(l))
    ensures MemoryOk(g') && ThreadOk(g', t, l')
    ensures forall u: Tid :: u != t ==> Rely(g, g', u)
  {
    hide StoresOk, Paced;
  }

  lemma BeginFetchMemory(g: Shared, t: Tid, l: Thread, g': Shared, l': Thread)
    requires MemoryOk(g) && ThreadOk(g, t, l)
    requires l.pc.Guard? && (l.snap.Previous? ==> l.snap.ref == g.cached)
    requires g' == StartFetch(g, l.op) && l' == l.(pc := Fetching, fetches := l.fetches + 1)
    ensures MemoryOk(g')
    ensures forall u: Tid :: u != t ==> Rely(g, g', u)
  {
    hide StoresOk, WakeOk, TimeoutOk, FieldsOk, ForceOk, CountOk, BackoffOk;
  }

  lemma BeginFetchAccess(g: Shared, t: Tid, l: Thread, g': Shared, l': Thread)
    requires MemoryOk(g) && ThreadOk(g, t, l)
    requires l.pc.Guard? && (l.snap.Previous? ==> l.snap.ref == g.cached)
    requires g' == StartFetch(g, l.op) && l' == l.(pc := Fetching, fetches := l.fetches + 1)
    ensures RoleOk(t, l') && LockOk(g', t, l') && FieldsOk(g', l')
  {
    hide RefresherOk, MemoryOk, CallOk, ForceOk, CountOk, SdkExpiry;
  }

  lemma BeginFetchCall(g: Shared, t: Tid, l: Thread, g': Shared, l': Thread)
    requires MemoryOk(g) && ThreadOk(g, t, l)
    requires l.pc.Guard? && (l.snap.Previous? ==> l.snap.ref == g.cached)
    requires g' == StartFetch(g, l.op) && l' == l.(pc := Fetching, fetches := l.fetches + 1)
    ensures CallOk(g', l') && ForceOk(g', l') && CountOk(l') && JudgedOk(g', l')
  {
    hide RefresherOk, MemoryOk, FieldsOk;
  }

  lemma BeginFetchRefresher(g: Shared, t: Tid, l: Thread, g': Shared, l': Thread)
    requires MemoryOk(g) && ThreadOk(g, t, l)
    requires l.pc.Guard? && (l.snap.Previous? ==> l.snap.ref == g.cached)
    requires g' == StartFetch(g, l.op) && l' == l.(pc := Fetching, fetches := l.fetches + 1) && l.op.Refresh?
    ensures RefresherOk(g', l')
  {
    hide ForceOk, CountOk, StoresOk, Paced;
  }

  lemma FetchMemory(g: Shared, t: Tid, l: Thread, e: Input, g': Shared, l': Thread)
    requires MemoryOk(g) && ThreadOk(g, t, l)
    requires l.pc.Fetching? && LockedStep(g, t, l, e) == Does(g', l')
    ensures MemoryOk(g')
    ensures forall u: Tid :: u != t ==> Rely(g, g', u)
  {
    hide RefresherOk;
  }

  lemma FetchedOk(g: Shared, t: Tid, l: Thread, e: Input, g': Shared, l': Thread)
    requires MemoryOk(g) && ThreadOk(g, t, l)
    requires l.pc.Fetching? && e.FetchOk? && LockedStep(g, t, l, e) == Does(g', l')
    ensures ThreadOk(g', t, l')
  {
    hide StoresOk, Paced;
  }

  lemma FailedAccess(g: Shared, t: Tid, l: Thread, e: Input, g': Shared, l': Thread)
    requires MemoryOk(g) && ThreadOk(g, t, l)
    requires l.pc.Fetching? && e.FetchFail? && LockedStep(g, t, l, e) == Does(g', l')
    ensures AccessOk(g', t, l')
  {
    hide RefresherOk, MemoryOk, ForceOk, CountOk, CallOk;
  }

  lemma FailedProgress(g: Shared, t: Tid, l: Thread, e: Input, g': Shared, l': Thread)
    requires MemoryOk(g) && ThreadOk(g, t, l)
    requires l.pc.Fetching? && e.FetchFail? && LockedStep(g, t, l, e) == Does(g', l')
    ensures ProgressOk(g', l')
  {
    hide RefresherOk, MemoryOk, JudgedOk, FieldsOk, SdkExpiry;
  }

  lemma FailedRefresher(g: Shared, t: Tid, l: Thread, e: Input, g': Shared, l': Thread)
    requires MemoryOk(g) && ThreadOk(g, t, l)
    requires l.pc.Fetching? && e.FetchFail? && LockedStep(g, t, l, e) == Does(g', l') && l.op.Refresh?
    ensures RefresherOk(g', l')
  {
    hide ForceOk, CountOk, StoresOk, Paced;
  }

  lemma FlagMemory(g: Shared, t: Tid, l: Thread, e: Input, g': Shared, l': Thread)
    requires MemoryOk(g) && ThreadOk(g, t, l)
    requires FlagStep(g, l, e) == Does(g', l')
    ensures MemoryOk(g')
  {
    assert l.op.Close? && l.pc.SetWake? ==> g.stop;
    hide StoresOk, Paced, ThreadOk, BeginCall;
  }

  lemma FlagRely(g: Shared, t: Tid, l: Thread, e: Input, g': Shared, l': Thread)
    requires MemoryOk(g) && ThreadOk(g, t, l)
    requires FlagStep(g, l, e) == Does(g', l')
    ensures forall u: Tid :: u != t ==> Rely(g, g', u)
  {
    assert l.pc.ClearWake? ==> t == REFRESHER;
    hide StoresOk, Paced, ThreadOk, BeginCall;
  }

  lemma SetWakeOk(g: Shared, t: Tid, l: Thread, e: Input, g': Shared, l': Thread)
    requires MemoryOk(g) && ThreadOk(g, t, l)
    requires l.pc.SetWake? && FlagStep(g, l, e) == Does(g', l')
    ensures ThreadOk(g', t, l')
  {
    hide StoresOk, Paced;
  }

  lemma ClearWakeOk(g: Shared, t: Tid, l: Thread, e: Input, g': Shared, l': Thread)
    requires MemoryOk(g) && ThreadOk(g, t, l)
    requires l.pc.ClearWake? && FlagStep(g, l, e) == Does(g', l')
    ensures ThreadOk(g', t, l')
  {
    hide StoresOk, Paced;
  }

  lemma SpawnOk(g: Shared, t: Tid, l: Thread, e: Input, g': Shared, l': Thread)
    requires MemoryOk(g) && ThreadOk(g, t, l)
    requires (l.pc.Spawn? || l.pc.SetStop?) && FlagStep(g, l, e) == Does(g', l')
    ensures ThreadOk(g', t, l')
  {
    hide StoresOk, Paced;
  }

  lemma StartOk(g: Shared, t: Tid, l: Thread, e: Input, g': Shared, l': Thread)
    requires MemoryOk(g) && ThreadOk(g, t, l)
    requires l.pc.Idle? && FlagStep(g, l, e) == Does(g', l') && MemoryOk(g')
    ensures ThreadOk(g', t, l')
  {
    Stable(g, g', t, l);
    BeginOk(g', t, l, Start);
  }

  lemma RelyReflexive(g: Shared)
    ensures forall u: Tid :: Rely(g, g, u)
  {
  }

  lemma OwnStep(g: Shared, t: Tid, l: Thread, e: Input, g': Shared, l': Thread)
    requires MemoryOk(g) && ThreadOk(g, t, l)
    requires ThreadStep(g, t, l, e) == Does(g', l')
    ensures MemoryOk(g') && ThreadOk(g', t, l')
    ensures forall u: Tid :: u != t ==> Rely(g, g', u)
  {
    hide MemoryOk, LockOk, FieldsOk, CallOk, ForceOk, CountOk, JudgedOk, RefresherOk, Rely, LocalStep, FlagStep;
    if !WritesShared(l.pc, e) {
      RelyReflexive(g);
      LocalOk(g, t, l, e, l');
    } else if l.pc.AwaitLock? {
      AcquireOk(g, t, l, e, g', l');
    } else if l.pc.Guard? {
      if l.snap.Previous? && g.cached != l.snap.ref {
        SkipOk(g, t, l, g', l');
      } else {
        BeginFetchMemory(g, t, l, g', l');
        BeginFetchAccess(g, t, l, g', l');
        BeginFetchCall(g, t, l, g', l');
        if l.op.Refresh? {
          BeginFetchRefresher(g, t, l, g', l');
        } else {
          OnlyRefresher(g', t, l');
        }
      }
    } else if l.pc.Fetching? {
      FetchMemory(g, t, l, e, g', l');
      if e.FetchOk? {
        FetchedOk(g, t, l, e, g', l');
      } else {
        FailedAccess(g, t, l, e, g', l');
        FailedProgress(g, t, l, e, g', l');
        if l.op.Refresh? {
          FailedRefresher(g, t, l, e, g', l');
        } else {
          OnlyRefresher(g', t, l');
        }
      }
    } else {
      FlagMemory(g, t, l, e, g', l');
      FlagRely(g, t, l, e, g', l');
      if l.pc.Idle? {
        StartOk(g, t, l, e, g', l');
      } else if l.pc.SetWake? {
        SetWakeOk(g, t, l, e, g', l');
      } else if l.pc.ClearWake? {
        ClearWakeOk(g, t, l, e, g', l');
      } else {
        SpawnOk(g, t, l, e, g', l');
      }
    }
  }
}
