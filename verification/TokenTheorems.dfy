/** What the invariant means for whole runs of the token service. */
module TokenTheorems {
  import opened Wrappers
  import opened TokenTiming
  import opened TokenMachine
  import opened TokenInvariant

  lemma InitOk(callers: nat, now: real)
    ensures Inv(InitState(callers, now))
  {
  }

  lemma StepKeepsInv(s: State, action: Action, s': State)
    requires Inv(s) && Step(s, action) == Some(s')
    ensures Inv(s')
  {
    hide ThreadOk, MemoryOk, ThreadStep;
    match action
    case Tick(d) =>
      TickKeepsMemory(s.g, s'.g);
      forall u | 0 <= u < |s.threads| ensures ThreadOk(s'.g, u, s'.threads[u]) {
        Stable(s.g, s'.g, u, s.threads[u]);
      }
    case Act(t, e) =>
      var Does(g', l') := ThreadStep(s.g, t, s.threads[t], e);
      OwnStep(s.g, t, s.threads[t], e, g', l');
      if g'.lock.Some? && g'.lock.value != t {
        assert Rely(s.g, g', g'.lock.value);
      }
      forall u | 0 <= u < |s.threads| ensures ThreadOk(g', u, s'.threads[u]) {
        if u != t {
          Stable(s.g, g', u, s.threads[u]);
        }
      }
  }

  lemma TickKeepsMemory(g: Shared, g': Shared)
    requires MemoryOk(g) && g.now <= g'.now && g' == g.(now := g'.now)
    ensures MemoryOk(g')
    ensures forall u: Tid :: Rely(g, g', u)
  {
  }

  lemma {:induction false} ExecKeepsInv(s: State, actions: seq<Action>, s': State)
    requires Inv(s) && Exec(s, actions) == Some(s')
    ensures Inv(s')
    decreases |actions|
  {
    hide Inv, Step;
    if actions != [] {
      var mid := Step(s, actions[0]).value;
      StepKeepsInv(s, actions[0], mid);
      ExecKeepsInv(mid, actions[1..], s');
    }
  }

  lemma ReachableInv(s: State)
    requires Reachable(s)
    ensures Inv(s)
  {
    hide Inv, Exec, InitState;
    var callers: nat, now: real, actions :| Exec(InitState(callers, now), actions) == Some(s);
    InitOk(callers, now);
    ExecKeepsInv(InitState(callers, now), actions, s);
  }

  // ---------- Compare and replace ----------

  /** The only write to the cache is the lock holder storing a fresh object over the very token it
      had snapshotted; every other step, and so every skip and failure, leaves the cache alone. */
  lemma OnlyFreshStoresChangeCache(s: State, action: Action, s': State)
    requires Reachable(s) && Step(s, action) == Some(s')
    ensures (s'.g.cached == s.g.cached && s'.g.heap == s.g.heap)
            || (&& action.Act? && action.input.FetchOk? && action.tid < |s.threads|
                && s.g.lock == Some(action.tid)
                && s'.g.heap == s.g.heap + [action.input.token]
                && s'.g.cached == |s'.g.heap| == s.g.cached + 1
                && s.threads[action.tid].snap in {NoPrevious, Previous(s.g.cached)})
  {
    ReachableInv(s);
    hide MemoryOk, ThreadOk, ThreadStep;
    if action.Act? {
      assert ThreadOk(s.g, action.tid, s.threads[action.tid]);
      CacheEffect(s.g, action.tid, s.threads[action.tid], action.input, s'.g, s'.threads[action.tid]);
    }
  }

  lemma CacheEffect(g: Shared, t: Tid, l: Thread, e: Input, g': Shared, l': Thread)
    requires MemoryOk(g) && ThreadOk(g, t, l) && ThreadStep(g, t, l, e) == Does(g', l')
    ensures (g'.cached == g.cached && g'.heap == g.heap)
            || (&& e.FetchOk? && g.lock == Some(t)
                && g'.heap == g.heap + [e.token] && g'.cached == |g'.heap| == g.cached + 1
                && l.snap in {NoPrevious, Previous(g.cached)})
  {
    if l.pc.Fetching? {
      hide StoresOk, Paced, RefresherOk, FieldsOk, CallOk, ForceOk, CountOk, RoleOk, LocalStep, FlagStep;
    } else if l.pc.AwaitLock? || l.pc.Guard? {
      hide MemoryOk, ThreadOk, AfterFetch;
    } else {
      FlagsLeaveCache(g, t, l, e, g', l');
    }
  }

  lemma FlagsLeaveCache(g: Shared, t: Tid, l: Thread, e: Input, g': Shared, l': Thread)
    requires !l.pc.Fetching? && !l.pc.AwaitLock? && !l.pc.Guard? && ThreadStep(g, t, l, e) == Does(g', l')
    ensures g'.cached == g.cached && g'.heap == g.heap
  {
    hide LocalStep, LockedStep, BeginCall;
  }

  /** At most one store per snapshot, however many callers took that snapshot; and no version is
      ever overwritten twice. */
  lemma OneStorePerSnapshot(s: State, i: nat, j: nat)
    requires Reachable(s) && i < j < |s.g.stores|
    ensures s.g.stores[i].over < s.g.stores[i].stored <= s.g.stores[j].over < s.g.stores[j].stored
    ensures s.g.stores[i].prev.Previous? ==> s.g.stores[i].prev != s.g.stores[j].prev
  {
    ReachableInv(s);
  }

  /** Versions only grow, so the cache never returns to None, and stored objects never change. */
  lemma {:induction false} CacheGrows(s: State, actions: seq<Action>, s': State)
    requires Inv(s) && Exec(s, actions) == Some(s')
    ensures s.g.cached <= s'.g.cached && s.g.heap <= s'.g.heap && s.g.forced <= s'.g.forced
    ensures (s.g.stop ==> s'.g.stop) && (s.g.closed ==> s'.g.closed)
    ensures |s'.threads| == |s.threads|
    ensures forall t :: 0 <= t < |s.threads| ==> s.threads[t].seen <= s'.threads[t].seen
    decreases |actions|
  {
    hide Inv, Step;
    if actions != [] {
      var mid := Step(s, actions[0]).value;
      StepGrows(s, actions[0], mid);
      StepKeepsInv(s, actions[0], mid);
      CacheGrows(mid, actions[1..], s');
    }
  }

  lemma StepGrows(s: State, action: Action, s': State)
    requires Inv(s) && Step(s, action) == Some(s')
    ensures s.g.cached <= s'.g.cached && s.g.heap <= s'.g.heap && s.g.forced <= s'.g.forced
    ensures (s.g.stop ==> s'.g.stop) && (s.g.closed ==> s'.g.closed)
    ensures |s'.threads| == |s.threads|
    ensures forall t :: 0 <= t < |s.threads| ==> s.threads[t].seen <= s'.threads[t].seen
  {
    hide MemoryOk, ThreadOk, ThreadStep;
    if action.Act? {
      assert ThreadOk(s.g, action.tid, s.threads[action.tid]);
      MemoryGrows(s.g, action.tid, s.threads[action.tid], action.input, s'.g, s'.threads[action.tid]);
      SeenGrows(s.g, action.tid, s.threads[action.tid], action.input, s'.g, s'.threads[action.tid]);
    }
  }

  lemma MemoryGrows(g: Shared, t: Tid, l: Thread, e: Input, g': Shared, l': Thread)
    requires MemoryOk(g) && ThreadOk(g, t, l) && ThreadStep(g, t, l, e) == Does(g', l')
    ensures g.cached <= g'.cached && g.heap <= g'.heap && g.forced <= g'.forced
    ensures (g.stop ==> g'.stop) && (g.closed ==> g'.closed)
  {
    hide MemoryOk, ThreadOk, ThreadStep;
    OwnStep(g, t, l, e, g', l');
    assert Rely(g, g', t + 1);
  }

  lemma SeenGrows(g: Shared, t: Tid, l: Thread, e: Input, g': Shared, l': Thread)
    requires ThreadOk(g, t, l) && ThreadStep(g, t, l, e) == Does(g', l')
    ensures l.seen <= l'.seen
  {
    if WritesShared(l.pc, e) {
      SharedStepKeepsSeen(g, t, l, e, g', l');
    } else {
      hide RefresherOk, FieldsOk, ForceOk, CountOk, RoleOk, LockOk, LockedStep, FlagStep, SleepStep, ValidityStep;
      if l.op.Refresh? && !l.pc.Idle? && !l.pc.TakeSnapshot? && !Validating(l.pc) && !e.Unexpected? {
        SleepKeepsSeen(g, l, e, l');
      } else if Validating(l.pc) && !e.Unexpected? {
        ValidityKeepsSeen(g, l, l');
      }
    }
  }

  lemma SleepKeepsSeen(g: Shared, l: Thread, e: Input, l': Thread)
    requires SleepStep(g, l, e) == To(l')
    ensures l'.seen == l.seen
  {
    hide SleepSeconds;
  }

  lemma ValidityKeepsSeen(g: Shared, l: Thread, l': Thread)
    requires Validating(l.pc) && ValidityStep(g, l) == l'
    ensures l'.seen == l.seen
  {
  }

  lemma SharedStepKeepsSeen(g: Shared, t: Tid, l: Thread, e: Input, g': Shared, l': Thread)
    requires WritesShared(l.pc, e) && ThreadStep(g, t, l, e) == Does(g', l')
    ensures l'.seen == l.seen
  {
    hide LocalStep;
  }

  lemma {:induction false} ExecThen(s: State, first: seq<Action>, mid: State, second: seq<Action>)
    requires Exec(s, first) == Some(mid)
    ensures Exec(s, first + second) == Exec(mid, second)
    decreases |first|
  {
    hide Step;
    if first == [] {
      assert first + second == second;
    } else {
      ExecThen(Step(s, first[0]).value, first[1..], mid, second);
      assert (first + second)[1..] == first[1..] + second;
    }
  }

  lemma ReachableThen(s: State, actions: seq<Action>, s': State)
    requires Reachable(s) && Exec(s, actions) == Some(s')
    ensures Reachable(s')
  {
    hide InitState, Exec;
    var callers: nat, now: real, before :| Exec(InitState(callers, now), before) == Some(s);
    ExecThen(InitState(callers, now), before, s, actions);
  }

  // ---------- get_auth_token ----------

  /** The lock-free fast path: although its two fields may come from different tokens, the token
      read afterwards and returned was before its own half-life at the sampled time. */
  lemma FastPathSound(s: State, t: Tid, s': State)
    requires Reachable(s) && t < |s.threads| && s.threads[t].pc.ReadFast?
    requires Step(s, Act(t, Run)) == Some(s') && Monotone(s.g.heap)
    ensures 1 <= s'.threads[t].header == s.g.cached
    ensures Valid(s.g.heap[s.g.cached - 1], s.threads[t].sampled)
  {
    ReachableInv(s);
    var l := s.threads[t];
    assert ThreadOk(s.g, t, l);
    TornVerdict(s.g.heap[l.issuedRef - 1], s.g.heap[l.expiresRef - 1], s.g.heap[s.g.cached - 1], l.sampled);
    hide Reachable, Inv, MemoryOk, ThreadOk, Monotone, SdkExpiry, SleepStep, ValidityStep, LockedStep, FlagStep;
    FastPathReturns(s.g, t, l, s'.g, s'.threads[t]);
  }

  lemma FastPathReturns(g: Shared, t: Tid, l: Thread, g': Shared, l': Thread)
    requires g.cached > 0 && l.pc.ReadFast? && !l.op.Refresh? && ThreadStep(g, t, l, Run) == Does(g', l')
    ensures l'.header == g.cached
  {
  }

  /** A call that began with a token cached hands out a token at least that new, whatever the
      fetches did, be it to its caller or into the header of an API request, which is then always
      sent; an attribute of None is never read. */
  lemma GetReturnsToken(s: State, t: Tid)
    requires Reachable(s) && t < |s.threads|
    ensures s.threads[t].outcome != Raised(NoneDereference)
    ensures s.threads[t].op.Get? && !s.threads[t].outcome.Pending? && s.threads[t].startRef > 0 ==>
              s.threads[t].outcome.Returned? && s.threads[t].startRef <= s.threads[t].outcome.ref <= s.g.cached
    ensures s.threads[t].op.Api? && s.threads[t].pc.Sent? ==>
              0 < s.threads[t].header <= s.g.cached && s.threads[t].startRef <= s.threads[t].header
    ensures s.threads[t].op.Api? && !s.threads[t].outcome.Pending? && s.threads[t].startRef > 0 ==>
              s.threads[t].requests == 1
  {
    ReachableInv(s);
    assert ThreadOk(s.g, t, s.threads[t]);
  }

  /** The tokens handed to one thread never go backwards, over any run. */
  lemma SeenNeverGoesBack(s: State, actions: seq<Action>, s': State, t: Tid)
    requires Reachable(s) && Exec(s, actions) == Some(s') && t < |s.threads|
    ensures t < |s'.threads| && s.threads[t].seen <= s'.threads[t].seen
    ensures s'.threads[t].outcome.Returned? ==> s'.threads[t].outcome.ref <= s'.threads[t].seen
  {
    ReachableInv(s);
    CacheGrows(s, actions, s');
    ExecKeepsInv(s, actions, s');
    assert ThreadOk(s'.g, t, s'.threads[t]);
  }

  /** Own steps a call can still take. */
  function CallRank(l: Thread): nat {
    if l.forcing || l.op.Close? || l.op.Start? then
      match l.pc
      case TakeSnapshot => 6 case AwaitLock => 5 case Guard => 4 case Fetching => 3
      case SetStop => 2 case SetWake => 1 case Spawn => 1 case _ => 0
    else
      match l.pc
      case CheckNone => 17 case ReadIssued => 16 case ReadExpires => 15 case Verdict => 14
      case TakeSnapshot => 13 case AwaitLock => 12 case Guard => 11 case Fetching => 10 case Recover => 9
      case ReadFast => 8 case ReadFinal => 8 case Sent => 7 case _ => 0
  }

  /** Every call ends: each of its own steps brings it closer to its end. */
  lemma CallsEnd(s: State, t: Tid, e: Input, s': State)
    requires Reachable(s) && t != REFRESHER && t < |s.threads| && !s.threads[t].pc.Idle?
    requires Step(s, Act(t, e)) == Some(s')
    ensures CallRank(s'.threads[t]) < CallRank(s.threads[t]) <= 17
    ensures CallRank(s'.threads[t]) == 0 ==> s'.threads[t].pc.Idle? && !s'.threads[t].outcome.Pending?
  {
    ReachableInv(s);
    hide MemoryOk, ThreadOk, ThreadStep;
    assert ThreadOk(s.g, t, s.threads[t]);
    CallShrinks(s.g, t, s.threads[t], e, s'.g, s'.threads[t]);
  }

  lemma CallShrinks(g: Shared, t: Tid, l: Thread, e: Input, g': Shared, l': Thread)
    requires ThreadOk(g, t, l) && ThreadStep(g, t, l, e) == Does(g', l')
    requires t != REFRESHER && !l.pc.Idle?
    ensures CallRank(l') < CallRank(l) <= 17
    ensures CallRank(l') == 0 ==> l'.pc.Idle? && !l'.outcome.Pending?
  {
    assert RoleOk(t, l);
    hide ThreadOk, LocalStep, LockedStep, FlagStep, CallRank;
    if !WritesShared(l.pc, e) {
      CallShrinksLocally(g, t, l, e, l');
    } else if l.pc.AwaitLock? || l.pc.Guard? || l.pc.Fetching? {
      CallShrinksLocked(g, t, l, e, g', l');
    } else {
      CallShrinksByFlag(g, t, l, e, g', l');
    }
  }

  lemma CallShrinksLocked(g: Shared, t: Tid, l: Thread, e: Input, g': Shared, l': Thread)
    requires RoleOk(t, l) && LockedStep(g, t, l, e) == Does(g', l') && t != REFRESHER
    ensures CallRank(l') < CallRank(l) <= 17
    ensures CallRank(l') == 0 ==> l'.pc.Idle? && !l'.outcome.Pending?
  {
  }

  lemma CallShrinksByFlag(g: Shared, t: Tid, l: Thread, e: Input, g': Shared, l': Thread)
    requires RoleOk(t, l) && FlagStep(g, l, e) == Does(g', l') && t != REFRESHER && !l.pc.Idle?
    ensures CallRank(l') < CallRank(l) <= 17
    ensures CallRank(l') == 0 ==> l'.pc.Idle? && !l'.outcome.Pending?
  {
    hide BeginCall;
  }

  lemma CallShrinksLocally(g: Shared, t: Tid, l: Thread, e: Input, l': Thread)
    requires RoleOk(t, l) && LocalStep(g, l, e) == To(l') && t != REFRESHER && !l.pc.Idle?
    ensures CallRank(l') < CallRank(l) <= 17
    ensures CallRank(l') == 0 ==> l'.pc.Idle? && !l'.outcome.Pending?
  {
    hide BeginCall, SleepStep, SdkExpiry;
  }

  // ---------- The 401 path ----------

  /** When force_refresh_token returns after a rejected request, the cached token is strictly newer
      than the rejected one, and stays so for the rest of the run. */
  lemma RejectedTokenReplaced(s: State, t: Tid, s': State, actions: seq<Action>, later: State)
    requires Reachable(s) && t < |s.threads| && s.threads[t].op.Api? && s.threads[t].pc.SetWake?
    requires Step(s, Act(t, Run)) == Some(s') && Exec(s', actions) == Some(later)
    ensures s'.threads[t].outcome.Rejected?
    ensures s'.threads[t].header == s.threads[t].header < s.g.cached <= later.g.cached
  {
    ReachableInv(s);
    assert ThreadOk(s.g, t, s.threads[t]);
    StepKeepsInv(s, Act(t, Run), s');
    CacheGrows(s', actions, later);
  }

  /** One API call sends at most one API request and starts at most two fetches; any other call
      starts at most one fetch and sends no request. */
  lemma RequestBudget(s: State, t: Tid)
    requires Reachable(s) && t < |s.threads| && t != REFRESHER
    ensures s.threads[t].requests <= (if s.threads[t].op.Api? then 1 else 0)
    ensures s.threads[t].fetches <= (if s.threads[t].op.Api? then 2 else 1)
    ensures s.threads[t].op.Close? ==> s.threads[t].fetches == 0
  {
    ReachableInv(s);
    assert ThreadOk(s.g, t, s.threads[t]);
  }

  /** The answer decides: only a 401 leads from a sent request to a forced refresh, and only another answer
      to a completed call. */
  lemma AnswerDecides(s: State, t: Tid)
    requires Reachable(s) && t < |s.threads| && s.threads[t].op.Api?
    ensures s.threads[t].answer == Accepted <==> s.threads[t].outcome.Completed?
    ensures s.threads[t].answer == Unauthorised <==> s.threads[t].forcing && s.threads[t].requests == 1
    ensures s.threads[t].answer == Accepted ==> s.threads[t].fetches <= 1 && !s.threads[t].forcing
  {
    ReachableInv(s);
    assert ThreadOk(s.g, t, s.threads[t]);
  }

  // ---------- The background refresher ----------

  /** No wake-up is lost. Once force_refresh_token has returned, a refresher blocked with its wake
      event clear sleeps on a schedule computed from a token at least as new as the one then cached. */
  lemma ForcedRefreshNotLost(s: State, t: Tid, s': State, actions: seq<Action>, later: State)
    requires Reachable(s) && t < |s.threads| && s.threads[t].pc.SetWake? && !s.threads[t].op.Close?
    requires Step(s, Act(t, Run)) == Some(s') && Exec(s', actions) == Some(later)
    requires later.threads != [] && later.threads[REFRESHER].pc.Waiting? && !later.g.wake
    ensures later.threads[REFRESHER].sleepRef >= s'.g.cached > 0
    ensures SleepComputed(later.g, later.threads[REFRESHER])
  {
    ReachableInv(s);
    StepKeepsInv(s, Act(t, Run), s');
    CacheGrows(s', actions, later);
    ExecKeepsInv(s', actions, later);
    assert ThreadOk(later.g, REFRESHER, later.threads[REFRESHER]);
  }

  /** Nor can the refresher be blocked, wake event clear, once close() has set both events. */
  lemma CloseNotLost(s: State, t: Tid, s': State, actions: seq<Action>, later: State)
    requires Reachable(s) && t < |s.threads| && s.threads[t].pc.SetWake? && s.threads[t].op.Close?
    requires Step(s, Act(t, Run)) == Some(s') && Exec(s', actions) == Some(later)
    ensures later.g.stop
    ensures later.threads != [] && later.threads[REFRESHER].pc.Waiting? ==> later.g.wake
  {
    ReachableInv(s);
    StepKeepsInv(s, Act(t, Run), s');
    CacheGrows(s', actions, later);
    ExecKeepsInv(s', actions, later);
    assert ThreadOk(later.g, REFRESHER, later.threads[REFRESHER]);
  }

  /** The refresher's fetches start at least a second apart, through stale or missing tokens, early
      wakes, failures and unexpected exceptions. */
  lemma FetchesPaced(s: State, i: nat)
    requires Reachable(s) && i + 1 < |s.g.pings|
    ensures s.g.pings[i + 1] - s.g.pings[i] >= 1.0
  {
    ReachableInv(s);
    assert s.g.pings[i + 1] - s.g.pings[i + 1 - 1] >= 1.0;
  }

  /** The n-th attempt of one refresh starts only after the whole backoff of the n - 1 failures. */
  lemma AttemptsBackOff(s: State)
    requires Reachable(s) && s.threads != [] && s.threads[REFRESHER].pc.Fetching?
    ensures var n := s.threads[REFRESHER].attempt;
            && n >= 1
            && s.g.now - s.threads[REFRESHER].innerStart
               >= if n <= 6 then (Pow2(n - 1) - 1) as real else (31 + 30 * (n - 6)) as real
  {
    ReachableInv(s);
    var l := s.threads[REFRESHER];
    assert ThreadOk(s.g, REFRESHER, l);
    TotalDelayClosedForm(l.attempt - 1);
  }

  /** A sleep that ran its course ends with the token it was computed from no longer valid, unless the
      half-life lies a second or more beyond the one-day cap. If both fields were read from one token it
      is that one; if they were read from two and time stamps never decrease, it is both, and every token
      from the start of the computation up to them. */
  lemma TimeoutMeansExpired(s: State)
    requires Reachable(s) && s.threads != []
    requires var l := s.threads[REFRESHER];
             && l.pc.StopCheck? && !l.wokeEarly && l.sleepRef > 0
             && SecondsToHalfLife(l.issuedAt, l.expiresAt, l.sampled) < MAX_SLEEP + 1.0
    ensures var l := s.threads[REFRESHER];
            SleepComputed(s.g, l) && SdkExpiry(l.issuedAt, l.expiresAt) <= s.g.now.Floor
    ensures var l := s.threads[REFRESHER];
            (l.issuedRef == l.expiresRef ==> !Valid(s.g.heap[l.issuedRef - 1], s.g.now.Floor))
            && (Monotone(s.g.heap) ==>
                  forall i :: l.sleepRef <= i + 1 <= l.issuedRef ==> !Valid(s.g.heap[i], s.g.now.Floor))
  {
    ReachableInv(s);
    var l := s.threads[REFRESHER];
    assert ThreadOk(s.g, REFRESHER, l);
    SleepOutlastsTokenExactly(l.issuedAt, l.expiresAt, l.sampled);
    hide ThreadOk, Reachable, Inv;
    if Monotone(s.g.heap) {
      forall i | l.sleepRef <= i + 1 <= l.issuedRef ensures !Valid(s.g.heap[i], s.g.now.Floor) {
        SdkExpiryIsFloorOfMean(l.issuedAt, l.expiresAt);
        SdkExpiryIsFloorOfMean(s.g.heap[i].issuedAt, s.g.heap[i].expiresAt);
      }
    }
  }

  // ---------- Shutdown ----------

  /** After the stop event is set the refresher starts at most one more fetch. */
  lemma AtMostOneLateFetch(s: State)
    requires Reachable(s) && s.threads != []
    ensures s.g.late <= 1
  {
    ReachableInv(s);
    assert ThreadOk(s.g, REFRESHER, s.threads[REFRESHER]);
  }

  /** Own steps from a program point to the end of the refresher, once the stop event is set. */
  function ExitRank(pc: PC): nat {
    match pc
    case CheckNone => 14 case ReadIssued => 13 case ReadExpires => 12 case Verdict => 11
    case TakeSnapshot => 10 case AwaitLock => 9 case Guard => 8 case Fetching => 7
    case EnterBackoff => 6 case Backoff => 5 case InnerTop => 4
    case SleepNone => 9 case SleepIssued => 8 case SleepExpires => 7 case SleepSample => 6
    case EnterWait => 5 case Waiting => 4 case ClearWake => 3 case StopCheck => 2
    case EnterPace => 3 case Pace => 2 case LoopTop => 1 case Idle => 2 case _ => 0
  }

  function RefresherSteps(actions: seq<Action>): nat {
    if actions == [] then 0
    else (if actions[0].Act? && actions[0].tid == REFRESHER then 1 else 0) + RefresherSteps(actions[1..])
  }

  lemma StoppedStep(s: State, action: Action, s': State)
    requires Inv(s) && s.g.stop && Step(s, action) == Some(s')
    ensures s'.g.stop
    ensures RefresherSteps([action]) + ExitRank(s'.threads[REFRESHER].pc) <= ExitRank(s.threads[REFRESHER].pc)
  {
    StepGrows(s, action, s');
    hide MemoryOk;
    if action.Act? && action.tid == REFRESHER {
      assert ThreadOk(s.g, REFRESHER, s.threads[REFRESHER]);
      ExitNears(s.g, s.threads[REFRESHER], action.input, s'.g, s'.threads[REFRESHER]);
    }
  }

  lemma ExitNears(g: Shared, l: Thread, e: Input, g': Shared, l': Thread)
    requires ThreadOk(g, REFRESHER, l) && g.stop && ThreadStep(g, REFRESHER, l, e) == Does(g', l')
    ensures ExitRank(l'.pc) < ExitRank(l.pc) <= 14
  {
    assert RoleOk(REFRESHER, l);
    hide ThreadOk, LocalStep;
    if !WritesShared(l.pc, e) {
      ExitNearsLocally(g, l, e, l');
    } else {
      hide FlagStep;
      if l.pc.ClearWake? || l.pc.Idle? || l.pc.Spawn? || l.pc.SetStop? || l.pc.SetWake? {
        ExitNearsByFlag(g, l, e, g', l');
      }
    }
  }

  lemma ExitNearsByFlag(g: Shared, l: Thread, e: Input, g': Shared, l': Thread)
    requires RoleOk(REFRESHER, l) && FlagStep(g, l, e) == Does(g', l')
    ensures ExitRank(l'.pc) < ExitRank(l.pc) <= 14
  {
    hide BeginCall;
  }

  lemma ExitNearsLocally(g: Shared, l: Thread, e: Input, l': Thread)
    requires RoleOk(REFRESHER, l) && g.stop && LocalStep(g, l, e) == To(l')
    ensures ExitRank(l'.pc) < ExitRank(l.pc) <= 14
  {
    hide BeginCall, SleepStep, ValidityStep, CallStep;
    if !e.Unexpected? && !l.pc.Idle? {
      if Validating(l.pc) {
        ExitNearsInCheck(g, l, l');
      } else if l.pc.TakeSnapshot? {
        ExitNearsAtSnapshot(g, l, e, l');
      } else {
        ExitNearsInLoop(g, l, e, l');
      }
    }
  }

  lemma ExitNearsInCheck(g: Shared, l: Thread, l': Thread)
    requires l.op.Refresh? && Validating(l.pc) && ValidityStep(g, l) == l'
    ensures ExitRank(l'.pc) < ExitRank(l.pc) <= 14
  {
    hide SdkExpiry;
  }

  lemma ExitNearsAtSnapshot(g: Shared, l: Thread, e: Input, l': Thread)
    requires l.pc.TakeSnapshot? && CallStep(g, l, e) == To(l')
    ensures ExitRank(l'.pc) < ExitRank(l.pc) <= 14
  {
  }

  lemma ExitNearsInLoop(g: Shared, l: Thread, e: Input, l': Thread)
    requires l.op.Refresh? && g.stop && SleepStep(g, l, e) == To(l')
    ensures ExitRank(l'.pc) < ExitRank(l.pc) <= 14
  {
    hide SleepSeconds, RetryDelay;
  }

  /** Once the stop event is set, the refresher takes at most fourteen more steps of its own,
      whatever its position in the two loops and the exception handler. */
  lemma {:induction false} RefresherRunsOut(s: State, actions: seq<Action>, s': State)
    requires Inv(s) && s.g.stop && Exec(s, actions) == Some(s')
    ensures s'.threads != []
    ensures RefresherSteps(actions) + ExitRank(s'.threads[REFRESHER].pc) <= ExitRank(s.threads[REFRESHER].pc) <= 14
    decreases |actions|
  {
    if actions != [] {
      var mid := Step(s, actions[0]).value;
      StoppedStep(s, actions[0], mid);
      assert RefresherSteps([actions[0]]) == if actions[0].Act? && actions[0].tid == REFRESHER then 1 else 0;
      hide Inv, Step;
      StepKeepsInv(s, actions[0], mid);
      RefresherRunsOut(mid, actions[1..], s');
    }
  }

  /** After close() nothing can block the refresher for good: until it has exited, it can take a
      step at once, or the thread holding the token lock can. */
  lemma NoDeadlockAfterClose(s: State)
    requires Reachable(s) && s.threads != [] && s.g.closed && s.g.spawned
    requires !s.threads[REFRESHER].pc.Exited?
    ensures exists t, e :: (t == REFRESHER || s.g.lock == Some(t)) && Step(s, Act(t, e)).Some?
  {
    ReachableInv(s);
    var r := s.threads[REFRESHER];
    assert ThreadOk(s.g, REFRESHER, r);
    if r.pc.AwaitLock? && s.g.lock.Some? {
      HolderCanStep(s);
    } else {
      hide Reachable, Inv, ThreadOk, ThreadStep;
      var e := RefresherCanStep(s.g, r);
      assert Step(s, Act(REFRESHER, e)).Some?;
    }
  }

  lemma RefresherCanStep(g: Shared, l: Thread) returns (e: Input)
    requires ThreadOk(g, REFRESHER, l) && g.closed && g.stop && g.spawned && !l.pc.Exited?
    requires l.pc.AwaitLock? ==> g.lock.None?
    ensures ThreadStep(g, REFRESHER, l, e).Does?
  {
    hide FieldsOk, JudgedOk, CallOk, ForceOk, CountOk, PaceOk, TimeoutOk, ShutdownOk, LockOk, SdkExpiry, SleepSeconds;
    e := match l.pc
         case Fetching => FetchFail(Transient) case Waiting => Signalled case Backoff => Signalled
         case Pace => Signalled case _ => Run;
  }

  lemma HolderCanStep(s: State)
    requires Inv(s) && s.g.lock.Some? && LockHeld(s)
    ensures exists t, e :: s.g.lock == Some(t) && Step(s, Act(t, e)).Some?
  {
    var t := s.g.lock.value;
    assert ThreadOk(s.g, t, s.threads[t]);
    var e := if s.threads[t].pc.Fetching? then FetchFail(Transient) else Run;
    assert Step(s, Act(t, e)).Some?;
  }

  /** Nor is a caller ever stuck, before or after close(): until its call has ended, it can take a step at
      once, or the thread holding the token lock can. */
  lemma CallersNeverStuck(s: State, t: Tid)
    requires Reachable(s) && t < |s.threads| && t != REFRESHER && !s.threads[t].pc.Idle?
    ensures exists u, e :: (u == t || (s.threads[t].pc.AwaitLock? && s.g.lock == Some(u))) && Step(s, Act(u, e)).Some?
  {
    ReachableInv(s);
    var l := s.threads[t];
    assert ThreadOk(s.g, t, l);
    if l.pc.AwaitLock? && s.g.lock.Some? {
      HolderCanStep(s);
    } else {
      hide Reachable, Inv, ThreadOk, ThreadStep;
      var e := CallerCanStep(s.g, t, l);
      assert Step(s, Act(t, e)).Some?;
    }
  }

  lemma CallerCanStep(g: Shared, t: Tid, l: Thread) returns (e: Input)
    requires ThreadOk(g, t, l) && t != REFRESHER && !l.pc.Idle? && (l.pc.AwaitLock? ==> g.lock.None?)
    ensures ThreadStep(g, t, l, e).Does?
  {
    assert RoleOk(t, l);
    hide ThreadOk, SdkExpiry, SleepStep;
    e := match l.pc case Fetching => FetchFail(Transient) case Sent => Response(false) case _ => Run;
  }
}
