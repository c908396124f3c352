/** The token service as a state machine: any number of caller threads, the 401 path, one starter
    and the background refresher (thread 0) share the cached token, a lock and two events. One step
    is one shared read or write, lock, event or network operation; every interleaving is a run. */
module TokenMachine {
  import opened Wrappers
  import opened TokenTiming

  type Tid = nat

  const REFRESHER: Tid := 0

  datatype Snapshot = NoPrevious | Previous(ref: Ref)

  datatype Op = Get | Force | Api | Start | Close | Refresh

  datatype Failure = Unauthorized | RateLimited | OtherClientError | Transient | NoneDereference

  datatype Outcome = Pending | Returned(ref: Ref) | Completed | Rejected | Raised(failure: Failure)

  /** What an API request was answered with: a 401, or anything else. */
  datatype Answer = NoAnswer | Accepted | Unauthorised

  datatype PC =
    | Idle
    // _is_cached_token_valid
    | CheckNone | ReadIssued | ReadExpires | Verdict
    // the snapshot taken before a fetch, then _fetch_and_store_token
    | TakeSnapshot | AwaitLock | Guard | Fetching
    // the rest of get_auth_token, and the API request made with its result
    | Recover | ReadFast | ReadFinal | Sent
    // force_refresh_token, close and start
    | SetWake | SetStop | Spawn
    // _background_refresh_loop
    | LoopTop | SleepNone | SleepIssued | SleepExpires | SleepSample | EnterWait | Waiting
    | ClearWake | StopCheck | EnterPace | Pace | Exited
    // _proactive_refresh_with_retry_until_expiry
    | InnerTop | EnterBackoff | Backoff

  datatype Thread = Thread(
    op: Op, pc: PC,
    forcing: bool,                 // inside force_refresh_token
    snap: Snapshot,                // previous_token_data
    issuedRef: Ref, issuedAt: int, // the object and field read for issued_at
    expiresRef: Ref, expiresAt: int,
    sampled: int,                  // the last get_current_time()
    judged: Ref,                   // history: what the last validity check began to look at
    failure: Failure, outcome: Outcome,
    startRef: Ref,                 // what was cached when the call began
    header: Ref,                   // the token put in the request header, 0 if none
    seen: Ref,                     // the last token handed to this thread
    fetches: nat, requests: nat,   // made by the current call
    answer: Answer,                // history: the answer to its request
    sleepRef: Ref, sleep: real, deadline: real, wokeEarly: bool,
    attempt: nat, innerStart: real)

  datatype Store = Store(writer: Tid, prev: Snapshot, over: Ref, stored: Ref)

  /** Shared memory. The fields from `stores` on are history: no step is decided by them. */
  datatype Memory = Memory(
    heap: seq<Token>, cached: Ref,
    lock: Option<Tid>, stop: bool, wake: bool,
    started: bool, spawned: bool,
    now: real,
    stores: seq<Store>,
    forced: Ref,       // what was cached when a force_refresh_token last returned
    closed: bool,      // some close() has set both events
    pings: seq<real>,  // when the refresher started each of its fetches
    late: nat)         // how many of those started after the stop event was set

  type Shared = g: Memory | g.cached <= |g.heap|
    witness Memory([], 0, None, false, false, false, false, 0.0, [], 0, false, [], 0)

  datatype State = State(g: Shared, threads: seq<Thread>)

  datatype Input =
    | Run
    | Begin(op: Op)
    | FetchOk(token: Token) | FetchFail(failure: Failure)
    | Response(unauthorized: bool)
    | Signalled | TimedOut
    | Unexpected

  /** The result of a step on the thread's own variables. */
  datatype Next = Blocked | To(thread: Thread)

  /** The result of a step: new shared memory and new thread variables. */
  datatype Effect = Disabled | Does(g: Shared, thread: Thread)

  datatype Action = Tick(elapsed: real) | Act(tid: Tid, input: Input)

  // ---------- Steps that write only the thread's own variables ----------

  function Issued(g: Shared): int requires g.cached > 0 { g.heap[g.cached - 1].issuedAt }

  function Expires(g: Shared): int requires g.cached > 0 { g.heap[g.cached - 1].expiresAt }

  /** An exception leaves the current call; in the refresher it reaches the loop's handler. */
  function Throw(l: Thread, failure: Failure): Thread {
    if l.op.Refresh? then l.(pc := EnterPace) else l.(pc := Idle, outcome := Raised(failure))
  }

  function BeginCall(g: Shared, l: Thread, op: Op): Thread {
    l.(op := op,
    pc := match op
          case Force => TakeSnapshot
          case Start => AwaitLock
          case Close => SetStop
          case _ => CheckNone,
    forcing := op.Force?, snap := NoPrevious, outcome := Pending,
    startRef := g.cached, header := 0, fetches := 0, requests := 0, answer := NoAnswer)
  }

  /** get_auth_token returns the token cached now; an API call goes on to send its request. */
  function ReturnToken(g: Shared, l: Thread): Thread {
    if g.cached == 0 then Throw(l, NoneDereference)
    else if l.op.Api? then l.(pc := Sent, header := g.cached, seen := g.cached, requests := l.requests + 1)
    else l.(pc := Idle, outcome := Returned(g.cached), header := g.cached, seen := g.cached)
  }

  function ValidityStep(g: Shared, l: Thread): (next: Thread)
    requires l.pc.CheckNone? || l.pc.ReadIssued? || l.pc.ReadExpires? || l.pc.Verdict?
  {
    match l.pc
    case CheckNone =>
      if g.cached == 0 then l.(pc := TakeSnapshot, judged := 0) else l.(pc := ReadIssued)
    case ReadIssued =>
      if g.cached == 0 then Throw(l, NoneDereference)
      else l.(pc := ReadExpires, judged := g.cached, issuedRef := g.cached, issuedAt := Issued(g))
    case ReadExpires =>
      if g.cached == 0 then Throw(l, NoneDereference)
      else l.(pc := Verdict, expiresRef := g.cached, expiresAt := Expires(g))
    case Verdict =>
      var valid := g.now.Floor < SdkExpiry(l.issuedAt, l.expiresAt);
      l.(sampled := g.now.Floor,
      pc := if !valid then TakeSnapshot else if l.op.Refresh? then LoopTop else ReadFast)
  }

  function CallStep(g: Shared, l: Thread, e: Input): Next {
    match l.pc
    case TakeSnapshot =>
      if !e.Run? then Blocked else
      To(l.(pc := AwaitLock, snap := Previous(g.cached),
           attempt := if l.op.Refresh? then l.attempt + 1 else l.attempt))
    case Recover =>
      if !e.Run? then Blocked
      else if g.cached > 0 then To(l.(pc := ReadFinal))
      else if l.op.Api? && l.failure.Unauthorized? then To(l.(pc := TakeSnapshot, forcing := true))
      else To(Throw(l, l.failure))
    case ReadFast => if e.Run? then To(ReturnToken(g, l)) else Blocked
    case ReadFinal => if e.Run? then To(ReturnToken(g, l)) else Blocked
    case Sent =>
      (match e
       case Response(true) => To(l.(pc := TakeSnapshot, forcing := true, answer := Unauthorised))
       case Response(false) => To(l.(pc := Idle, outcome := Completed, answer := Accepted))
       case _ => Blocked)
    case _ => Blocked
  }

  function SleepStep(g: Shared, l: Thread, e: Input): Next {
    match l.pc
    case LoopTop =>
      if e.Run? then To(l.(pc := if g.stop then Exited else SleepNone)) else Blocked
    case SleepNone =>
      if !e.Run? then Blocked
      else if g.cached == 0 then To(l.(pc := EnterWait, sleepRef := 0, sleep := 0.0))
      else To(l.(pc := SleepIssued, sleepRef := g.cached))
    case SleepIssued =>
      if !e.Run? then Blocked
      else if g.cached == 0 then To(Throw(l, NoneDereference))
      else To(l.(pc := SleepExpires, issuedRef := g.cached, issuedAt := Issued(g)))
    case SleepExpires =>
      if !e.Run? then Blocked
      else if g.cached == 0 then To(Throw(l, NoneDereference))
      else To(l.(pc := SleepSample, expiresRef := g.cached, expiresAt := Expires(g)))
    case SleepSample =>
      if !e.Run? then Blocked else
      To(l.(pc := EnterWait, sampled := g.now.Floor,
           sleep := SleepSeconds(l.issuedAt, l.expiresAt, g.now.Floor)))
    case EnterWait =>
      if e.Run? then To(l.(pc := Waiting, deadline := g.now + l.sleep)) else Blocked
    case Waiting =>
      if e.Signalled? && g.wake then To(l.(pc := ClearWake, wokeEarly := true))
      else if e.TimedOut? && g.now >= l.deadline then To(l.(pc := ClearWake, wokeEarly := false))
      else Blocked
    case StopCheck =>
      if !e.Run? then Blocked
      else if g.stop then To(l.(pc := Exited))
      else if l.wokeEarly then To(l.(pc := LoopTop))
      else To(l.(pc := InnerTop, attempt := 0, innerStart := g.now))
    case EnterPace =>
      if e.Run? then To(l.(pc := Pace, deadline := g.now + MIN_SLEEP)) else Blocked
    case Pace =>
      if (e.Signalled? && g.stop) || (e.TimedOut? && g.now >= l.deadline) then To(l.(pc := LoopTop))
      else Blocked
    case InnerTop =>
      if e.Run? then To(l.(pc := if g.stop then LoopTop else CheckNone)) else Blocked
    case EnterBackoff =>
      if !e.Run? || l.attempt == 0 then Blocked
      else To(l.(pc := Backoff, deadline := g.now + RetryDelay(l.attempt) as real))
    case Backoff =>
      if e.Signalled? && g.stop then To(l.(pc := LoopTop))
      else if e.TimedOut? && g.now >= l.deadline then To(l.(pc := InnerTop))
      else Blocked
    case _ => Blocked
  }

  /** Where the refresher's outer `except` can be entered from: everything inside its `try`, except
      that a failing fetch is caught closer by. */
  predicate InTry(pc: PC) {
    pc.SleepNone? || pc.SleepIssued? || pc.SleepExpires? || pc.SleepSample? || pc.EnterWait? || pc.Waiting?
    || pc.InnerTop? || pc.CheckNone? || pc.ReadIssued? || pc.ReadExpires? || pc.Verdict?
    || pc.TakeSnapshot? || pc.EnterBackoff?
  }

  function LocalStep(g: Shared, l: Thread, e: Input): Next {
    if e.Unexpected? then
      if l.op.Refresh? && InTry(l.pc) then To(l.(pc := EnterPace)) else Blocked
    else match l.pc
    case Idle =>
      if l.op.Refresh? then
        if e.Run? && g.spawned then To(l.(pc := LoopTop)) else Blocked
      else if e.Begin? && !e.op.Refresh? && !e.op.Start? then To(BeginCall(g, l, e.op))
      else Blocked
    case CheckNone => if e.Run? then To(ValidityStep(g, l)) else Blocked
    case ReadIssued => if e.Run? then To(ValidityStep(g, l)) else Blocked
    case ReadExpires => if e.Run? then To(ValidityStep(g, l)) else Blocked
    case Verdict => if e.Run? then To(ValidityStep(g, l)) else Blocked
    case _ => if l.op.Refresh? && !l.pc.TakeSnapshot? then SleepStep(g, l, e) else CallStep(g, l, e)
  }

  // ---------- Steps that write shared memory ----------

  /** What follows a normal return of _fetch_and_store_token, fetched or skipped. */
  function AfterFetch(l: Thread): Thread {
    l.(pc := match l.op
             case Refresh => LoopTop
             case Start => Spawn
             case _ => if l.forcing then SetWake else ReadFinal)
  }

  /** What follows an exception out of _fetch_and_store_token. At start-up only a client error other
      than "too many requests" propagates; everything else is left to the background thread. */
  function AfterFailure(l: Thread, failure: Failure): Thread {
    match l.op
    case Refresh => l.(pc := EnterBackoff)
    case Start =>
      if failure.Unauthorized? || failure.OtherClientError? then Throw(l, failure) else l.(pc := Spawn)
    case _ => if l.forcing then Throw(l, failure) else l.(pc := Recover, failure := failure)
  }

  /** The refresher's fetches are logged; the fetch itself writes nothing yet. */
  function StartFetch(g: Shared, op: Op): Shared {
    if op.Refresh? then g.(pings := g.pings + [g.now], late := if g.stop then g.late + 1 else g.late)
    else g
  }

  /** The response becomes a new object, replaces the cached one, and the lock is released. */
  function StoreToken(g: Shared, t: Tid, snap: Snapshot, token: Token): Shared {
    var newRef := |g.heap| + 1;
    g.(heap := g.heap + [token], cached := newRef, lock := None,
    stores := g.stores + [Store(t, snap, g.cached, newRef)])
  }

  function LockedStep(g: Shared, t: Tid, l: Thread, e: Input): Effect {
    match l.pc
    case AwaitLock =>
      if e.Run? && g.lock == None then Does(g.(lock := Some(t)), l.(pc := Guard)) else Disabled
    case Guard =>
      if !e.Run? then Disabled
      else if l.snap.Previous? && g.cached != l.snap.ref then Does(g.(lock := None), AfterFetch(l))
      else
        Does(StartFetch(g, l.op), l.(pc := Fetching, fetches := l.fetches + 1))
    case Fetching =>
      (match e
       case FetchOk(token) =>
         Does(StoreToken(g, t, l.snap, token), AfterFetch(l))
       case FetchFail(failure) =>
         if failure.NoneDereference? then Disabled else Does(g.(lock := None), AfterFailure(l, failure))
       case _ => Disabled)
    case _ => Disabled
  }

  function FlagStep(g: Shared, l: Thread, e: Input): Effect {
    match l.pc
    case Idle =>
      if e == Begin(Start) && !l.op.Refresh? && !g.started
      then Does(g.(started := true), BeginCall(g, l, Start))
      else Disabled
    case Spawn =>
      if e.Run? then Does(g.(spawned := true), l.(pc := Idle, outcome := Completed)) else Disabled
    case SetStop =>
      if e.Run? then Does(g.(stop := true), l.(pc := SetWake)) else Disabled
    case SetWake =>
      if !e.Run? then Disabled
      else if l.op.Close? then Does(g.(wake := true, closed := true), l.(pc := Idle, outcome := Completed))
      else Does(g.(wake := true, forced := g.cached),
                 l.(pc := Idle, outcome := if l.op.Api? then Rejected else Completed))
    case ClearWake =>
      if e.Run? then Does(g.(wake := false), l.(pc := StopCheck)) else Disabled
    case _ => Disabled
  }

  predicate WritesShared(pc: PC, e: Input) {
    pc.AwaitLock? || pc.Guard? || pc.Fetching? || pc.Spawn? || pc.SetStop? || pc.SetWake? || pc.ClearWake?
    || (pc.Idle? && e == Begin(Start))
  }

  function ThreadStep(g: Shared, t: Tid, l: Thread, e: Input): Effect {
    if !WritesShared(l.pc, e) then
      match LocalStep(g, l, e)
      case To(l') => Does(g, l')
      case Blocked => Disabled
    else if l.pc.AwaitLock? || l.pc.Guard? || l.pc.Fetching? then LockedStep(g, t, l, e)
    else FlagStep(g, l, e)
  }

  function Step(s: State, action: Action): Option<State> {
    match action
    case Tick(d) =>
      if d >= 0.0 then Some(s.(g := s.g.(now := s.g.now + d))) else None
    case Act(t, e) =>
      if t >= |s.threads| then None else
      match ThreadStep(s.g, t, s.threads[t], e)
      case Does(g', l') => Some(State(g', s.threads[t := l']))
      case Disabled => None
  }

  function Exec(s: State, actions: seq<Action>): Option<State>
    decreases |actions|
  {
    if actions == [] then Some(s) else
    match Step(s, actions[0])
    case Some(s') => Exec(s', actions[1..])
    case None => None
  }

  function NewThread(op: Op): Thread {
    Thread(op, Idle, false, NoPrevious, 0, 0, 0, 0, 0, 0, Transient, Pending, 0, 0, 0, 0, 0, NoAnswer, 0, 0.0, 0.0, false, 0, 0.0)
  }

  /** A freshly constructed service, with the refresher not yet running and `callers` other threads. */
  function InitState(callers: nat, now: real): State {
    State(Memory([], 0, None, false, false, false, false, now, [], 0, false, [], 0),
          [NewThread(Refresh)] + seq(callers, _ => NewThread(Get)))
  }

  ghost predicate Reachable(s: State) {
    exists callers: nat, now: real, actions :: Exec(InitState(callers, now), actions) == Some(s)
  }
}
