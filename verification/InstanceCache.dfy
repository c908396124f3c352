/** The per-key singleton cache behind get_instance(): a lock-free look-up, lazily created per-key
    locks, a second look-up under the key's lock, and close() evicting itself, run by any number of
    threads at the granularity of single dictionary and lock operations. */
module InstanceCache {
  import opened Wrappers

  type Tid = nat
  type Key = nat       // the cache key, taken as an abstract value
  type LockId = nat
  type Instance = nat  // an index into the instances created so far

  datatype Outcome = Pending | Returned(inst: Instance) | Failed | Closed

  datatype PC =
    | Idle
    | FastRead
    // _get_key_lock
    | AwaitRegistry | FindLock | MakeLock | LeaveRegistry
    | AwaitKeyLock
    // under the key's lock, get_instance()
    | SecondRead | Building | Registering | Announcing
    // under the key's lock, close()
    | Compare | Delete
    | Unlock | Release

  /** The last four are history: the length of the log when the call began, where in it the call took
      effect, and whether its construction and its announcement, if any, succeeded. */
  datatype Thread = Thread(
    pc: PC, closing: bool, key: Key, inst: Instance, lockRef: LockId, outcome: Outcome,
    start: nat, event: Option<nat>, built: Option<bool>, announced: Option<bool>)

  datatype Client = Client(key: Option<Key>, releasing: bool)

  /** The atomic operations the cache is meant to offer, as they take effect. */
  datatype Event =
    | Hit(tid: Tid, key: Key, inst: Instance)
    | Created(tid: Tid, key: Key, inst: Instance)
    | BuildFailed(tid: Tid, key: Key)
    | Evicted(tid: Tid, key: Key, inst: Instance)
    | Kept(tid: Tid, key: Key, inst: Instance)

  datatype Shared = Shared(
    cache: map<Key, Instance>,
    registry: Option<Tid>,            // holder of _instance_lock
    keyLocks: map<Key, LockId>,
    owners: seq<Option<Tid>>,         // holder of each key lock ever created
    clients: seq<Client>,
    log: seq<Event>)                  // history

  datatype State = State(g: Shared, threads: seq<Thread>)

  datatype Input = Run | Get(key: Key) | Close(inst: Instance) | Construct | Succeed | Fail

  datatype Action = Act(tid: Tid, input: Input)

  datatype Effect = Disabled | Does(g: Shared, thread: Thread)

  // ---------- The atomic specification ----------

  /** get-or-create and evict-if-same on a plain map; None where the operation is not legal. */
  function Apply(m: map<Key, Instance>, e: Event): Option<map<Key, Instance>> {
    match e
    case Hit(_, k, i) => if k in m && m[k] == i then Some(m) else None
    case Created(_, k, i) => if k in m then None else Some(m[k := i])
    case BuildFailed(_, k) => if k in m then None else Some(m)
    case Evicted(_, k, i) => if k in m && m[k] == i then Some(m - {k}) else None
    case Kept(_, k, i) => if k in m && m[k] == i then None else Some(m)
  }

  function Replay(log: seq<Event>): Option<map<Key, Instance>> {
    if log == [] then Some(map[]) else
    match Replay(log[..|log| - 1])
    case Some(m) => Apply(m, log[|log| - 1])
    case None => None
  }

  // ---------- The steps ----------

  function Log(g: Shared, e: Event): Shared {
    g.(log := g.log + [e])
  }

  function Begin(g: Shared, l: Thread, input: Input): Effect {
    var caller := l.(outcome := Pending, start := |g.log|, event := None, built := None, announced := None);
    match input
    case Get(key) => Does(g, caller.(pc := FastRead, closing := false, key := key))
    case Close(inst) =>
      if inst >= |g.clients| then Disabled
      else
        var closer := caller.(closing := true, inst := inst);
        (match g.clients[inst].key
         case None => Does(g, closer.(pc := Release))
         case Some(key) => Does(g, closer.(pc := AwaitRegistry, key := key)))
    case Construct => Does(g.(clients := g.clients + [Client(None, false)]), l)
    case _ => Disabled
  }

  function LockStep(g: Shared, t: Tid, l: Thread): Effect {
    match l.pc
    case AwaitRegistry =>
      if g.registry == None then Does(g.(registry := Some(t)), l.(pc := FindLock)) else Disabled
    case FindLock =>
      if l.key in g.keyLocks then Does(g, l.(pc := LeaveRegistry, lockRef := g.keyLocks[l.key]))
      else Does(g, l.(pc := MakeLock))
    case MakeLock =>
      Does(g.(owners := g.owners + [None], keyLocks := g.keyLocks[l.key := |g.owners|]),
           l.(pc := LeaveRegistry, lockRef := |g.owners|))
    case LeaveRegistry => Does(g.(registry := None), l.(pc := AwaitKeyLock))
    case AwaitKeyLock =>
      if l.lockRef < |g.owners| && g.owners[l.lockRef] == None
      then Does(g.(owners := g.owners[l.lockRef := Some(t)]), l.(pc := if l.closing then Compare else SecondRead))
      else Disabled
    case Unlock =>
      if l.lockRef < |g.owners|
      then Does(g.(owners := g.owners[l.lockRef := None]), l.(pc := if l.closing then Release else Idle))
      else Disabled
    case _ => Disabled
  }

  function GetStep(g: Shared, t: Tid, l: Thread, input: Input): Effect {
    var now := Some(|g.log|);
    match l.pc
    case FastRead =>
      if l.key in g.cache
      then Does(Log(g, Hit(t, l.key, g.cache[l.key])), l.(pc := Idle, outcome := Returned(g.cache[l.key]), event := now))
      else Does(g, l.(pc := AwaitRegistry))
    case SecondRead =>
      if l.key in g.cache
      then Does(Log(g, Hit(t, l.key, g.cache[l.key])), l.(pc := Unlock, outcome := Returned(g.cache[l.key]), event := now))
      else Does(g, l.(pc := Building))
    case Building =>
      (match input
       case Succeed => Does(g, l.(pc := Registering, built := Some(true)))
       case Fail => Does(Log(g, BuildFailed(t, l.key)), l.(pc := Unlock, outcome := Failed, event := now, built := Some(false)))
       case _ => Disabled)
    case Registering =>
      var inst := |g.clients|;
      Does(Log(g, Created(t, l.key, inst)).(clients := g.clients + [Client(Some(l.key), false)],
                                            cache := g.cache[l.key := inst]),
           l.(pc := Announcing, inst := inst, event := now))
    case Announcing =>
      if input.Fail? then Does(g, l.(pc := Unlock, outcome := Failed, announced := Some(false)))
      else Does(g, l.(pc := Unlock, outcome := Returned(l.inst), announced := Some(true)))
    case _ => Disabled
  }

  function CloseStep(g: Shared, t: Tid, l: Thread): Effect {
    var now := Some(|g.log|);
    match l.pc
    case Compare =>
      if l.key in g.cache && g.cache[l.key] == l.inst then Does(g, l.(pc := Delete))
      else Does(Log(g, Kept(t, l.key, l.inst)), l.(pc := Unlock, event := now))
    case Delete =>
      Does(Log(g, Evicted(t, l.key, l.inst)).(cache := g.cache - {l.key}), l.(pc := Unlock, event := now))
    case Release =>
      if l.inst < |g.clients|
      then Does(g.(clients := g.clients[l.inst := g.clients[l.inst].(releasing := true)]), l.(pc := Idle, outcome := Closed))
      else Disabled
    case _ => Disabled
  }

  predicate Locking(pc: PC) {
    pc.AwaitRegistry? || pc.FindLock? || pc.MakeLock? || pc.LeaveRegistry? || pc.AwaitKeyLock? || pc.Unlock?
  }

  function ThreadStep(g: Shared, t: Tid, l: Thread, input: Input): Effect {
    if l.pc.Idle? then Begin(g, l, input)
    else if Locking(l.pc) then LockStep(g, t, l)
    else if l.pc.Compare? || l.pc.Delete? || l.pc.Release? then CloseStep(g, t, l)
    else GetStep(g, t, l, input)
  }

  function Step(s: State, action: Action): Option<State> {
    if action.tid >= |s.threads| then None else
    match ThreadStep(s.g, action.tid, s.threads[action.tid], action.input)
    case Does(g', l') => Some(State(g', s.threads[action.tid := l']))
    case Disabled => None
  }

  function Exec(s: State, actions: seq<Action>): Option<State>
    decreases |actions|
  {
    if actions == [] then Some(s) else
    match Step(s, actions[0])
    case Some(s') => Exec(s', actions[1..])
    case None => None
  }

  function InitState(threads: nat): State {
    State(Shared(map[], None, map[], [], [], []),
          seq(threads, _ => Thread(Idle, false, 0, 0, 0, Pending, 0, None, None, None)))
  }

  ghost predicate Reachable(s: State) {
    exists threads: nat, actions :: Exec(InitState(threads), actions) == Some(s)
  }

  // ---------- The invariant ----------

  ghost predicate LocksOk(g: Shared) {
    && (forall k :: k in g.keyLocks ==> g.keyLocks[k] < |g.owners|)
    && (forall j, k :: j in g.keyLocks && k in g.keyLocks && g.keyLocks[j] == g.keyLocks[k] ==> j == k)
  }

  ghost predicate CacheOk(g: Shared) {
    forall k :: k in g.cache ==>
                  && g.cache[k] < |g.clients|
                  && g.clients[g.cache[k]].key == Some(k) && !g.clients[g.cache[k]].releasing
  }

  ghost predicate SharedOk(g: Shared) {
    LocksOk(g) && CacheOk(g) && Replay(g.log) == Some(g.cache)
  }

  predicate InRegistry(pc: PC) {
    pc.FindLock? || pc.MakeLock? || pc.LeaveRegistry?
  }

  predicate Holding(pc: PC) {
    pc.SecondRead? || pc.Building? || pc.Registering? || pc.Announcing? || pc.Compare? || pc.Delete? || pc.Unlock?
  }

  ghost predicate LockingOk(g: Shared, t: Tid, l: Thread) {
    && (g.registry == Some(t) <==> InRegistry(l.pc))
    && (l.pc.MakeLock? ==> l.key !in g.keyLocks)
    && (l.pc.LeaveRegistry? || l.pc.AwaitKeyLock? || Holding(l.pc) ==>
          l.key in g.keyLocks && g.keyLocks[l.key] == l.lockRef)
    && (forall m :: 0 <= m < |g.owners| ==> (g.owners[m] == Some(t) <==> Holding(l.pc) && m == l.lockRef))
  }

  ghost predicate Cached(g: Shared, inst: Instance) {
    exists k :: k in g.cache && g.cache[k] == inst
  }

  ghost predicate CallOk(g: Shared, l: Thread) {
    && (l.pc.Building? || l.pc.Registering? ==> l.key !in g.cache)
    && (l.pc.FastRead? || l.pc.SecondRead? || l.pc.Building? || l.pc.Registering? || l.pc.Announcing? ==> !l.closing)
    && (l.pc.Compare? || l.pc.Delete? || l.pc.Release? ==> l.closing)
    && (!l.pc.Idle? && l.closing ==> l.inst < |g.clients|)
    && (!l.pc.Idle? && !l.pc.Release? && l.closing ==> g.clients[l.inst].key == Some(l.key))
    && (l.pc.Delete? ==> l.key in g.cache && g.cache[l.key] == l.inst)
    && (l.closing && (l.pc.Release? || l.pc.Unlock?) ==> !Cached(g, l.inst))
    && (l.closing && l.event == None && (l.pc.Release? || (l.pc.Idle? && l.outcome.Closed?)) ==>
          l.inst < |g.clients| && g.clients[l.inst].key == None)
  }

  predicate BeforeEffect(pc: PC) {
    pc.FastRead? || (Locking(pc) && !pc.Unlock?) || pc.SecondRead? || pc.Building? || pc.Registering?
    || pc.Compare? || pc.Delete?
  }

  /** A call takes effect exactly once between its start and its end, with the result it returns. */
  ghost predicate EffectOk(g: Shared, t: Tid, l: Thread) {
    && l.start <= |g.log|
    && (forall n :: l.start <= n < |g.log| ==> (g.log[n].tid == t <==> l.event == Some(n)))
    && (l.event.Some? ==> l.start <= l.event.value < |g.log|)
    && (BeforeEffect(l.pc) ==> l.event == None && l.outcome.Pending?)
    && (l.pc.Announcing? ==> l.event.Some? && g.log[l.event.value] == Created(t, l.key, l.inst) && l.outcome.Pending?)
    && (l.pc.Unlock? || (l.pc.Idle? && !l.closing && !l.outcome.Pending?) ==> l.event.Some?)
    && (l.pc.Unlock? || l.pc.Idle? ==>
          match l.outcome
          case Returned(i) => !l.closing && l.event.Some? && g.log[l.event.value] in {Hit(t, l.key, i), Created(t, l.key, i)}
          case Failed => !l.closing && l.event.Some?
                         && g.log[l.event.value] in {BuildFailed(t, l.key), Created(t, l.key, l.inst)}
          case Closed => l.closing
          case Pending => l.pc.Unlock? ==> l.closing)
    && (l.closing && l.event.Some? ==>
          g.log[l.event.value] in {Evicted(t, l.key, l.inst), Kept(t, l.key, l.inst)})
  }

  /** The event a call to get_instance() took effect as, by what became of its construction. */
  predicate EventFits(built: Option<bool>, e: Event) {
    match built
    case None => e.Hit?
    case Some(true) => e.Created?
    case Some(false) => e.BuildFailed?
  }

  /** A call has the effect and the outcome that its construction and its announcement lead to. */
  ghost predicate BuiltOk(g: Shared, l: Thread) {
    && (BeforeEffect(l.pc) ==> l.built == (if l.pc.Registering? then Some(true) else None) && l.announced == None)
    && (l.pc.Announcing? ==> l.built == Some(true) && l.announced == None)
    && (!BeforeEffect(l.pc) && !l.closing && l.event.Some? && l.event.value < |g.log| ==>
          EventFits(l.built, g.log[l.event.value]))
    && ((l.pc.Unlock? || l.pc.Idle?) && !l.closing && !l.outcome.Pending? ==>
          (l.outcome.Failed? <==> l.built == Some(false) || l.announced == Some(false)))
  }

  ghost predicate ThreadOk(g: Shared, t: Tid, l: Thread) {
    LockingOk(g, t, l) && CallOk(g, l) && EffectOk(g, t, l) && BuiltOk(g, l)
  }

  ghost predicate Inv(s: State) {
    SharedOk(s.g) && forall t :: 0 <= t < |s.threads| ==> ThreadOk(s.g, t, s.threads[t])
  }

  /** What thread `u` may rely on when another thread moves. */
  ghost predicate Rely(g: Shared, g': Shared, u: Tid) {
    && (g.registry == Some(u) <==> g'.registry == Some(u))
    && |g.owners| <= |g'.owners|
    && (forall m :: 0 <= m < |g'.owners| ==>
                      (g'.owners[m] == Some(u) <==> m < |g.owners| && g.owners[m] == Some(u)))
    && (forall k :: k in g.keyLocks ==> k in g'.keyLocks && g'.keyLocks[k] == g.keyLocks[k])
    && (g.registry == Some(u) ==> g.keyLocks == g'.keyLocks)
    && (forall k :: k in g.keyLocks && g.keyLocks[k] < |g.owners| && g.owners[g.keyLocks[k]] == Some(u) ==>
                      (k in g.cache <==> k in g'.cache) && (k in g.cache ==> g.cache[k] == g'.cache[k]))
    && |g.clients| <= |g'.clients|
    && (forall i :: 0 <= i < |g.clients| ==> g'.clients[i].key == g.clients[i].key)
    && (forall k :: k in g'.cache && g'.cache[k] < |g.clients| ==> k in g.cache && g.cache[k] == g'.cache[k])
    && g.log <= g'.log
    && (forall n :: |g.log| <= n < |g'.log| ==> g'.log[n].tid != u)
  }

  lemma Stable(g: Shared, g': Shared, u: Tid, l: Thread)
    requires SharedOk(g) && ThreadOk(g, u, l) && Rely(g, g', u)
    ensures ThreadOk(g', u, l)
  {
  }

  lemma ReplaySnoc(log: seq<Event>, e: Event)
    ensures Replay(log + [e]) == match Replay(log) case Some(m) => Apply(m, e) case None => None
  {
    assert (log + [e])[..|log|] == log;
  }

  /** Appending a legal event that leaves the map alone. */
  lemma LogShared(g: Shared, e: Event)
    requires SharedOk(g) && Apply(g.cache, e) == Some(g.cache)
    ensures SharedOk(Log(g, e))
  {
    ReplaySnoc(g.log, e);
    hide Replay, Apply;
  }

  lemma LogRely(g: Shared, e: Event)
    ensures forall u: Tid :: u != e.tid ==> Rely(g, Log(g, e), u)
  {
  }

  lemma BeginOk(g: Shared, t: Tid, l: Thread, input: Input, g': Shared, l': Thread)
    requires SharedOk(g) && ThreadOk(g, t, l) && ThreadStep(g, t, l, input) == Does(g', l')
    requires l.pc.Idle? && !input.Construct?
    ensures g' == g && ThreadOk(g', t, l')
  {
    hide LocksOk, Replay;
  }

  lemma ConstructShared(g: Shared, t: Tid, l: Thread, input: Input, g': Shared, l': Thread)
    requires SharedOk(g) && ThreadOk(g, t, l) && ThreadStep(g, t, l, input) == Does(g', l')
    requires l.pc.Idle? && input.Construct?
    ensures SharedOk(g')
    ensures forall u: Tid :: u != t ==> Rely(g, g', u)
  {
    hide ThreadOk, Replay;
  }

  lemma ConstructThread(g: Shared, t: Tid, l: Thread, input: Input, g': Shared, l': Thread)
    requires SharedOk(g) && ThreadOk(g, t, l) && ThreadStep(g, t, l, input) == Does(g', l')
    requires l.pc.Idle? && input.Construct?
    ensures ThreadOk(g', t, l')
  {
    hide SharedOk, Replay;
  }

  lemma EnterShared(g: Shared, t: Tid, l: Thread, input: Input, g': Shared, l': Thread)
    requires SharedOk(g) && ThreadOk(g, t, l) && ThreadStep(g, t, l, input) == Does(g', l')
    requires l.pc.AwaitRegistry?
    ensures SharedOk(g')
  {
    hide CallOk, EffectOk, BuiltOk, Replay;
  }

  lemma EnterRely(g: Shared, t: Tid, l: Thread, input: Input, g': Shared, l': Thread)
    requires SharedOk(g) && ThreadOk(g, t, l) && ThreadStep(g, t, l, input) == Does(g', l')
    requires l.pc.AwaitRegistry?
    ensures forall u: Tid :: u != t ==> Rely(g, g', u)
  {
    hide CallOk, EffectOk, BuiltOk, Replay, CacheOk;
  }

  lemma EnterThread(g: Shared, t: Tid, l: Thread, input: Input, g': Shared, l': Thread)
    requires SharedOk(g) && ThreadOk(g, t, l) && ThreadStep(g, t, l, input) == Does(g', l')
    requires l.pc.AwaitRegistry?
    ensures ThreadOk(g', t, l')
  {
    hide Replay, CacheOk;
  }

  lemma LeaveShared(g: Shared, t: Tid, l: Thread, input: Input, g': Shared, l': Thread)
    requires SharedOk(g) && ThreadOk(g, t, l) && ThreadStep(g, t, l, input) == Does(g', l')
    requires l.pc.LeaveRegistry?
    ensures SharedOk(g')
  {
    hide CallOk, EffectOk, BuiltOk, Replay;
  }

  lemma LeaveRely(g: Shared, t: Tid, l: Thread, input: Input, g': Shared, l': Thread)
    requires SharedOk(g) && ThreadOk(g, t, l) && ThreadStep(g, t, l, input) == Does(g', l')
    requires l.pc.LeaveRegistry?
    ensures forall u: Tid :: u != t ==> Rely(g, g', u)
  {
    hide CallOk, EffectOk, BuiltOk, Replay, CacheOk;
  }

  lemma LeaveThread(g: Shared, t: Tid, l: Thread, input: Input, g': Shared, l': Thread)
    requires SharedOk(g) && ThreadOk(g, t, l) && ThreadStep(g, t, l, input) == Does(g', l')
    requires l.pc.LeaveRegistry?
    ensures ThreadOk(g', t, l')
  {
    hide Replay, CacheOk;
  }

  lemma MakeLockShared(g: Shared, t: Tid, l: Thread, input: Input, g': Shared, l': Thread)
    requires SharedOk(g) && ThreadOk(g, t, l) && ThreadStep(g, t, l, input) == Does(g', l')
    requires l.pc.MakeLock?
    ensures SharedOk(g')
  {
    hide CallOk, EffectOk, BuiltOk, Replay;
  }

  lemma MakeLockRely(g: Shared, t: Tid, l: Thread, input: Input, g': Shared, l': Thread)
    requires SharedOk(g) && ThreadOk(g, t, l) && ThreadStep(g, t, l, input) == Does(g', l')
    requires l.pc.MakeLock?
    ensures forall u: Tid :: u != t ==> Rely(g, g', u)
  {
    hide CallOk, EffectOk, BuiltOk, Replay, CacheOk;
  }

  lemma MakeLockThread(g: Shared, t: Tid, l: Thread, input: Input, g': Shared, l': Thread)
    requires SharedOk(g) && ThreadOk(g, t, l) && ThreadStep(g, t, l, input) == Does(g', l')
    requires l.pc.MakeLock?
    ensures ThreadOk(g', t, l')
  {
    hide Replay, CacheOk;
  }

  lemma FindLockOk(g: Shared, t: Tid, l: Thread, input: Input, g': Shared, l': Thread)
    requires SharedOk(g) && ThreadOk(g, t, l) && ThreadStep(g, t, l, input) == Does(g', l')
    requires l.pc.FindLock?
    ensures g' == g && ThreadOk(g', t, l')
  {
    hide Replay, CacheOk;
  }

  lemma KeyLockShared(g: Shared, t: Tid, l: Thread, input: Input, g': Shared, l': Thread)
    requires SharedOk(g) && ThreadOk(g, t, l) && ThreadStep(g, t, l, input) == Does(g', l')
    requires l.pc.AwaitKeyLock? || l.pc.Unlock?
    ensures SharedOk(g')
  {
    hide CallOk, EffectOk, BuiltOk, Replay;
  }

  lemma KeyLockRely(g: Shared, t: Tid, l: Thread, input: Input, g': Shared, l': Thread)
    requires SharedOk(g) && ThreadOk(g, t, l) && ThreadStep(g, t, l, input) == Does(g', l')
    requires l.pc.AwaitKeyLock? || l.pc.Unlock?
    ensures forall u: Tid :: u != t ==> Rely(g, g', u)
  {
    hide CallOk, EffectOk, BuiltOk, Replay, CacheOk;
  }

  lemma KeyLockThread(g: Shared, t: Tid, l: Thread, input: Input, g': Shared, l': Thread)
    requires SharedOk(g) && ThreadOk(g, t, l) && ThreadStep(g, t, l, input) == Does(g', l')
    requires l.pc.AwaitKeyLock? || l.pc.Unlock?
    ensures ThreadOk(g', t, l')
  {
    hide Replay, CacheOk;
  }

  lemma MissOk(g: Shared, t: Tid, l: Thread, input: Input, g': Shared, l': Thread)
    requires SharedOk(g) && ThreadOk(g, t, l) && ThreadStep(g, t, l, input) == Does(g', l')
    requires (l.pc.FastRead? || l.pc.SecondRead?) && l.key !in g.cache
    ensures g' == g && ThreadOk(g', t, l')
  {
    hide SharedOk, Replay;
  }

  lemma HitShared(g: Shared, t: Tid, l: Thread, input: Input, g': Shared, l': Thread)
    requires SharedOk(g) && ThreadOk(g, t, l) && ThreadStep(g, t, l, input) == Does(g', l')
    requires (l.pc.FastRead? || l.pc.SecondRead?) && l.key in g.cache
    ensures SharedOk(g')
    ensures forall u: Tid :: u != t ==> Rely(g, g', u)
  {
    var e := Hit(t, l.key, g.cache[l.key]);
    LogShared(g, e);
    LogRely(g, e);
    hide SharedOk, ThreadOk, Rely;
  }

  lemma HitThread(g: Shared, t: Tid, l: Thread, input: Input, g': Shared, l': Thread)
    requires SharedOk(g) && ThreadOk(g, t, l) && ThreadStep(g, t, l, input) == Does(g', l')
    requires (l.pc.FastRead? || l.pc.SecondRead?) && l.key in g.cache
    ensures ThreadOk(g', t, l')
  {
    hide SharedOk, Replay;
  }

  lemma BuildOk(g: Shared, t: Tid, l: Thread, input: Input, g': Shared, l': Thread)
    requires SharedOk(g) && ThreadOk(g, t, l) && ThreadStep(g, t, l, input) == Does(g', l')
    requires l.pc.Building? && g' == g
    ensures g' == g && ThreadOk(g', t, l')
  {
    hide SharedOk, Replay;
  }

  lemma BuildFailedShared(g: Shared, t: Tid, l: Thread, input: Input, g': Shared, l': Thread)
    requires SharedOk(g) && ThreadOk(g, t, l) && ThreadStep(g, t, l, input) == Does(g', l')
    requires l.pc.Building? && g' != g
    ensures SharedOk(g')
    ensures forall u: Tid :: u != t ==> Rely(g, g', u)
  {
    var e := BuildFailed(t, l.key);
    LogShared(g, e);
    LogRely(g, e);
    hide SharedOk, ThreadOk, Rely;
  }

  lemma BuildFailedThread(g: Shared, t: Tid, l: Thread, input: Input, g': Shared, l': Thread)
    requires SharedOk(g) && ThreadOk(g, t, l) && ThreadStep(g, t, l, input) == Does(g', l')
    requires l.pc.Building? && g' != g
    ensures ThreadOk(g', t, l')
  {
    hide SharedOk, Replay;
  }

  lemma RegisterShared(g: Shared, t: Tid, l: Thread, input: Input, g': Shared, l': Thread)
    requires SharedOk(g) && ThreadOk(g, t, l) && ThreadStep(g, t, l, input) == Does(g', l')
    requires l.pc.Registering?
    ensures SharedOk(g')
  {
    ReplaySnoc(g.log, Created(t, l.key, |g.clients|));
    hide Replay, LockingOk, EffectOk, BuiltOk;
  }

  lemma RegisterRely(g: Shared, t: Tid, l: Thread, input: Input, g': Shared, l': Thread)
    requires SharedOk(g) && ThreadOk(g, t, l) && ThreadStep(g, t, l, input) == Does(g', l')
    requires l.pc.Registering?
    ensures forall u: Tid :: u != t ==> Rely(g, g', u)
  {
    hide Replay, CallOk, EffectOk, BuiltOk;
  }

  lemma RegisterThread(g: Shared, t: Tid, l: Thread, input: Input, g': Shared, l': Thread)
    requires SharedOk(g) && ThreadOk(g, t, l) && ThreadStep(g, t, l, input) == Does(g', l')
    requires l.pc.Registering?
    ensures ThreadOk(g', t, l')
  {
    hide Replay;
  }

  lemma AnnounceOk(g: Shared, t: Tid, l: Thread, input: Input, g': Shared, l': Thread)
    requires SharedOk(g) && ThreadOk(g, t, l) && ThreadStep(g, t, l, input) == Does(g', l')
    requires l.pc.Announcing?
    ensures g' == g && ThreadOk(g', t, l')
  {
    hide SharedOk, Replay;
  }

  lemma CompareOk(g: Shared, t: Tid, l: Thread, input: Input, g': Shared, l': Thread)
    requires SharedOk(g) && ThreadOk(g, t, l) && ThreadStep(g, t, l, input) == Does(g', l')
    requires l.pc.Compare? && g' == g
    ensures g' == g && ThreadOk(g', t, l')
  {
    hide SharedOk, Replay;
  }

  lemma KeptShared(g: Shared, t: Tid, l: Thread, input: Input, g': Shared, l': Thread)
    requires SharedOk(g) && ThreadOk(g, t, l) && ThreadStep(g, t, l, input) == Does(g', l')
    requires l.pc.Compare? && g' != g
    ensures SharedOk(g')
    ensures forall u: Tid :: u != t ==> Rely(g, g', u)
  {
    var e := Kept(t, l.key, l.inst);
    LogShared(g, e);
    LogRely(g, e);
    hide SharedOk, ThreadOk, Rely;
  }

  lemma KeptThread(g: Shared, t: Tid, l: Thread, input: Input, g': Shared, l': Thread)
    requires SharedOk(g) && ThreadOk(g, t, l) && ThreadStep(g, t, l, input) == Does(g', l')
    requires l.pc.Compare? && g' != g
    ensures ThreadOk(g', t, l')
  {
    hide Replay;
  }

  lemma DeleteShared(g: Shared, t: Tid, l: Thread, input: Input, g': Shared, l': Thread)
    requires SharedOk(g) && ThreadOk(g, t, l) && ThreadStep(g, t, l, input) == Does(g', l')
    requires l.pc.Delete?
    ensures SharedOk(g')
  {
    ReplaySnoc(g.log, Evicted(t, l.key, l.inst));
    hide Replay, LockingOk, EffectOk, BuiltOk;
  }

  lemma DeleteRely(g: Shared, t: Tid, l: Thread, input: Input, g': Shared, l': Thread)
    requires SharedOk(g) && ThreadOk(g, t, l) && ThreadStep(g, t, l, input) == Does(g', l')
    requires l.pc.Delete?
    ensures forall u: Tid :: u != t ==> Rely(g, g', u)
  {
    hide Replay, CallOk, EffectOk, BuiltOk;
  }

  lemma DeleteThread(g: Shared, t: Tid, l: Thread, input: Input, g': Shared, l': Thread)
    requires SharedOk(g) && ThreadOk(g, t, l) && ThreadStep(g, t, l, input) == Does(g', l')
    requires l.pc.Delete?
    ensures ThreadOk(g', t, l')
  {
    hide Replay;
  }

  lemma ReleaseShared(g: Shared, t: Tid, l: Thread, input: Input, g': Shared, l': Thread)
    requires SharedOk(g) && ThreadOk(g, t, l) && ThreadStep(g, t, l, input) == Does(g', l')
    requires l.pc.Release?
    ensures SharedOk(g')
    ensures forall u: Tid :: u != t ==> Rely(g, g', u)
  {
    hide Replay, LockingOk, EffectOk, BuiltOk;
  }

  lemma ReleaseThread(g: Shared, t: Tid, l: Thread, input: Input, g': Shared, l': Thread)
    requires SharedOk(g) && ThreadOk(g, t, l) && ThreadStep(g, t, l, input) == Does(g', l')
    requires l.pc.Release?
    ensures ThreadOk(g', t, l')
  {
    hide Replay;
  }

  lemma RelyReflexive(g: Shared)
    ensures forall u: Tid :: Rely(g, g, u)
  {
  }

  lemma OwnStep(g: Shared, t: Tid, l: Thread, input: Input, g': Shared, l': Thread)
    requires SharedOk(g) && ThreadOk(g, t, l) && ThreadStep(g, t, l, input) == Does(g', l')
    ensures SharedOk(g') && ThreadOk(g', t, l')
    ensures forall u: Tid :: u != t ==> Rely(g, g', u)
  {
    if g' == g {
      RelyReflexive(g);
    }
    hide SharedOk, ThreadOk, ThreadStep, Rely;
    match l.pc
    case Idle =>
      if input.Construct? {
        ConstructShared(g, t, l, input, g', l');
        ConstructThread(g, t, l, input, g', l');
      } else {
        BeginOk(g, t, l, input, g', l');
      }
    case AwaitRegistry =>
      EnterShared(g, t, l, input, g', l');
      EnterRely(g, t, l, input, g', l');
      EnterThread(g, t, l, input, g', l');
    case LeaveRegistry =>
      LeaveShared(g, t, l, input, g', l');
      LeaveRely(g, t, l, input, g', l');
      LeaveThread(g, t, l, input, g', l');
    case FindLock =>
      FindLockOk(g, t, l, input, g', l');
    case MakeLock =>
      MakeLockShared(g, t, l, input, g', l');
      MakeLockRely(g, t, l, input, g', l');
      MakeLockThread(g, t, l, input, g', l');
    case AwaitKeyLock | Unlock =>
      KeyLockShared(g, t, l, input, g', l');
      KeyLockRely(g, t, l, input, g', l');
      KeyLockThread(g, t, l, input, g', l');
    case FastRead | SecondRead =>
      if l.key in g.cache {
        HitShared(g, t, l, input, g', l');
        HitThread(g, t, l, input, g', l');
      } else {
        MissOk(g, t, l, input, g', l');
      }
    case Building =>
      if g' == g {
        BuildOk(g, t, l, input, g', l');
      } else {
        BuildFailedShared(g, t, l, input, g', l');
        BuildFailedThread(g, t, l, input, g', l');
      }
    case Registering =>
      RegisterShared(g, t, l, input, g', l');
      RegisterRely(g, t, l, input, g', l');
      RegisterThread(g, t, l, input, g', l');
    case Announcing =>
      AnnounceOk(g, t, l, input, g', l');
    case Compare =>
      if g' == g {
        CompareOk(g, t, l, input, g', l');
      } else {
        KeptShared(g, t, l, input, g', l');
        KeptThread(g, t, l, input, g', l');
      }
    case Delete =>
      DeleteShared(g, t, l, input, g', l');
      DeleteRely(g, t, l, input, g', l');
      DeleteThread(g, t, l, input, g', l');
    case Release =>
      ReleaseShared(g, t, l, input, g', l');
      ReleaseThread(g, t, l, input, g', l');
  }

  // ---------- What holds in every run ----------

  lemma StepKeepsInv(s: State, action: Action, s': State)
    requires Inv(s) && Step(s, action) == Some(s')
    ensures Inv(s')
  {
    hide SharedOk, ThreadOk, ThreadStep;
    var t := action.tid;
    var Does(g', l') := ThreadStep(s.g, t, s.threads[t], action.input);
    OwnStep(s.g, t, s.threads[t], action.input, g', l');
    forall u | 0 <= u < |s.threads| ensures ThreadOk(g', u, s'.threads[u]) {
      if u != t {
        Stable(s.g, g', u, s.threads[u]);
      }
    }
  }

  lemma {:induction false} ExecKeepsInv(s: State, actions: seq<Action>, s': State)
    requires Inv(s) && Exec(s, actions) == Some(s')
    ensures Inv(s')
    decreases |actions|
  {
    hide Inv, Step;
    if actions != [] {
      var mid := Step(s, actions[0]).value;
      StepKeepsInv(s, actions[0], mid);
      ExecKeepsInv(mid, actions[1..], s');
    }
  }

  lemma ReachableInv(s: State)
    requires Reachable(s)
    ensures Inv(s)
  {
    var threads: nat, actions :| Exec(InitState(threads), actions) == Some(s);
    hide Exec;
    ExecKeepsInv(InitState(threads), actions, s);
  }

  /** The cache refines the atomic map: the calls, in the order in which they take effect, are a legal
      history of get-or-create and evict-if-same, and the dictionary is always that history's result. */
  lemma RefinesAtomicMap(s: State)
    requires Reachable(s)
    ensures Replay(s.g.log) == Some(s.g.cache)
  {
    ReachableInv(s);
  }

  /** A finished call took effect exactly once, after it began, as the atomic operation whose result
      it returned. Only an announcement that raises hides an instance that was in fact created, and
      only closing a client that was never registered has no effect on the cache. */
  lemma CallTookEffectOnce(s: State, t: Tid)
    requires Reachable(s) && t < |s.threads| && s.threads[t].pc.Idle? && !s.threads[t].outcome.Pending?
    ensures var l := s.threads[t];
            if l.outcome.Closed? && l.inst < |s.g.clients| && s.g.clients[l.inst].key == None
            then true
            else
              && l.event.Some? && l.start <= l.event.value < |s.g.log|
              && s.g.log[l.event.value] in match l.outcome
                                           case Returned(i) => {Hit(t, l.key, i), Created(t, l.key, i)}
                                           case Failed => {BuildFailed(t, l.key), Created(t, l.key, l.inst)}
                                           case _ => {Evicted(t, l.key, l.inst), Kept(t, l.key, l.inst)}
    ensures var l := s.threads[t];
            forall n :: l.start <= n < |s.g.log| && s.g.log[n].tid == t ==> l.event == Some(n)
    ensures var l := s.threads[t];
            !l.outcome.Closed? ==>
              && l.event.Some? && l.event.value < |s.g.log| && EventFits(l.built, s.g.log[l.event.value])
              && (l.outcome.Failed? <==> l.built == Some(false) || l.announced == Some(false))
  {
    ReachableInv(s);
    assert ThreadOk(s.g, t, s.threads[t]);
  }

  /** No two threads are ever building or registering for the same key. */
  lemma OneBuildPerKey(s: State, t: Tid, u: Tid)
    requires Reachable(s) && t < |s.threads| && u < |s.threads| && t != u
    requires s.threads[t].pc.Building? || s.threads[t].pc.Registering?
    requires s.threads[u].pc.Building? || s.threads[u].pc.Registering?
    ensures s.threads[t].key != s.threads[u].key
    ensures s.threads[t].key !in s.g.cache
  {
    ReachableInv(s);
    assert ThreadOk(s.g, t, s.threads[t]) && ThreadOk(s.g, u, s.threads[u]);
    assert s.g.owners[s.threads[t].lockRef] == Some(t) && s.g.owners[s.threads[u].lockRef] == Some(u);
  }

  /** A thread kept waiting for a key's lock waits for a call about the same key; and nobody builds,
      or waits for a key's lock, while holding the registry lock. */
  lemma OnlySameKeyBlocks(s: State, t: Tid, u: Tid)
    requires Reachable(s) && t < |s.threads| && u < |s.threads|
    ensures s.threads[t].pc.AwaitKeyLock? && s.threads[t].lockRef < |s.g.owners|
            && s.g.owners[s.threads[t].lockRef] == Some(u) ==>
              Holding(s.threads[u].pc) && s.threads[u].key == s.threads[t].key
    ensures s.g.registry == Some(u) ==> InRegistry(s.threads[u].pc)
  {
    ReachableInv(s);
    assert ThreadOk(s.g, t, s.threads[t]) && ThreadOk(s.g, u, s.threads[u]);
  }

  /** The locks are held by threads. */
  ghost predicate HoldersExist(s: State) {
    && (s.g.registry.Some? ==> s.g.registry.value < |s.threads|)
    && forall m :: 0 <= m < |s.g.owners| && s.g.owners[m].Some? ==> s.g.owners[m].value < |s.threads|
  }

  lemma {:induction false} ExecKeepsHolders(s: State, actions: seq<Action>, s': State)
    requires HoldersExist(s) && Exec(s, actions) == Some(s')
    ensures HoldersExist(s')
    decreases |actions|
  {
    if actions != [] {
      var mid := Step(s, actions[0]).value;
      StepKeepsHolders(s, actions[0], mid);
      ExecKeepsHolders(mid, actions[1..], s');
    }
  }

  lemma StepKeepsHolders(s: State, action: Action, s': State)
    requires HoldersExist(s) && Step(s, action) == Some(s')
    ensures HoldersExist(s')
  {
  }

  /** Nothing deadlocks: a call that has not ended can take a step, or the thread whose lock it waits
      for can. */
  lemma NobodyStuck(s: State, t: Tid)
    requires Reachable(s) && t < |s.threads| && !s.threads[t].pc.Idle?
    ensures exists u: Tid, input ::
              && Step(s, Act(u, input)).Some?
              && (u == t
                  || (s.threads[t].pc.AwaitRegistry? && s.g.registry == Some(u))
                  || (s.threads[t].pc.AwaitKeyLock? && s.threads[t].lockRef < |s.g.owners|
                      && s.g.owners[s.threads[t].lockRef] == Some(u)))
  {
    ReachableInv(s);
    var threads: nat, actions :| Exec(InitState(threads), actions) == Some(s);
    ExecKeepsHolders(InitState(threads), actions, s);
    var l := s.threads[t];
    assert ThreadOk(s.g, t, l);
    if l.pc.AwaitRegistry? && s.g.registry.Some? {
      LockFree(s, s.g.registry.value);
    } else if l.pc.AwaitKeyLock? && s.g.owners[l.lockRef].Some? {
      LockFree(s, s.g.owners[l.lockRef].value);
    } else {
      assert Step(s, Act(t, Succeed)).Some?;
    }
  }

  /** A thread that holds a lock waits for no other. */
  lemma LockFree(s: State, u: Tid)
    requires Inv(s) && u < |s.threads| && (InRegistry(s.threads[u].pc) || Holding(s.threads[u].pc)
                                           || s.g.registry == Some(u)
                                           || exists m :: 0 <= m < |s.g.owners| && s.g.owners[m] == Some(u))
    ensures Step(s, Act(u, Succeed)).Some?
  {
    assert ThreadOk(s.g, u, s.threads[u]);
  }

  /** No cached client has begun to release its resources. */
  lemma CachedIsLive(s: State, key: Key)
    requires Reachable(s) && key in s.g.cache
    ensures s.g.cache[key] < |s.g.clients|
    ensures s.g.clients[s.g.cache[key]] == Client(Some(key), false)
  {
    ReachableInv(s);
  }

  /** A close() removes at most its own client: a successor under the same key survives it. */
  lemma CloseKeepsSuccessor(s: State, action: Action, s': State, key: Key)
    requires Reachable(s) && Step(s, action) == Some(s') && key in s.g.cache
    ensures (key in s'.g.cache && s'.g.cache[key] == s.g.cache[key])
            || (s.threads[action.tid].pc.Delete? && s.threads[action.tid].inst == s.g.cache[key])
  {
    ReachableInv(s);
    assert ThreadOk(s.g, action.tid, s.threads[action.tid]);
  }

  function Creations(log: seq<Event>, key: Key): nat {
    if log == [] then 0
    else Creations(log[..|log| - 1], key)
         + if log[|log| - 1].Created? && log[|log| - 1].key == key then 1 else 0
  }

  function Evictions(log: seq<Event>, key: Key): nat {
    if log == [] then 0
    else Evictions(log[..|log| - 1], key)
         + if log[|log| - 1].Evicted? && log[|log| - 1].key == key then 1 else 0
  }

  /** Conservation: for every key, registered = evicted + present. */
  lemma RegisteredIsEvictedPlusPresent(s: State, key: Key)
    requires Reachable(s)
    ensures Creations(s.g.log, key) == Evictions(s.g.log, key) + if key in s.g.cache then 1 else 0
  {
    ReachableInv(s);
    HistoryConserves(s.g.log, key);
  }

  lemma {:induction false} HistoryConserves(log: seq<Event>, key: Key)
    requires Replay(log).Some?
    ensures Creations(log, key) == Evictions(log, key) + if key in Replay(log).value then 1 else 0
  {
    if log != [] {
      HistoryConserves(log[..|log| - 1], key);
    }
  }
}
