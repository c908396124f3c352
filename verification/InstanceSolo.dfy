/** What get_instance() and close() come to when no other thread moves meanwhile, for every outcome of the
    construction and of the announcement. */
module InstanceSolo {
  import opened Wrappers
  import opened InstanceCache

  /** The steps of one thread, the others standing still. */
  function Solo(g: Shared, t: Tid, l: Thread, inputs: seq<Input>): Effect
    decreases |inputs|
  {
    if inputs == [] then Does(g, l) else
    match ThreadStep(g, t, l, inputs[0])
    case Does(g', l') => Solo(g', t, l', inputs[1..])
    case Disabled => Disabled
  }

  /** A solo run is a run of the machine. */
  lemma {:induction false} SoloIsRun(s: State, t: Tid, inputs: seq<Input>, g': Shared, l': Thread)
    requires t < |s.threads| && Solo(s.g, t, s.threads[t], inputs) == Does(g', l')
    ensures Exec(s, seq(|inputs|, i requires 0 <= i < |inputs| => Act(t, inputs[i]))) == Some(State(g', s.threads[t := l']))
    decreases |inputs|
  {
    hide ThreadStep;
    var actions := seq(|inputs|, i requires 0 <= i < |inputs| => Act(t, inputs[i]));
    if inputs == [] {
      assert s.threads[t := l'] == s.threads;
    } else {
      var Does(g1, l1) := ThreadStep(s.g, t, s.threads[t], inputs[0]);
      var mid := State(g1, s.threads[t := l1]);
      SoloIsRun(mid, t, inputs[1..], g', l');
      assert actions[1..] == seq(|inputs[1..]|, i requires 0 <= i < |inputs[1..]| => Act(t, inputs[1..][i]));
      assert mid.threads[t := l'] == s.threads[t := l'];
    }
  }

  lemma {:induction false} SoloThen(g: Shared, t: Tid, l: Thread, first: seq<Input>, g1: Shared, l1: Thread, second: seq<Input>)
    requires Solo(g, t, l, first) == Does(g1, l1)
    ensures Solo(g, t, l, first + second) == Solo(g1, t, l1, second)
    decreases |first|
  {
    hide ThreadStep;
    if first == [] {
      assert first + second == second;
    } else {
      var Does(g', l') := ThreadStep(g, t, l, first[0]);
      SoloThen(g', t, l', first[1..], g1, l1, second);
      assert (first + second)[1..] == first[1..] + second;
    }
  }

  lemma SoloStep(g: Shared, t: Tid, l: Thread, inputs: seq<Input>, g1: Shared, l1: Thread, e: Input, g2: Shared, l2: Thread)
    requires Solo(g, t, l, inputs) == Does(g1, l1) && ThreadStep(g1, t, l1, e) == Does(g2, l2)
    ensures Solo(g, t, l, inputs + [e]) == Does(g2, l2)
  {
    hide ThreadStep;
    assert Solo(g1, t, l1, [e]) == Does(g2, l2);
    SoloThen(g, t, l, inputs, g1, l1, [e]);
  }

  /** Nobody holds the registry lock, nor the lock of this key if it has one yet. */
  predicate Unlocked(g: Shared, key: Key) {
    && g.registry == None
    && (key in g.keyLocks ==> g.keyLocks[key] < |g.owners| && g.owners[g.keyLocks[key]] == None)
  }

  /** The two memories agree on what clients there are and which are cached. */
  predicate SameClients(g: Shared, g': Shared) {
    g'.cache == g.cache && g'.clients == g.clients
  }

  // ---------- Taking the key's lock ----------

  /** Finding or making the key's lock, and taking it. */
  lemma LockAlone(g: Shared, t: Tid, l: Thread) returns (inputs: seq<Input>, g': Shared, l': Thread)
    requires l.pc.AwaitRegistry? && Unlocked(g, l.key)
    ensures Solo(g, t, l, inputs) == Does(g', l') && forall e :: e in inputs ==> e == Run
    ensures l'.lockRef < |g'.owners| && g'.owners[l'.lockRef] == Some(t)
    ensures l.key in g'.keyLocks && g'.keyLocks[l.key] == l'.lockRef && g'.registry == None
    ensures SameClients(g, g') && g'.log == g.log
    ensures l' == l.(pc := if l.closing then Compare else SecondRead, lockRef := l'.lockRef)
  {
    var g1, l1 := g.(registry := Some(t)), l.(pc := FindLock);
    assert ThreadStep(g, t, l, Run) == Does(g1, l1);
    assert Solo(g, t, l, [Run]) == Does(g1, l1);
    var find, g2, l2 := FindAlone(g1, t, l1);
    SoloThen(g, t, l, [Run], g1, l1, find);
    var g3, l3 := g2.(registry := None), l2.(pc := AwaitKeyLock);
    assert ThreadStep(g2, t, l2, Run) == Does(g3, l3);
    g', l' := g3.(owners := g3.owners[l3.lockRef := Some(t)]), l3.(pc := if l.closing then Compare else SecondRead);
    assert ThreadStep(g3, t, l3, Run) == Does(g', l');
    hide ThreadStep;
    SoloStep(g, t, l, [Run] + find, g2, l2, Run, g3, l3);
    SoloStep(g, t, l, [Run] + find + [Run], g3, l3, Run, g', l');
    inputs := [Run] + find + [Run] + [Run];
  }

  lemma FindAlone(g: Shared, t: Tid, l: Thread) returns (inputs: seq<Input>, g': Shared, l': Thread)
    requires l.pc.FindLock? && (l.key in g.keyLocks ==> g.keyLocks[l.key] < |g.owners| && g.owners[g.keyLocks[l.key]] == None)
    ensures Solo(g, t, l, inputs) == Does(g', l') && forall e :: e in inputs ==> e == Run
    ensures l'.lockRef < |g'.owners| && g'.owners[l'.lockRef] == None
    ensures l.key in g'.keyLocks && g'.keyLocks[l.key] == l'.lockRef
    ensures g' == g.(owners := g'.owners, keyLocks := g'.keyLocks) && l' == l.(pc := LeaveRegistry, lockRef := l'.lockRef)
  {
    if l.key in g.keyLocks {
      inputs, g', l' := [Run], g, l.(pc := LeaveRegistry, lockRef := g.keyLocks[l.key]);
      assert ThreadStep(g, t, l, Run) == Does(g', l');
      assert Solo(g, t, l, [Run]) == Does(g', l');
    } else {
      var l1 := l.(pc := MakeLock);
      assert ThreadStep(g, t, l, Run) == Does(g, l1);
      g' := g.(owners := g.owners + [None], keyLocks := g.keyLocks[l.key := |g.owners|]);
      l' := l1.(pc := LeaveRegistry, lockRef := |g.owners|);
      assert ThreadStep(g, t, l1, Run) == Does(g', l');
      inputs := [Run, Run];
      hide ThreadStep;
      assert Solo(g, t, l1, [Run]) == Does(g', l');
    }
  }

  /** Giving the key's lock back. */
  lemma UnlockAlone(g: Shared, t: Tid, l: Thread) returns (g': Shared, l': Thread)
    requires l.pc.Unlock? && l.lockRef < |g.owners| && g.registry == None
    requires l.key in g.keyLocks && g.keyLocks[l.key] == l.lockRef
    ensures Solo(g, t, l, [Run]) == Does(g', l')
    ensures SameClients(g, g') && g'.log == g.log && Unlocked(g', l.key)
    ensures l' == l.(pc := if l.closing then Release else Idle)
  {
    g', l' := g.(owners := g.owners[l.lockRef := None]), l.(pc := if l.closing then Release else Idle);
    assert ThreadStep(g, t, l, Run) == Does(g', l');
    hide ThreadStep;
    assert Solo(g, t, l, [Run]) == Does(g', l');
  }

  // ---------- get_instance() ----------

  function Outcome?(succeeds: bool): Input {
    if succeeds then Succeed else Fail
  }

  /** A cached client is returned without construction. Otherwise the construction decides: if it succeeds, a
      new client is registered under the key, and returned unless announcing it raises; if it fails, so does
      the call, and nothing is registered. */
  predicate GetResult(g: Shared, key: Key, build: bool, announce: bool, g': Shared, outcome: Outcome) {
    if key in g.cache then SameClients(g, g') && outcome == Returned(g.cache[key])
    else if !build then SameClients(g, g') && outcome == Failed
    else
      && g'.clients == g.clients + [Client(Some(key), false)] && g'.cache == g.cache[key := |g.clients|]
      && outcome == if announce then Returned(|g.clients|) else Failed
  }

  lemma GetInstanceAlone(g: Shared, t: Tid, l: Thread, key: Key, build: bool, announce: bool)
    returns (rest: seq<Input>, g': Shared, l': Thread)
    requires l.pc.Idle? && Unlocked(g, key)
    ensures Solo(g, t, l, [Get(key)] + rest) == Does(g', l')
    ensures forall e :: e in rest ==> e in {Run, Outcome?(build), Outcome?(announce)}
    ensures key in g.cache ==> rest == [Run]
    ensures l'.pc.Idle? && Unlocked(g', key) && GetResult(g, key, build, announce, g', l'.outcome)
  {
    var l0 := l.(pc := FastRead, closing := false, key := key,
                 outcome := Pending, start := |g.log|, event := None, built := None, announced := None);
    assert ThreadStep(g, t, l, Get(key)) == Does(g, l0);
    assert Solo(g, t, l, [Get(key)]) == Does(g, l0);
    if key in g.cache {
      g', l' := Log(g, Hit(t, key, g.cache[key])), l0.(pc := Idle, outcome := Returned(g.cache[key]), event := Some(|g.log|));
      assert ThreadStep(g, t, l0, Run) == Does(g', l');
      SoloStep(g, t, l, [Get(key)], g, l0, Run, g', l');
      rest := [Run];
      return;
    }
    var l1 := l0.(pc := AwaitRegistry);
    assert ThreadStep(g, t, l0, Run) == Does(g, l1);
    SoloStep(g, t, l, [Get(key)], g, l0, Run, g, l1);
    hide ThreadStep, GetResult, Solo;
    var lock, g2, l2 := LockAlone(g, t, l1);
    SoloThen(g, t, l, [Get(key)] + [Run], g, l1, lock);
    var work, g3, l3 := BuildAlone(g2, t, l2, build, announce);
    SoloThen(g, t, l, [Get(key)] + [Run] + lock, g2, l2, work);
    g', l' := UnlockAlone(g3, t, l3);
    SoloThen(g, t, l, [Get(key)] + [Run] + lock + work, g3, l3, [Run]);
    rest := [Run] + lock + work + [Run];
    assert [Get(key)] + rest == [Get(key)] + [Run] + lock + work + [Run];
    SameResult(g, g2, key, build, announce, g3, g', l'.outcome);
  }

  lemma SameResult(g: Shared, g2: Shared, key: Key, build: bool, announce: bool, g3: Shared, g': Shared, outcome: Outcome)
    requires SameClients(g, g2) && GetResult(g2, key, build, announce, g3, outcome) && SameClients(g3, g')
    ensures GetResult(g, key, build, announce, g', outcome)
  {
  }

  /** Under the key's lock, on a miss. */
  lemma BuildAlone(g: Shared, t: Tid, l: Thread, build: bool, announce: bool)
    returns (inputs: seq<Input>, g': Shared, l': Thread)
    requires l.pc.SecondRead? && l.key !in g.cache
    ensures Solo(g, t, l, inputs) == Does(g', l')
    ensures forall e :: e in inputs ==> e in {Run, Outcome?(build), Outcome?(announce)}
    ensures l'.pc.Unlock? && l'.key == l.key && l'.lockRef == l.lockRef && l'.closing == l.closing
    ensures g'.owners == g.owners && g'.keyLocks == g.keyLocks && g'.registry == g.registry
    ensures GetResult(g, l.key, build, announce, g', l'.outcome)
  {
    var l1 := l.(pc := Building);
    assert ThreadStep(g, t, l, Run) == Does(g, l1);
    assert Solo(g, t, l, [Run]) == Does(g, l1);
    var Does(g2, l2) := GetStep(g, t, l1, Outcome?(build));
    assert ThreadStep(g, t, l1, Outcome?(build)) == Does(g2, l2);
    SoloStep(g, t, l, [Run], g, l1, Outcome?(build), g2, l2);
    inputs, g', l' := [Run] + [Outcome?(build)], g2, l2;
    if build {
      var more;
      more, g', l' := RegisterAlone(g2, t, l2, announce);
      SoloThen(g, t, l, inputs, g2, l2, more);
      inputs := inputs + more;
    }
  }

  lemma RegisterAlone(g: Shared, t: Tid, l: Thread, announce: bool) returns (inputs: seq<Input>, g': Shared, l': Thread)
    requires l.pc.Registering? && l.key !in g.cache
    ensures Solo(g, t, l, inputs) == Does(g', l') && forall e :: e in inputs ==> e in {Run, Outcome?(announce)}
    ensures l'.pc.Unlock? && l'.key == l.key && l'.lockRef == l.lockRef && l'.closing == l.closing
    ensures g'.owners == g.owners && g'.keyLocks == g.keyLocks && g'.registry == g.registry
    ensures GetResult(g, l.key, true, announce, g', l'.outcome)
  {
    var Does(g1, l1) := GetStep(g, t, l, Run);
    assert ThreadStep(g, t, l, Run) == Does(g1, l1);
    assert Solo(g, t, l, [Run]) == Does(g1, l1);
    g' := g1;
    l' := GetStep(g1, t, l1, Outcome?(announce)).thread;
    assert ThreadStep(g1, t, l1, Outcome?(announce)) == Does(g', l');
    hide ThreadStep;
    SoloStep(g, t, l, [Run], g1, l1, Outcome?(announce), g', l');
    inputs := [Run] + [Outcome?(announce)];
  }

  /** A second call for the key, by any thread, returns the client that the first one built. */
  lemma SecondGetHits(g: Shared, t: Tid, l: Thread, key: Key, u: Tid, m: Thread)
    returns (rest: seq<Input>, g1: Shared, l': Thread, g2: Shared, m': Thread)
    requires l.pc.Idle? && m.pc.Idle? && Unlocked(g, key) && key !in g.cache
    ensures Solo(g, t, l, [Get(key)] + rest) == Does(g1, l') && l'.outcome == Returned(|g.clients|)
    ensures Solo(g1, u, m, [Get(key)] + [Run]) == Does(g2, m') && m'.outcome == Returned(|g.clients|)
    ensures SameClients(g1, g2) && |g2.clients| == |g.clients| + 1
  {
    hide Solo;
    rest, g1, l' := GetInstanceAlone(g, t, l, key, true, true);
    var again;
    again, g2, m' := GetInstanceAlone(g1, u, m, key, true, true);
  }

  // ---------- close() ----------

  /** close() removes the client from the cache if it is the one cached under its key, leaves any other there,
      and only then begins to release it. */
  lemma CloseAlone(g: Shared, t: Tid, l: Thread, inst: Instance) returns (rest: seq<Input>, g': Shared, l': Thread)
    requires l.pc.Idle? && inst < |g.clients|
    requires g.clients[inst].key.Some? ==> Unlocked(g, g.clients[inst].key.value)
    ensures Solo(g, t, l, [Close(inst)] + rest) == Does(g', l') && forall e :: e in rest ==> e == Run
    ensures l'.pc.Idle? && l'.outcome == Closed
    ensures g'.clients == g.clients[inst := g.clients[inst].(releasing := true)]
    ensures g'.cache == match g.clients[inst].key
                        case Some(key) => if key in g.cache && g.cache[key] == inst then g.cache - {key} else g.cache
                        case None => g.cache
  {
    var Does(g0, l0) := Begin(g, l, Close(inst));
    assert ThreadStep(g, t, l, Close(inst)) == Does(g, l0);
    assert Solo(g, t, l, [Close(inst)]) == Does(g, l0);
    hide ThreadStep, Solo;
    var evict, g1, l1 := [], g, l0;
    if g.clients[inst].key.Some? {
      evict, g1, l1 := EvictAlone(g, t, l0);
    } else {
      SoloNothing(g, t, l0);
    }
    SoloThen(g, t, l, [Close(inst)], g, l0, evict);
    g', l' := ReleaseAlone(g1, t, l1);
    SoloThen(g, t, l, [Close(inst)] + evict, g1, l1, [Run]);
    rest := evict + [Run];
    assert [Close(inst)] + rest == [Close(inst)] + evict + [Run];
  }

  lemma SoloNothing(g: Shared, t: Tid, l: Thread)
    ensures Solo(g, t, l, []) == Does(g, l)
  {
  }

  lemma EvictAlone(g: Shared, t: Tid, l: Thread) returns (inputs: seq<Input>, g': Shared, l': Thread)
    requires l.pc.AwaitRegistry? && l.closing && Unlocked(g, l.key)
    ensures Solo(g, t, l, inputs) == Does(g', l') && forall e :: e in inputs ==> e == Run
    ensures l'.pc.Release? && l'.inst == l.inst && g'.clients == g.clients
    ensures g'.cache == if l.key in g.cache && g.cache[l.key] == l.inst then g.cache - {l.key} else g.cache
  {
    var lock, g1, l1 := LockAlone(g, t, l);
    var compare, g2, l2 := CompareAlone(g1, t, l1);
    SoloThen(g, t, l, lock, g1, l1, compare);
    g', l' := UnlockAlone(g2, t, l2);
    hide Solo;
    SoloThen(g, t, l, lock + compare, g2, l2, [Run]);
    inputs := lock + compare + [Run];
  }

  lemma CompareAlone(g: Shared, t: Tid, l: Thread) returns (inputs: seq<Input>, g': Shared, l': Thread)
    requires l.pc.Compare? && l.closing
    ensures Solo(g, t, l, inputs) == Does(g', l') && forall e :: e in inputs ==> e == Run
    ensures l' == l.(pc := Unlock, event := l'.event)
    ensures g' == g.(cache := g'.cache, log := g'.log)
    ensures g'.cache == if l.key in g.cache && g.cache[l.key] == l.inst then g.cache - {l.key} else g.cache
  {
    var Does(g1, l1) := CloseStep(g, t, l);
    assert ThreadStep(g, t, l, Run) == Does(g1, l1);
    assert Solo(g, t, l, [Run]) == Does(g1, l1);
    inputs, g', l' := [Run], g1, l1;
    if l1.pc.Delete? {
      var Does(g2, l2) := CloseStep(g1, t, l1);
      assert ThreadStep(g1, t, l1, Run) == Does(g2, l2);
      hide ThreadStep;
      SoloStep(g, t, l, [Run], g1, l1, Run, g2, l2);
      inputs, g', l' := [Run] + [Run], g2, l2;
    }
  }

  lemma ReleaseAlone(g: Shared, t: Tid, l: Thread) returns (g': Shared, l': Thread)
    requires l.pc.Release? && l.inst < |g.clients|
    ensures Solo(g, t, l, [Run]) == Does(g', l')
    ensures g' == g.(clients := g.clients[l.inst := g.clients[l.inst].(releasing := true)])
    ensures l' == l.(pc := Idle, outcome := InstanceCache.Closed)
  {
    g' := g.(clients := g.clients[l.inst := g.clients[l.inst].(releasing := true)]);
    l' := l.(pc := Idle, outcome := InstanceCache.Closed);
    assert ThreadStep(g, t, l, Run) == Does(g', l');
    hide ThreadStep;
    assert Solo(g, t, l, [Run]) == Does(g', l');
  }
}
