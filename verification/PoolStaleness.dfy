/** How long a connection can sit in the pool, when sweeps are atomic. The upper bounds hold whenever sweeps
    are at most one interval apart; that they are attained is shown by runs whose sweeps are at least one
    interval apart as well, as the sweep loop's wait makes them. */
module PoolStaleness {
  import opened Wrappers
  import opened RecyclingPool

  /** `out` are the connections checked out, ids below `minted` have been created, and `since` is history:
      when each pooled connection was last returned. */
  datatype State = State(
    size: nat, now: real, lastSweep: real,
    stack: seq<Slot>, openedAt: map<ConnId, real>,
    out: set<ConnId>, minted: nat, since: map<ConnId, real>)

  datatype Action =
    | Pass(elapsed: real)
    | Sweep
    | TakeOut(dropped: bool)
    | GiveBack(id: ConnId, healthy: bool)

  function SweepInterval(keepAlive: real): real {
    if keepAlive / 2.0 < 1.0 then 1.0 else keepAlive / 2.0
  }

  /** A check-out hands over the top connection, reopened if it was dropped or is over the limit, or else a
      new one. */
  function TakeStep(s: State, keepAlive: real, dropped: bool): State {
    var rest := if s.stack == [] then [] else s.stack[..|s.stack| - 1];
    if s.stack == [] || s.stack[|s.stack| - 1].Empty? then
      s.(stack := rest, out := s.out + {s.minted}, minted := s.minted + 1, openedAt := s.openedAt[s.minted := s.now])
    else
      var id := s.stack[|s.stack| - 1].id;
      var reopened := dropped || OverAge(s.openedAt, id, s.now, keepAlive);
      s.(stack := rest, out := s.out + {id}, openedAt := if reopened then s.openedAt[id := s.now] else s.openedAt)
  }

  /** A return puts the connection back, or None for one that failed; a full LIFO discards it. */
  function GiveStep(s: State, id: ConnId, healthy: bool): State {
    var s' := s.(out := s.out - {id});
    if |s.stack| >= s.size then s'
    else if !healthy then s'.(stack := s.stack + [Empty])
    else s'.(stack := s.stack + [Holds(id)], since := s.since[id := s.now])
  }

  /** Time may pass only until the next sweep is due. */
  function Step(s: State, keepAlive: real, action: Action): Option<State> {
    match action
    case Pass(d) =>
      if d >= 0.0 && s.now + d <= s.lastSweep + SweepInterval(keepAlive) then Some(s.(now := s.now + d)) else None
    case Sweep =>
      Some(s.(stack := SweptStack(s.stack, s.openedAt, s.now, keepAlive),
              openedAt := s.openedAt - OverAgeIds(s.stack, s.openedAt, s.now, keepAlive),
              lastSweep := s.now))
    case TakeOut(dropped) => Some(TakeStep(s, keepAlive, dropped))
    case GiveBack(id, healthy) => if id in s.out then Some(GiveStep(s, id, healthy)) else None
  }

  function Exec(s: State, keepAlive: real, actions: seq<Action>): Option<State>
    decreases |actions|
  {
    if actions == [] then Some(s) else
    match Step(s, keepAlive, actions[0])
    case Some(s') => Exec(s', keepAlive, actions[1..])
    case None => None
  }

  function Start(size: nat, now: real): State {
    State(size, now, now, seq(size, _ => Empty), map[], {}, 0, map[])
  }

  /** Everything pooled either came back after the last sweep or was within the limit at it. */
  ghost predicate Inv(s: State, keepAlive: real) {
    && s.lastSweep <= s.now <= s.lastSweep + SweepInterval(keepAlive)
    && Distinct(s.stack)
    && (forall id: ConnId :: id in s.out ==> id < s.minted && id in s.openedAt && s.openedAt[id] <= s.now)
    && forall slot :: slot in s.stack && slot.Holds? ==>
                        && slot.id < s.minted && slot.id !in s.out
                        && slot.id in s.openedAt && slot.id in s.since
                        && s.openedAt[slot.id] <= s.since[slot.id] <= s.now
                        && (s.lastSweep <= s.since[slot.id] || s.lastSweep - s.openedAt[slot.id] <= keepAlive)
  }

  lemma StartOk(size: nat, now: real, keepAlive: real)
    requires keepAlive > 0.0
    ensures Inv(Start(size, now), keepAlive)
  {
    EmptyDistinct(size);
  }

  lemma StepKeepsInv(s: State, keepAlive: real, action: Action, s': State)
    requires keepAlive > 0.0 && Inv(s, keepAlive) && Step(s, keepAlive, action) == Some(s')
    ensures Inv(s', keepAlive)
  {
    match action
    case Pass(_) => hide TakeStep, GiveStep, Distinct;
    case Sweep =>
      SweepKeepsInv(s, keepAlive, s');
      hide Inv;
    case TakeOut(dropped) =>
      TakeKeepsInv(s, keepAlive, dropped);
      hide Inv;
    case GiveBack(id, healthy) =>
      GiveKeepsInv(s, keepAlive, id, healthy);
      hide Inv;
  }

  lemma SweepKeepsInv(s: State, keepAlive: real, s': State)
    requires keepAlive > 0.0 && Inv(s, keepAlive) && Step(s, keepAlive, Sweep) == Some(s')
    ensures Inv(s', keepAlive)
  {
    ReversedContent(s.stack);
    SweptContent(Reversed(s.stack), s.openedAt, s.now, keepAlive);
    SweptStackSlots(s.stack, s.openedAt, s.now, keepAlive);
    hide Distinct, Swept, Reversed;
  }

  lemma TakeKeepsInv(s: State, keepAlive: real, dropped: bool)
    requires keepAlive > 0.0 && Inv(s, keepAlive)
    ensures Inv(TakeStep(s, keepAlive, dropped), keepAlive)
  {
    hide SweepInterval;
  }

  lemma GiveKeepsInv(s: State, keepAlive: real, id: ConnId, healthy: bool)
    requires keepAlive > 0.0 && Inv(s, keepAlive) && id in s.out
    ensures Inv(GiveStep(s, id, healthy), keepAlive)
  {
    hide SweepInterval;
    assert (s.stack + [Empty])[..|s.stack|] == s.stack;
    assert (s.stack + [Holds(id)])[..|s.stack|] == s.stack;
  }

  lemma {:induction false} ExecKeepsInv(s: State, keepAlive: real, actions: seq<Action>, s': State)
    requires keepAlive > 0.0 && Inv(s, keepAlive) && Exec(s, keepAlive, actions) == Some(s')
    ensures Inv(s', keepAlive)
    decreases |actions|
  {
    hide Inv, Step;
    if actions != [] {
      var mid := Step(s, keepAlive, actions[0]).value;
      StepKeepsInv(s, keepAlive, actions[0], mid);
      ExecKeepsInv(mid, keepAlive, actions[1..], s');
    }
  }

  /** No connection sits in the pool longer than the limit plus one sweep interval, even if it was
      already over the limit when it was returned; nor, once it has seen a sweep, does its age
      exceed that bound. */
  lemma PooledTimeBounded(size: nat, start: real, keepAlive: real, actions: seq<Action>, s: State, id: ConnId)
    requires keepAlive > 0.0 && Exec(Start(size, start), keepAlive, actions) == Some(s)
    requires Holds(id) in s.stack
    ensures id in s.since && s.now - s.since[id] <= keepAlive + SweepInterval(keepAlive)
    ensures id in s.openedAt && s.since[id] < s.lastSweep ==>
              s.now - s.openedAt[id] <= keepAlive + SweepInterval(keepAlive)
  {
    StartOk(size, start, keepAlive);
    ExecKeepsInv(Start(size, start), keepAlive, actions, s);
  }

  /** A sweep removes exactly the pooled connections older than the limit, and so every one that has
      been idle for longer than that. */
  lemma IdleAreSwept(size: nat, start: real, keepAlive: real, actions: seq<Action>, s: State, id: ConnId)
    requires keepAlive > 0.0 && Exec(Start(size, start), keepAlive, actions) == Some(s)
    requires Holds(id) in s.stack
    ensures var swept := Step(s, keepAlive, Sweep).value;
            && (Holds(id) !in swept.stack <==> id in s.openedAt && s.now - s.openedAt[id] > keepAlive)
            && (id in s.since && s.now - s.since[id] > keepAlive ==> Holds(id) !in swept.stack)
  {
    StartOk(size, start, keepAlive);
    ExecKeepsInv(Start(size, start), keepAlive, actions, s);
    ReversedContent(s.stack);
    SweptContent(Reversed(s.stack), s.openedAt, s.now, keepAlive);
  }

  // ---------- Runs of the sweep loop ----------

  /** The loop sweeps again only after waiting out a whole interval. */
  predicate Due(s: State, keepAlive: real) {
    s.now >= s.lastSweep + SweepInterval(keepAlive)
  }

  /** A run in which every sweep is due. */
  ghost predicate Runs(s: State, keepAlive: real, actions: seq<Action>, s': State)
    decreases |actions|
  {
    if actions == [] then s == s'
    else
      && (actions[0].Sweep? ==> Due(s, keepAlive))
      && Step(s, keepAlive, actions[0]).Some?
      && Runs(Step(s, keepAlive, actions[0]).value, keepAlive, actions[1..], s')
  }

  lemma {:induction false} RunsExec(s: State, keepAlive: real, actions: seq<Action>, s': State)
    requires Runs(s, keepAlive, actions, s')
    ensures Exec(s, keepAlive, actions) == Some(s')
    decreases |actions|
  {
    if actions != [] {
      RunsExec(Step(s, keepAlive, actions[0]).value, keepAlive, actions[1..], s');
    }
  }

  lemma {:induction false} RunsThen(s: State, keepAlive: real, first: seq<Action>, mid: State, second: seq<Action>, s': State)
    requires Runs(s, keepAlive, first, mid) && Runs(mid, keepAlive, second, s')
    ensures Runs(s, keepAlive, first + second, s')
    decreases |first|
  {
    hide Step;
    if first == [] {
      assert first + second == second;
    } else {
      RunsThen(Step(s, keepAlive, first[0]).value, keepAlive, first[1..], mid, second, s');
      assert (first + second)[1..] == first[1..] + second;
    }
  }

  /** A pool of one slot whose only connection, opened and returned at `born`, has stayed. */
  function Kept(born: real, now: real, lastSweep: real): State {
    State(1, now, lastSweep, [Holds(0)], map[0 := born], {}, 1, map[0 := born])
  }

  lemma Pooled(keepAlive: real, born: real) returns (actions: seq<Action>)
    requires keepAlive > 0.0 && 0.0 <= born <= SweepInterval(keepAlive)
    ensures Runs(Start(1, 0.0), keepAlive, actions, Kept(born, born, 0.0))
  {
    var s0 := Start(1, 0.0);
    var s1 := s0.(now := born);
    var s2 := s1.(stack := [], out := {0}, minted := 1, openedAt := map[0 := born]);
    assert Step(s0, keepAlive, Pass(born)) == Some(s1);
    assert map[][0 := born] == map[0 := born] && [] + [Holds(0)] == [Holds(0)] && {0} - {0} == {} && {} + {0} == {0};
    assert Step(s1, keepAlive, TakeOut(false)) == Some(s2);
    assert Step(s2, keepAlive, GiveBack(0, true)) == Some(Kept(born, born, 0.0));
    hide Step, Start, Kept;
    actions := [Pass(born), TakeOut(false), GiveBack(0, true)];
    assert Runs(s2, keepAlive, actions[2..], Kept(born, born, 0.0));
    assert Runs(s1, keepAlive, actions[1..], Kept(born, born, 0.0));
  }

  /** It stays to the next sweep, and through it if it is then within the limit. */
  lemma StaysTillDue(keepAlive: real, born: real, now: real, last: real) returns (s: State)
    requires keepAlive > 0.0 && last <= now <= last + SweepInterval(keepAlive)
    ensures s == Kept(born, last + SweepInterval(keepAlive), last)
    ensures Runs(Kept(born, now, last), keepAlive, [Pass(last + SweepInterval(keepAlive) - now)], s)
    ensures last + SweepInterval(keepAlive) - born <= keepAlive ==>
              Runs(s, keepAlive, [Sweep], Kept(born, last + SweepInterval(keepAlive), last + SweepInterval(keepAlive)))
  {
    s := Kept(born, last + SweepInterval(keepAlive), last);
    var wait := Pass(last + SweepInterval(keepAlive) - now);
    assert Step(Kept(born, now, last), keepAlive, wait) == Some(s);
    assert Runs(s, keepAlive, [], s);
    if last + SweepInterval(keepAlive) - born <= keepAlive {
      SweptStackAt(s.stack, s.openedAt, s.now, keepAlive, 0);
      assert SweptStack(s.stack, s.openedAt, s.now, keepAlive) == s.stack;
      assert OverAgeIds(s.stack, s.openedAt, s.now, keepAlive) == {};
      assert s.openedAt - {} == s.openedAt;
      assert Step(s, keepAlive, Sweep) == Some(s.(lastSweep := s.now));
      assert Runs(s.(lastSweep := s.now), keepAlive, [], s.(lastSweep := s.now));
    }
  }

  /** Within one interval after time 0 it is returned so that its age is exactly the limit at a sweep; it
      survives the sweeps up to and including that one, and stays until the next. */
  lemma PooledTimeBoundTight(keepAlive: real)
    requires keepAlive > 0.0
    ensures exists actions, s ::
              && Runs(Start(1, 0.0), keepAlive, actions, s) && Holds(0) in s.stack
              && 0 in s.since && s.now - s.since[0] == keepAlive + SweepInterval(keepAlive)
  {
    var i := SweepInterval(keepAlive);
    var born := if keepAlive <= i then i - keepAlive else 2.0 * i - keepAlive;
    assert 0.0 <= born <= i;
    var start := Pooled(keepAlive, born);
    var actions, s := SurvivesSweep(keepAlive, start, born, born, 0.0);
    var last := i;
    if keepAlive > i {
      actions, s := SurvivesSweep(keepAlive, actions, born, last, last);
      last := last + i;
    }
    var end := StaysTillDue(keepAlive, born, last, last);
    hide Runs, Start, SweepInterval;
    RunsThen(Start(1, 0.0), keepAlive, actions, s, [Pass(last + i - last)], end);
    assert end.stack == [Holds(0)] && end.since == map[0 := born];
  }

  lemma SurvivesSweep(keepAlive: real, before: seq<Action>, born: real, now: real, last: real)
    returns (actions: seq<Action>, s: State)
    requires keepAlive > 0.0 && last <= now <= last + SweepInterval(keepAlive)
    requires last + SweepInterval(keepAlive) - born <= keepAlive
    requires Runs(Start(1, 0.0), keepAlive, before, Kept(born, now, last))
    ensures s == Kept(born, last + SweepInterval(keepAlive), last + SweepInterval(keepAlive))
    ensures Runs(Start(1, 0.0), keepAlive, actions, s)
  {
    var due := StaysTillDue(keepAlive, born, now, last);
    s := Kept(born, last + SweepInterval(keepAlive), last + SweepInterval(keepAlive));
    var wait := [Pass(last + SweepInterval(keepAlive) - now)];
    hide Runs, Start, SweepInterval, Kept;
    RunsThen(Start(1, 0.0), keepAlive, before, Kept(born, now, last), wait, due);
    RunsThen(Start(1, 0.0), keepAlive, before + wait, due, [Sweep], s);
    actions := before + wait + [Sweep];
  }

  /** In every run of the sweep loop, no connection has been in the pool for longer than the bound. */
  ghost predicate PooledWithin(keepAlive: real, bound: real) {
    forall size: nat, start, actions, s, id ::
      Runs(Start(size, start), keepAlive, actions, s) && Holds(id) in s.stack ==>
        id in s.since && s.now - s.since[id] <= bound
  }

  /** The bounds that hold in every run are exactly those that allow for the limit plus one interval. */
  lemma PooledWithinExactly(keepAlive: real, bound: real)
    requires keepAlive > 0.0
    ensures PooledWithin(keepAlive, bound) <==> keepAlive + SweepInterval(keepAlive) <= bound
  {
    hide Runs, Exec, Start, SweepInterval;
    if keepAlive + SweepInterval(keepAlive) <= bound {
      forall size: nat, start, actions, s, id
        | Runs(Start(size, start), keepAlive, actions, s) && Holds(id) in s.stack
        ensures id in s.since && s.now - s.since[id] <= bound
      {
        RunsExec(Start(size, start), keepAlive, actions, s);
        PooledTimeBounded(size, start, keepAlive, actions, s, id);
      }
    }
    PooledTimeBoundTight(keepAlive);
  }

  /** So the documented one and a half times the limit bounds the pooled times of all runs exactly if the
      limit is at least two seconds, where the one-second floor of the sweep interval does not bite. */
  lemma OneAndAHalfExactly(keepAlive: real)
    requires keepAlive > 0.0
    ensures PooledWithin(keepAlive, 1.5 * keepAlive) <==> keepAlive >= 2.0
  {
    PooledWithinExactly(keepAlive, 1.5 * keepAlive);
    hide PooledWithin;
  }

  // ---------- Age is not idle time ----------

  /** A pool of one slot whose only connection, opened at time 0, is checked out. */
  function InUse(now: real, lastSweep: real): State {
    State(1, now, lastSweep, [], map[0 := 0.0], {0}, 1, map[])
  }

  lemma BusyThroughSweep(keepAlive: real, before: seq<Action>, last: real) returns (actions: seq<Action>, s: State)
    requires keepAlive > 0.0 && Runs(Start(1, 0.0), keepAlive, before, InUse(last, last))
    ensures s == InUse(last + SweepInterval(keepAlive), last + SweepInterval(keepAlive))
    ensures Runs(Start(1, 0.0), keepAlive, actions, s)
  {
    var i := SweepInterval(keepAlive);
    var due := InUse(last + i, last);
    s := InUse(last + i, last + i);
    assert Step(InUse(last, last), keepAlive, Pass(i)) == Some(due);
    assert OverAgeIds([], due.openedAt, due.now, keepAlive) == {} && due.openedAt - {} == due.openedAt;
    assert Step(due, keepAlive, Sweep) == Some(s);
    assert Runs(s, keepAlive, [], s);
    assert Runs(due, keepAlive, [Sweep], s);
    assert [Pass(i), Sweep][1..] == [Sweep];
    assert Runs(InUse(last, last), keepAlive, [Pass(i), Sweep], s);
    RunsThen(Start(1, 0.0), keepAlive, before, InUse(last, last), [Pass(i), Sweep], s);
    actions := before + [Pass(i), Sweep];
  }

  lemma OldReturned(keepAlive: real, before: seq<Action>, last: real) returns (actions: seq<Action>, s: State)
    requires keepAlive > 0.0 && Runs(Start(1, 0.0), keepAlive, before, InUse(last, last))
    ensures s == State(1, last + SweepInterval(keepAlive), last, [Holds(0)], map[0 := 0.0], {}, 1,
                       map[0 := last + SweepInterval(keepAlive)])
    ensures Runs(Start(1, 0.0), keepAlive, actions, s)
  {
    var i := SweepInterval(keepAlive);
    var due := InUse(last + i, last);
    s := State(1, last + i, last, [Holds(0)], map[0 := 0.0], {}, 1, map[0 := last + i]);
    assert map[][0 := last + i] == map[0 := last + i] && [] + [Holds(0)] == [Holds(0)] && {0} - {0} == {};
    assert Step(InUse(last, last), keepAlive, Pass(i)) == Some(due);
    assert Step(due, keepAlive, GiveBack(0, true)) == Some(s);
    assert Runs(s, keepAlive, [], s);
    assert Runs(due, keepAlive, [GiveBack(0, true)], s);
    assert [Pass(i), GiveBack(0, true)][1..] == [GiveBack(0, true)];
    assert Runs(InUse(last, last), keepAlive, [Pass(i), GiveBack(0, true)], s);
    RunsThen(Start(1, 0.0), keepAlive, before, InUse(last, last), [Pass(i), GiveBack(0, true)], s);
    actions := before + [Pass(i), GiveBack(0, true)];
  }

  /** Not only idle connections are swept: one that was in use until this very instant, when a sweep is due,
      is swept too if it was opened long enough ago. */
  lemma JustUsedIsSwept(keepAlive: real)
    requires keepAlive > 0.0
    ensures exists actions, s ::
              && Runs(Start(1, 0.0), keepAlive, actions, s) && Due(s, keepAlive)
              && Holds(0) in s.stack && 0 in s.since && s.since[0] == s.now
              && Holds(0) !in Step(s, keepAlive, Sweep).value.stack
  {
    var s1 := InUse(0.0, 0.0);
    assert map[][0 := 0.0] == map[0 := 0.0] && {} + {0} == {0};
    assert Step(Start(1, 0.0), keepAlive, TakeOut(false)) == Some(s1);
    assert Runs(s1, keepAlive, [], s1);
    assert Runs(Start(1, 0.0), keepAlive, [TakeOut(false)], s1);
    var i := SweepInterval(keepAlive);
    var once, s2 := BusyThroughSweep(keepAlive, [TakeOut(false)], 0.0);
    var twice, s3 := BusyThroughSweep(keepAlive, once, i);
    var actions, s := OldReturned(keepAlive, twice, i + i);
    assert s.now > keepAlive;
    hide Runs, Start, Step;
    RunsExec(Start(1, 0.0), keepAlive, actions, s);
    IdleAreSwept(1, 0.0, keepAlive, actions, s, 0);
  }
}
