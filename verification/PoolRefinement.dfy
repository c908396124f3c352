/** A sweep that no request interrupts: the concurrent machine's drain-and-refill steps, taken to
    their end, do exactly what the sequential sweep does in one go. */
module PoolRefinement {
  import opened Wrappers
  import opened RecyclingPool
  import opened PoolMachine
  import PoolStaleness

  lemma {:induction false} PrefixDistinct(s: State, n: nat)
    requires StackOk(s) && n <= |s.stack|
    ensures Distinct(s.stack[..n])
  {
    if n > 0 {
      PrefixDistinct(s, n - 1);
      assert s.stack[..n][..n - 1] == s.stack[..n - 1];
    }
  }

  /** Where the sweep that started in `s0` stands. */
  ghost predicate Sweeping(s0: State, s: State) {
    var all, sw := Reversed(s0.stack), s.sweeper;
    && s.keepAlive == s0.keepAlive && s.requests == s0.requests
    && s.maxsize == s0.maxsize && |s0.stack| <= s.maxsize
    && match sw.phase
       case Draining =>
         sw.at == s0.now && sw.items + Reversed(s.stack) == all && s.openedAt == s0.openedAt
       case Sorting =>
         && sw.at == s0.now && sw.items == all && sw.next <= |all|
         && s.stack == Swept(all[..sw.next], s0.openedAt, s0.now, s0.keepAlive)
         && s.openedAt == s0.openedAt - OverAgeIds(all[..sw.next], s0.openedAt, s0.now, s0.keepAlive)
       case PuttingBack(slot) =>
         && Deciding(s0, s) && slot == SweptSlot(all[sw.next], s0.openedAt, s0.now, s0.keepAlive)
         && s.openedAt == s0.openedAt - OverAgeIds(all[..sw.next + 1], s0.openedAt, s0.now, s0.keepAlive)
       case Recovering(slot) =>
         && Deciding(s0, s) && slot == all[sw.next] && slot.Holds? && OverAge(s0.openedAt, slot.id, s0.now, s0.keepAlive)
         && s.openedAt == s0.openedAt - OverAgeIds(all[..sw.next], s0.openedAt, s0.now, s0.keepAlive)
       case Asleep =>
         && s.stack == Swept(all, s0.openedAt, s0.now, s0.keepAlive)
         && s.openedAt == s0.openedAt - OverAgeIds(all, s0.openedAt, s0.now, s0.keepAlive)
  }

  /** An item has been judged and its slot not yet put back. */
  ghost predicate Deciding(s0: State, s: State) {
    var all, sw := Reversed(s0.stack), s.sweeper;
    && sw.at == s0.now && sw.items == all && sw.next < |all|
    && s.stack == Swept(all[..sw.next], s0.openedAt, s0.now, s0.keepAlive)
  }

  lemma SweepStep(s0: State, s: State, action: Action, s': State)
    requires Sweeping(s0, s) && Distinct(Reversed(s0.stack))
    requires SweeperAction(action) && Step(s, action) == Some(s')
    ensures Sweeping(s0, s')
  {
    var all, next := Reversed(s0.stack), s.sweeper.next;
    hide Distinct, Swept, Reversed, OverAgeIds;
    if action.SweepTake? {
      TakeRefines(s0, s, s');
    } else if s.sweeper.phase.Sorting? && next == |all| {
      assert all[..next] == all;
    } else if s.sweeper.phase.Sorting? {
      SortRefines(s0, s, action.closeRaises, s');
    } else if action.SweepPut? {
      PutRefines(s0, s, s');
    } else {
      RecoverRefines(s0, s, action.closeRaises, s');
    }
  }

  lemma PutRefines(s0: State, s: State, s': State)
    requires Sweeping(s0, s) && Distinct(Reversed(s0.stack)) && PutStep(s) == Some(s')
    ensures Sweeping(s0, s')
  {
    var all, next := Reversed(s0.stack), s.sweeper.next;
    PutBackNext(all, next, s0.openedAt, s0.now, s0.keepAlive);
    JudgedAsAtStart(all[next], s0, OverAgeIds(all[..next], s0.openedAt, s0.now, s0.keepAlive));
    hide Distinct, Swept, Reversed, OverAgeIds, SweptSlot;
  }

  lemma RecoverRefines(s0: State, s: State, raises: bool, s': State)
    requires Sweeping(s0, s) && Distinct(Reversed(s0.stack)) && RecoverStep(s, raises) == Some(s')
    ensures Sweeping(s0, s')
  {
    var all, next := Reversed(s0.stack), s.sweeper.next;
    PutBackNext(all, next, s0.openedAt, s0.now, s0.keepAlive);
    var gone := OverAgeIds(all[..next], s0.openedAt, s0.now, s0.keepAlive);
    JudgedAsAtStart(all[next], s0, gone);
    Forgetting(s0.openedAt, gone, all[next].id);
    hide Distinct, Swept, Reversed, OverAgeIds;
  }

  lemma TakeRefines(s0: State, s: State, s': State)
    requires Sweeping(s0, s) && TakeStep(s) == Some(s')
    ensures Sweeping(s0, s')
  {
    if s.stack == [] {
      assert s.sweeper.items + Reversed(s.stack) == s.sweeper.items;
    } else {
      var top := s.stack[|s.stack| - 1];
      assert s.sweeper.items + ([top] + Reversed(s'.stack)) == (s.sweeper.items + [top]) + Reversed(s'.stack);
    }
  }

  lemma SortRefines(s0: State, s: State, raises: bool, s': State)
    requires Sweeping(s0, s) && Distinct(Reversed(s0.stack)) && SortStep(s, raises) == Some(s')
    requires s.sweeper.next < |s.sweeper.items|
    ensures Sweeping(s0, s')
  {
    SortForgets(s0, s, raises, s');
    hide Distinct, Swept, Reversed, OverAgeIds;
  }

  /** The open-time table after an item was judged: what all items judged so far leave, except that one
      whose close() raised is only forgotten by the handler. */
  lemma SortForgets(s0: State, s: State, raises: bool, s': State)
    requires Sweeping(s0, s) && Distinct(Reversed(s0.stack)) && SortStep(s, raises) == Some(s')
    requires s.sweeper.next < |s.sweeper.items|
    ensures var judged := if Evicting(s) && raises then s.sweeper.next else s.sweeper.next + 1;
            s'.openedAt == s0.openedAt - OverAgeIds(Reversed(s0.stack)[..judged], s0.openedAt, s0.now, s0.keepAlive)
    ensures Evicting(s) <==> SweptSlot(s.sweeper.items[s.sweeper.next], s0.openedAt, s0.now, s0.keepAlive)
                             != s.sweeper.items[s.sweeper.next]
  {
    var all, next := Reversed(s0.stack), s.sweeper.next;
    PutBackNext(all, next, s0.openedAt, s0.now, s0.keepAlive);
    hide Distinct, Swept, Reversed, OverAgeIds;
    var gone := OverAgeIds(all[..next], s0.openedAt, s0.now, s0.keepAlive);
    if Evicting(s) {
      Forgetting(s0.openedAt, gone, all[next].id);
    } else {
      assert gone + {} == gone;
    }
  }

  lemma Forgetting(openedAt: map<ConnId, real>, gone: set<ConnId>, id: ConnId)
    ensures openedAt - gone - {id} == openedAt - (gone + {id})
  {
  }

  lemma JudgedAsAtStart(item: Slot, s0: State, gone: set<ConnId>)
    requires item.Holds? ==> item.id !in gone
    ensures SweptSlot(item, s0.openedAt - gone, s0.now, s0.keepAlive) == SweptSlot(item, s0.openedAt, s0.now, s0.keepAlive)
  {
  }

  lemma {:induction false} SweepRun(s0: State, s: State, actions: seq<Action>, s': State)
    requires Sweeping(s0, s) && Distinct(Reversed(s0.stack))
    requires (forall action :: action in actions ==> SweeperAction(action)) && Exec(s, actions) == Some(s')
    ensures Sweeping(s0, s')
    decreases |actions|
  {
    hide Sweeping, Step, Distinct;
    if actions != [] {
      var mid := Step(s, actions[0]).value;
      SweepStep(s0, s, actions[0], mid);
      SweepRun(s0, mid, actions[1..], s');
    }
  }

  /** However its close() calls turn out, an uninterrupted sweep ends with the sequential sweep's
      stack and open-time table. */
  lemma UninterruptedSweep(s0: State, s: State, actions: seq<Action>, s': State)
    requires Reachable(s0) && Step(s0, SweepStart) == Some(s) && Exec(s, actions) == Some(s')
    requires forall action :: action in actions ==> SweeperAction(action)
    requires s'.sweeper.phase.Asleep?
    ensures s'.stack == SweptStack(s0.stack, s0.openedAt, s0.now, s0.keepAlive)
    ensures s'.openedAt == s0.openedAt - OverAgeIds(s0.stack, s0.openedAt, s0.now, s0.keepAlive)
    ensures |s'.stack| == |s0.stack| && s'.requests == s0.requests
  {
    ReachableInv(s0);
    PrefixDistinct(s0, |s0.stack|);
    assert s0.stack[..|s0.stack|] == s0.stack;
    ReversedDistinct(s0.stack);
    ReversedContent(s0.stack);
    SweepRun(s0, s, actions, s');
  }

  /** What is left of an uninterrupted sweep: one step for a queued slot, and up to three once drained. */
  function StepsLeft(s: State): int {
    var left := |s.sweeper.items| - s.sweeper.next;
    match s.sweeper.phase
    case Asleep => 0
    case Draining => 4 * |s.stack| + 3 * left + 2
    case Sorting => 3 * left + 1
    case PuttingBack(_) => 3 * left
    case Recovering(_) => 3 * left - 1
  }

  lemma SweepShrinks(s: State, action: Action, s': State)
    requires SlotsOk(s) && SlotsOk(s') && SweeperAction(action) && Step(s, action) == Some(s')
    ensures 0 <= StepsLeft(s') < StepsLeft(s)
  {
    hide Busy, Slots, CheckOutStep, InspectStep, UseStep, ReturnStep, SortStep, RecoverStep;
    match action
    case SweepSort(raises) => SortFrame(s, raises, s');
    case SweepRecover(raises) => RecoverFrame(s, raises, s');
    case _ =>
  }

  lemma {:induction false} FinishSweep(s: State) returns (actions: seq<Action>, s': State)
    requires Inv(s)
    ensures forall action :: action in actions ==> SweeperAction(action)
    ensures Exec(s, actions) == Some(s') && s'.sweeper.phase.Asleep?
    decreases StepsLeft(s)
  {
    hide StackOk, RequestsOk, ItemsOk, ConnsOk, SlotsOk, Step;
    if s.sweeper.phase.Asleep? {
      return [], s;
    }
    var action := SweeperCanStep(s);
    var mid := Step(s, action).value;
    StepKeepsInv(s, action, mid);
    SweepShrinks(s, action, mid);
    var rest;
    rest, s' := FinishSweep(mid);
    actions := [action] + rest;
    assert actions[1..] == rest;
  }

  /** A sweep that nobody interrupts comes to its end, and with that result. */
  lemma UninterruptedSweepEnds(s0: State, s: State) returns (actions: seq<Action>, s': State)
    requires Reachable(s0) && Step(s0, SweepStart) == Some(s)
    ensures forall action :: action in actions ==> SweeperAction(action)
    ensures Exec(s, actions) == Some(s') && s'.sweeper.phase.Asleep?
    ensures s'.stack == SweptStack(s0.stack, s0.openedAt, s0.now, s0.keepAlive)
    ensures s'.openedAt == s0.openedAt - OverAgeIds(s0.stack, s0.openedAt, s0.now, s0.keepAlive)
  {
    ReachableInv(s0);
    StepKeepsInv(s0, SweepStart, s);
    hide Reachable, Inv, Step, Exec;
    actions, s' := FinishSweep(s);
    UninterruptedSweep(s0, s, actions, s');
  }

  // ---------- What a sweep does to sockets ----------

  lemma {:induction false} ReachableRun(s: State, actions: seq<Action>, s': State)
    requires Reachable(s) && Exec(s, actions) == Some(s')
    ensures Reachable(s')
    decreases |actions|
  {
    hide Reachable, Step;
    if actions != [] {
      var mid := Moved(s, actions[0]);
      ReachableRun(mid, actions[1..], s');
    }
  }

  /** A step of the sweep closes no connection within the limit. */
  lemma SweepTouches(s0: State, s: State, action: Action, s': State)
    requires Sweeping(s0, s) && Distinct(Reversed(s0.stack))
    requires SweeperAction(action) && Step(s, action) == Some(s')
    ensures var gone := OverAgeIds(Reversed(s0.stack), s0.openedAt, s0.now, s0.keepAlive);
            s'.connectedAt - gone == s.connectedAt - gone
  {
    var all, next := Reversed(s0.stack), s.sweeper.next;
    var gone := OverAgeIds(all, s0.openedAt, s0.now, s0.keepAlive);
    StepTouches(s, action, s');
    if action.SweepSort? && Evicting(s) {
      PutBackNext(all, next, s0.openedAt, s0.now, s0.keepAlive);
      assert all[next] in all && all[next].id in gone;
    } else if action.SweepRecover? {
      assert all[next] in all && all[next].id in gone;
    }
    hide Distinct, Swept, Reversed, OverAgeIds, Sweeping, Step;
  }

  lemma StepTouches(s: State, action: Action, s': State)
    requires SweeperAction(action) && Step(s, action) == Some(s')
    ensures s'.connectedAt == s.connectedAt
            || (action.SweepSort? && Evicting(s) && s'.connectedAt == s.connectedAt - {s.sweeper.items[s.sweeper.next].id})
            || (action.SweepRecover? && s.sweeper.phase.slot.Holds?
                && s'.connectedAt == s.connectedAt - {s.sweeper.phase.slot.id})
  {
  }

  lemma {:induction false} SweepRunTouches(s0: State, s: State, actions: seq<Action>, s': State)
    requires Sweeping(s0, s) && Distinct(Reversed(s0.stack))
    requires (forall action :: action in actions ==> SweeperAction(action)) && Exec(s, actions) == Some(s')
    ensures var gone := OverAgeIds(Reversed(s0.stack), s0.openedAt, s0.now, s0.keepAlive);
            s'.connectedAt - gone == s.connectedAt - gone
    decreases |actions|
  {
    hide Sweeping, Step, Distinct, OverAgeIds;
    if actions != [] {
      var mid := Step(s, actions[0]).value;
      SweepTouches(s0, s, actions[0], mid);
      SweepStep(s0, s, actions[0], mid);
      SweepRunTouches(s0, mid, actions[1..], s');
    }
  }

  /** An uninterrupted sweep leaves every other socket alone, and every connection it removes closed, unless
      the last close() raised. */
  lemma UninterruptedSweepCloses(s0: State, s: State, actions: seq<Action>, s': State)
    requires Reachable(s0) && Step(s0, SweepStart) == Some(s) && Exec(s, actions) == Some(s')
    requires forall action :: action in actions ==> SweeperAction(action)
    requires s'.sweeper.phase.Asleep?
    ensures var gone := OverAgeIds(s0.stack, s0.openedAt, s0.now, s0.keepAlive);
            && s'.connectedAt - gone == s0.connectedAt - gone
            && forall id :: id in gone ==> id in s'.closes && (id in s'.connectedAt ==> s'.closes[id])
  {
    ReachableInv(s0);
    PrefixDistinct(s0, |s0.stack|);
    assert s0.stack[..|s0.stack|] == s0.stack;
    SweptStackSlots(s0.stack, s0.openedAt, s0.now, s0.keepAlive);
    ReversedDistinct(s0.stack);
    SweepRunTouches(s0, s, actions, s');
    UninterruptedSweep(s0, s, actions, s');
    var gone := OverAgeIds(s0.stack, s0.openedAt, s0.now, s0.keepAlive);
    forall id | id in gone ensures id in s'.closes && (id in s'.connectedAt ==> s'.closes[id]) {
      SweptIsClosed(s0, s, actions, s', id);
    }
  }

  lemma SweptIsClosed(s0: State, s: State, actions: seq<Action>, s': State, id: ConnId)
    requires Reachable(s0) && Step(s0, SweepStart) == Some(s) && Exec(s, actions) == Some(s')
    requires s'.sweeper.phase.Asleep? && s'.requests == s0.requests
    requires s'.stack == SweptStack(s0.stack, s0.openedAt, s0.now, s0.keepAlive)
    requires Holds(id) in s0.stack && OverAge(s0.openedAt, id, s0.now, s0.keepAlive)
    ensures id in s'.closes && (id in s'.connectedAt ==> s'.closes[id])
  {
    ReachableInv(s0);
    var s1 := Moved(s0, SweepStart);
    ReachableRun(s, actions, s');
    SweptContent(Reversed(s0.stack), s0.openedAt, s0.now, s0.keepAlive);
    assert Holds(id) !in s'.stack;
    var i :| 0 <= i < |s0.stack| && s0.stack[i] == Holds(id);
    NoConnectionLost(s0, id);
    ReachableInv(s');
    ConnectionsStay(s, actions, s');
    NoConnectionLost(s', id);
    assert s'.sweeper.items == [];
  }

  lemma {:induction false} ConnectionsStay(s: State, actions: seq<Action>, s': State)
    requires Exec(s, actions) == Some(s')
    ensures |s.loc| <= |s'.loc|
    decreases |actions|
  {
    if actions != [] {
      var mid := Step(s, actions[0]).value;
      StepKeepsConnections(s, actions[0], mid);
      hide Step;
      ConnectionsStay(mid, actions[1..], s');
    }
  }

  lemma StepKeepsConnections(s: State, action: Action, s': State)
    requires Step(s, action) == Some(s')
    ensures |s.loc| <= |s'.loc|
  {
  }

  // ---------- Check-out and return ----------

  /** The two steps of a check-out come to what the sequential one does: the top connection or a new one,
      untouched if its socket is open and within the limit, else to be opened and recorded as opened now. */
  lemma CheckOutRefines(s: State, t: nat, dropped: bool, raises: bool)
    requires Reachable(s) && t < |s.requests| && s.requests[t].Free?
    ensures s.stack == [] && s.block <==> Step(s, CheckOut(t, dropped)).None?
    ensures !(s.stack == [] && s.block) ==>
              var id := Candidate(s.stack, |s.loc|);
              var wasOpen := id in s.connectedAt && !dropped;
              var over := OverAge(s.openedAt, id, s.now, s.keepAlive);
              var done := Exec(s, [CheckOut(t, dropped), Inspect(t, raises)]);
              && done.Some?
              && done.value.stack == (if s.stack == [] then [] else s.stack[..|s.stack| - 1])
              && done.value.requests == s.requests[t := if wasOpen && over && raises then Failing else Using(id)]
              && |done.value.loc| == (if id < |s.loc| then |s.loc| else |s.loc| + 1)
              && (if wasOpen && (!over || raises)
                  then done.value.openedAt == s.openedAt && done.value.connectedAt == s.connectedAt
                  else done.value.openedAt == s.openedAt[id := s.now] && done.value.connectedAt == s.connectedAt - {id})
  {
    if !(s.stack == [] && s.block) {
      var s1 := CheckedOut(s, t, dropped);
      hide Reachable, CheckOutStep;
      var s2 := Inspected(s1, t, raises);
      var id := Candidate(s.stack, |s.loc|);
      hide InspectStep, OverAge, Candidate;
      assert s1.connectedAt - {id} == s.connectedAt - {id};
      TwoSteps(s, CheckOut(t, dropped), s1, Inspect(t, raises), s2);
      hide Step, Exec;
    }
  }

  lemma CheckedOut(s: State, t: nat, dropped: bool) returns (s1: State)
    requires Reachable(s) && t < |s.requests| && s.requests[t].Free? && !(s.stack == [] && s.block)
    ensures Step(s, CheckOut(t, dropped)) == Some(s1)
    ensures var id := Candidate(s.stack, |s.loc|);
            && id < |s1.loc| == (if id < |s.loc| then |s.loc| else |s.loc| + 1)
            && s1.requests == s.requests[t := Checking(id)] && s1.openedAt == s.openedAt
            && s1.stack == (if s.stack == [] then [] else s.stack[..|s.stack| - 1])
            && s1.connectedAt == (if dropped then s.connectedAt - {id} else s.connectedAt)
            && s1.now == s.now && s1.keepAlive == s.keepAlive
  {
    ReachableInv(s);
    if s.stack != [] && s.stack[|s.stack| - 1].Holds? {
      assert s.loc[s.stack[|s.stack| - 1].id] == Queued(|s.stack| - 1);
    }
    hide Reachable, Inv;
    s1 := CheckOutStep(s, t, dropped).value;
    TakesCandidate(s, t, dropped, s1);
  }

  lemma TwoSteps(s: State, first: Action, s1: State, second: Action, s2: State)
    requires Step(s, first) == Some(s1) && Step(s1, second) == Some(s2)
    ensures Exec(s, [first, second]) == Some(s2)
  {
    hide Step;
    assert [first, second][1..] == [second];
    assert Exec(s1, [second]) == Some(s2);
  }

  lemma Inspected(s: State, t: nat, raises: bool) returns (s': State)
    requires t < |s.requests| && s.requests[t].Checking? && s.requests[t].id < |s.loc|
    ensures Step(s, Inspect(t, raises)) == Some(s')
    ensures var id := s.requests[t].id;
            var wasOpen, over := id in s.connectedAt, OverAge(s.openedAt, id, s.now, s.keepAlive);
            && s'.stack == s.stack && |s'.loc| == |s.loc|
            && s'.requests == s.requests[t := if wasOpen && over && raises then Failing else Using(id)]
            && (if wasOpen && (!over || raises) then s'.openedAt == s.openedAt && s'.connectedAt == s.connectedAt
                else s'.openedAt == s.openedAt[id := s.now] && s'.connectedAt == s.connectedAt - {id})
  {
    s' := InspectStep(s, t, raises).value;
    hide OverAge;
  }

  lemma TakesCandidate(s: State, t: nat, dropped: bool, s1: State)
    requires t < |s.requests| && CheckOutStep(s, t, dropped) == Some(s1)
    requires forall id: ConnId :: id in s.connectedAt ==> id < |s.loc|
    ensures var id := Candidate(s.stack, |s.loc|);
            && id < |s1.loc| == (if id < |s.loc| then |s.loc| else |s.loc| + 1)
            && s1.requests == s.requests[t := Checking(id)] && s1.openedAt == s.openedAt
            && s1.stack == (if s.stack == [] then [] else s.stack[..|s.stack| - 1])
            && s1.connectedAt == (if dropped then s.connectedAt - {id} else s.connectedAt)
            && s1.now == s.now && s1.keepAlive == s.keepAlive
  {
  }

  /** A return puts a healthy connection back if there is room, and closes any other; the slot is returned
      either way, unless the LIFO is full. */
  lemma ReturnRefines(s: State, t: nat, healthy: bool)
    requires Reachable(s) && t < |s.requests| && (s.requests[t].Using? || s.requests[t].Failing?)
    ensures var done := Step(s, Return(t, healthy));
            var slot := if s.requests[t].Using? && healthy then Holds(s.requests[t].id) else Empty;
            && done.Some? && done.value.requests == s.requests[t := Free] && done.value.openedAt == s.openedAt
            && done.value.stack == s.stack + (if |s.stack| < s.maxsize then [slot] else [])
            && done.value.connectedAt
               == s.connectedAt - if s.requests[t].Using? && !(healthy && |s.stack| < s.maxsize) then {s.requests[t].id} else {}
  {
    ReachableInv(s);
    assert s.connectedAt - {} == s.connectedAt;
    hide Reachable, Inv;
  }

  /** While in use, a connection without a socket can be opened, now, and one can lose its socket; nothing
      else about the pool changes. */
  lemma InUseAlone(s: State, t: nat)
    requires t < |s.requests| && s.requests[t].Using?
    ensures var id := s.requests[t].id;
            && (id !in s.connectedAt ==>
                  Step(s, Connect(t)) == Some(s.(connectedAt := s.connectedAt[id := s.now], closes := s.closes - {id})))
            && (id in s.connectedAt ==> Step(s, Connect(t)) == None)
            && Step(s, Disconnect(t)) == Some(s.(connectedAt := s.connectedAt - {id}))
  {
  }

  /** The atomic check-out of the timed model is that of the machine, for a connection found dropped or
      without a socket. */
  lemma TimedTakeAgrees(s: State, t: nat, dropped: bool, a: PoolStaleness.State)
    requires Reachable(s) && t < |s.requests| && s.requests[t].Free? && !(s.stack == [] && s.block)
    requires a.stack == s.stack && a.openedAt == s.openedAt && a.now == s.now && a.minted == |s.loc|
    ensures var unopened := dropped || Candidate(s.stack, |s.loc|) !in s.connectedAt;
            var done := Exec(s, [CheckOut(t, dropped), Inspect(t, false)]);
            var a' := PoolStaleness.TakeStep(a, s.keepAlive, unopened);
            && done.Some? && a'.stack == done.value.stack && a'.openedAt == done.value.openedAt
            && a'.minted == |done.value.loc| && a'.out == a.out + {Candidate(s.stack, |s.loc|)}
  {
    CheckOutRefines(s, t, dropped, false);
    ReachableInv(s);
    if s.stack != [] && s.stack[|s.stack| - 1].Holds? {
      assert s.loc[s.stack[|s.stack| - 1].id] == Queued(|s.stack| - 1);
    }
    hide Reachable, Inv, Exec;
  }

  lemma TimedGiveAgrees(s: State, t: nat, healthy: bool, a: PoolStaleness.State)
    requires Reachable(s) && t < |s.requests| && s.requests[t].Using?
    requires a.stack == s.stack && a.openedAt == s.openedAt && a.size == s.maxsize
    ensures var done := Step(s, Return(t, healthy));
            var a' := PoolStaleness.GiveStep(a, s.requests[t].id, healthy);
            && done.Some? && a'.stack == done.value.stack && a'.openedAt == done.value.openedAt
            && a'.out == a.out - {s.requests[t].id}
  {
    ReturnRefines(s, t, healthy);
    hide Reachable, Step;
  }
}
