/** The recycling pool under concurrency: any number of requests check connections out and return
    them while one sweeper drains and refills the LIFO, every queue operation being one step. */
module PoolMachine {
  import opened Wrappers
  import opened RecyclingPool

  /** Where a connection object is: in slot i of the LIFO, with request t, the j-th item the sweeper
      holds, or let go. */
  datatype Location = Queued(i: nat) | Out(t: nat) | Drained(j: nat) | Discarded

  /** A request: none, one about to inspect what urllib3 handed it, one using its connection, or one
      whose check-out raised and which still owes the pool a slot. */
  datatype Request = Free | Checking(id: ConnId) | Using(id: ConnId) | Failing

  datatype Phase = Asleep | Draining | Sorting | PuttingBack(slot: Slot) | Recovering(slot: Slot)

  datatype Sweeper = Sweeper(phase: Phase, at: real, items: seq<Slot>, next: nat)

  /** `loc` has one entry per connection ever created; `closes` says of whom close() has been called since
      the socket was last opened, and whether the last such call raised. Both are history. */
  datatype State = State(
    maxsize: nat, block: bool, keepAlive: real, now: real,
    stack: seq<Slot>, openedAt: map<ConnId, real>, connectedAt: map<ConnId, real>,
    requests: seq<Request>, sweeper: Sweeper,
    loc: seq<Location>, closes: map<ConnId, bool>)

  datatype Action =
    | Pass(elapsed: real)
    | CheckOut(t: nat, dropped: bool)
    | Inspect(t: nat, closeRaises: bool)
    | Connect(t: nat)
    | Disconnect(t: nat)
    | Return(t: nat, healthy: bool)
    | SweepStart
    | SweepTake
    | SweepSort(closeRaises: bool)
    | SweepPut
    | SweepRecover(closeRaises: bool)

  // ---------- Requests ----------

  /** urllib3's own `_get_conn`: pop a slot, or create a connection if the LIFO is empty and the pool
      does not block; a popped connection found dropped is closed. */
  function CheckOutStep(s: State, t: nat, dropped: bool): Option<State>
    requires t < |s.requests|
  {
    if !s.requests[t].Free? || (s.stack == [] && s.block) then None
    else if s.stack == [] || s.stack[|s.stack| - 1].Empty? then
      var s' := if s.stack == [] then s else s.(stack := s.stack[..|s.stack| - 1]);
      Some(s'.(requests := s.requests[t := Checking(|s.loc|)], loc := s.loc + [Out(t)]))
    else
      var id := s.stack[|s.stack| - 1].id;
      if id >= |s.loc| then None else
      Some(s.(stack := s.stack[..|s.stack| - 1],
              requests := s.requests[t := Checking(id)], loc := s.loc[id := Out(t)],
              connectedAt := if dropped then s.connectedAt - {id} else s.connectedAt,
              closes := if dropped then s.closes[id := false] else s.closes))
  }

  /** The rest of `_get_conn`: recycle a connection over the limit before handing it out. */
  function InspectStep(s: State, t: nat, closeRaises: bool): Option<State>
    requires t < |s.requests|
  {
    if !s.requests[t].Checking? || s.requests[t].id >= |s.loc| then None else
    var id := s.requests[t].id;
    var using := s.requests[t := Using(id)];
    if id !in s.connectedAt then Some(s.(requests := using, openedAt := s.openedAt[id := s.now]))
    else if !OverAge(s.openedAt, id, s.now, s.keepAlive) then Some(s.(requests := using))
    else if closeRaises then
      Some(s.(requests := s.requests[t := Failing], loc := s.loc[id := Discarded], closes := s.closes[id := true]))
    else
      Some(s.(requests := using, openedAt := s.openedAt[id := s.now],
              connectedAt := s.connectedAt - {id}, closes := s.closes[id := false]))
  }

  /** While in use a connection may be opened, and closed again by the peer. */
  function UseStep(s: State, t: nat, connect: bool): Option<State>
    requires t < |s.requests|
  {
    if !s.requests[t].Using? then None else
    var id := s.requests[t].id;
    if connect then
      if id in s.connectedAt then None
      else Some(s.(connectedAt := s.connectedAt[id := s.now], closes := s.closes - {id}))
    else Some(s.(connectedAt := s.connectedAt - {id}))
  }

  /** A put that does not wait: the new stack, or queue.Full. */
  function Put(s: State, slot: Slot): Option<seq<Slot>> {
    if |s.stack| < s.maxsize then Some(s.stack + [slot]) else None
  }

  /** The single return of a check-out: the connection if it is healthy, else None after closing it.
      A full LIFO discards what is returned, closing a connection. */
  function ReturnStep(s: State, t: nat, healthy: bool): Option<State>
    requires t < |s.requests|
  {
    var freed := s.requests[t := Free];
    match s.requests[t]
    case Free => None
    case Checking(_) => None
    case Failing =>
      Some(s.(requests := freed, stack := if Put(s, Empty).Some? then Put(s, Empty).value else s.stack))
    case Using(id) =>
      if id >= |s.loc| then None
      else if healthy && Put(s, Holds(id)).Some? then
        Some(s.(requests := freed, stack := Put(s, Holds(id)).value, loc := s.loc[id := Queued(|s.stack|)]))
      else
        Some(s.(requests := freed,
                stack := if !healthy && Put(s, Empty).Some? then Put(s, Empty).value else s.stack,
                connectedAt := s.connectedAt - {id}, closes := s.closes[id := false],
                loc := s.loc[id := Discarded]))
  }

  // ---------- The sweeper ----------

  function TakeStep(s: State): Option<State> {
    if !s.sweeper.phase.Draining? then None
    else if s.stack == [] then Some(s.(sweeper := s.sweeper.(phase := Sorting, next := 0)))
    else
      var top := s.stack[|s.stack| - 1];
      if top.Holds? && top.id >= |s.loc| then None else
      Some(s.(stack := s.stack[..|s.stack| - 1],
              sweeper := s.sweeper.(items := s.sweeper.items + [top]),
              loc := if top.Holds? then s.loc[top.id := Drained(|s.sweeper.items|)] else s.loc))
  }

  /** Close a connection, forget its open time and let go of it. If close() raises, the socket may still be
      open. */
  function Drop(s: State, id: ConnId, raises: bool): State
    requires id < |s.loc|
  {
    s.(openedAt := s.openedAt - {id}, connectedAt := if raises then s.connectedAt else s.connectedAt - {id},
    closes := s.closes[id := raises], loc := s.loc[id := Discarded])
  }

  /** Decide about the next item; closing it may raise, which leads to the per-item handler. */
  function SortStep(s: State, closeRaises: bool): Option<State> {
    if !s.sweeper.phase.Sorting? then None
    else if s.sweeper.next >= |s.sweeper.items| then
      Some(s.(sweeper := s.sweeper.(phase := Asleep, items := [], next := 0)))
    else
      var item := s.sweeper.items[s.sweeper.next];
      if item.Holds? && item.id >= |s.loc| then None
      else if item.Holds? && OverAge(s.openedAt, item.id, s.sweeper.at, s.keepAlive) then
        if closeRaises then
          Some(s.(closes := s.closes[item.id := true], sweeper := s.sweeper.(phase := Recovering(item))))
        else Some(Drop(s, item.id, false).(sweeper := s.sweeper.(phase := PuttingBack(Empty))))
      else Some(s.(sweeper := s.sweeper.(phase := PuttingBack(item))))
  }

  /** Put the slot back; queue.Full leads to the handler. */
  function PutStep(s: State): Option<State> {
    if !s.sweeper.phase.PuttingBack? then None else
    var slot := s.sweeper.phase.slot;
    if slot.Holds? && slot.id >= |s.loc| then None
    else if Put(s, slot).Some? then
      Some(s.(stack := Put(s, slot).value,
              sweeper := s.sweeper.(phase := Sorting, next := s.sweeper.next + 1),
              loc := if slot.Holds? then s.loc[slot.id := Queued(|s.stack|)] else s.loc))
    else Some(s.(sweeper := s.sweeper.(phase := Recovering(slot))))
  }

  /** The handler: close and drop a connection still held, whether or not that raises, and free the slot
      with None, or give it up if the LIFO is full. */
  function RecoverStep(s: State, closeRaises: bool): Option<State> {
    if !s.sweeper.phase.Recovering? then None else
    var slot := s.sweeper.phase.slot;
    if slot.Holds? && slot.id >= |s.loc| then None
    else
      var s' := if slot.Holds? then Drop(s, slot.id, closeRaises) else s;
      Some(s'.(stack := if Put(s, Empty).Some? then Put(s, Empty).value else s.stack,
               sweeper := s.sweeper.(phase := Sorting, next := s.sweeper.next + 1)))
  }

  function Step(s: State, action: Action): Option<State> {
    match action
    case Pass(d) => if d >= 0.0 then Some(s.(now := s.now + d)) else None
    case CheckOut(t, dropped) => if t < |s.requests| then CheckOutStep(s, t, dropped) else None
    case Inspect(t, raises) => if t < |s.requests| then InspectStep(s, t, raises) else None
    case Connect(t) => if t < |s.requests| then UseStep(s, t, true) else None
    case Disconnect(t) => if t < |s.requests| then UseStep(s, t, false) else None
    case Return(t, healthy) => if t < |s.requests| then ReturnStep(s, t, healthy) else None
    case SweepStart =>
      if s.sweeper.phase.Asleep? then Some(s.(sweeper := Sweeper(Draining, s.now, [], 0))) else None
    case SweepTake => TakeStep(s)
    case SweepSort(raises) => SortStep(s, raises)
    case SweepPut => PutStep(s)
    case SweepRecover(raises) => RecoverStep(s, raises)
  }

  function Exec(s: State, actions: seq<Action>): Option<State>
    decreases |actions|
  {
    if actions == [] then Some(s) else
    match Step(s, actions[0])
    case Some(s') => Exec(s', actions[1..])
    case None => None
  }

  /** A new pool, full of empty slots. */
  function InitState(maxsize: nat, block: bool, keepAlive: real, now: real, threads: nat): State {
    State(maxsize, block, keepAlive, now, seq(maxsize, _ => Empty), map[], map[],
          seq(threads, _ => Free), Sweeper(Asleep, now, [], 0), [], map[])
  }

  ghost predicate Reachable(s: State) {
    exists maxsize, block, keepAlive, now, threads: nat, actions ::
      maxsize > 0 && keepAlive > 0.0 && Exec(InitState(maxsize, block, keepAlive, now, threads), actions) == Some(s)
  }

  // ---------- Slots ----------

  /** Requests that owe the pool a slot. */
  function Busy(requests: seq<Request>): nat {
    if requests == [] then 0 else (if requests[0].Free? then 0 else 1) + Busy(requests[1..])
  }

  /** Slots the sweeper has drained and not yet put back. */
  function Held(sweeper: Sweeper): int {
    |sweeper.items| - sweeper.next
  }

  function Slots(s: State): int {
    |s.stack| + Busy(s.requests) + Held(s.sweeper)
  }

  ghost predicate SweeperOk(sweeper: Sweeper) {
    && sweeper.next <= |sweeper.items|
    && (sweeper.phase.Asleep? || sweeper.phase.Draining? ==> sweeper.next == 0)
    && (sweeper.phase.Asleep? ==> sweeper.items == [])
    && (sweeper.phase.PuttingBack? || sweeper.phase.Recovering? ==> sweeper.next < |sweeper.items|)
  }

  ghost predicate SlotsOk(s: State) {
    && SweeperOk(s.sweeper)
    && |s.stack| <= s.maxsize <= Slots(s)
    && (s.block ==> Slots(s) == s.maxsize && |s.sweeper.items| <= s.maxsize)
  }

  lemma {:induction false} BusyUpdate(requests: seq<Request>, t: nat, request: Request)
    requires t < |requests|
    ensures Busy(requests[t := request])
            == Busy(requests) - (if requests[t].Free? then 0 else 1) + (if request.Free? then 0 else 1)
    ensures !requests[t].Free? ==> Busy(requests) >= 1
  {
    if t == 0 {
      assert requests[t := request][1..] == requests[1..];
    } else {
      BusyUpdate(requests[1..], t - 1, request);
      assert requests[t := request][1..] == requests[1..][t - 1 := request];
    }
  }

  lemma CheckOutKeepsSlots(s: State, t: nat, dropped: bool, s': State)
    requires SlotsOk(s) && t < |s.requests| && CheckOutStep(s, t, dropped) == Some(s')
    ensures SlotsOk(s')
  {
    BusyUpdate(s.requests, t, s'.requests[t]);
    hide Busy, OverAge;
  }

  lemma InspectKeepsSlots(s: State, t: nat, raises: bool, s': State)
    requires SlotsOk(s) && t < |s.requests| && InspectStep(s, t, raises) == Some(s')
    ensures SlotsOk(s')
  {
    BusyUpdate(s.requests, t, s'.requests[t]);
    hide Busy, OverAge;
  }

  lemma ReturnKeepsSlots(s: State, t: nat, healthy: bool, s': State)
    requires SlotsOk(s) && t < |s.requests| && ReturnStep(s, t, healthy) == Some(s')
    ensures SlotsOk(s')
  {
    BusyUpdate(s.requests, t, Free);
    hide Busy, OverAge;
  }

  lemma TakeKeepsSlots(s: State, s': State)
    requires SlotsOk(s) && TakeStep(s) == Some(s')
    ensures SlotsOk(s')
  {
    hide Busy;
  }

  /** Judging an item touches neither the LIFO nor the requests. */
  lemma SortFrame(s: State, raises: bool, s': State)
    requires SortStep(s, raises) == Some(s')
    ensures s.sweeper.phase.Sorting? && s'.stack == s.stack && s'.requests == s.requests && s'.now == s.now
    ensures s'.maxsize == s.maxsize && s'.block == s.block && s'.keepAlive == s.keepAlive
    ensures if s.sweeper.next >= |s.sweeper.items|
            then s'.sweeper == s.sweeper.(phase := Asleep, items := [], next := 0)
            else s'.sweeper == s.sweeper.(phase := s'.sweeper.phase)
                 && s'.sweeper.phase in {PuttingBack(Empty), PuttingBack(s.sweeper.items[s.sweeper.next]),
                                         Recovering(s.sweeper.items[s.sweeper.next])}
  {
    hide OverAge;
  }

  /** The handler gives the slot back if there is room. */
  lemma RecoverFrame(s: State, raises: bool, s': State)
    requires RecoverStep(s, raises) == Some(s')
    ensures s.sweeper.phase.Recovering? && s'.requests == s.requests && s'.now == s.now
    ensures s'.maxsize == s.maxsize && s'.block == s.block && s'.keepAlive == s.keepAlive
    ensures s'.stack == s.stack + if |s.stack| < s.maxsize then [Empty] else []
    ensures s'.sweeper == s.sweeper.(phase := Sorting, next := s.sweeper.next + 1)
  {
  }

  lemma SortKeepsSlots(s: State, raises: bool, s': State)
    requires SlotsOk(s) && SortStep(s, raises) == Some(s')
    ensures SlotsOk(s')
  {
    SortFrame(s, raises, s');
    hide Busy, SortStep;
  }

  lemma PutKeepsSlots(s: State, s': State)
    requires SlotsOk(s) && PutStep(s) == Some(s')
    ensures SlotsOk(s')
  {
    hide Busy;
  }

  lemma RecoverKeepsSlots(s: State, raises: bool, s': State)
    requires SlotsOk(s) && RecoverStep(s, raises) == Some(s')
    ensures SlotsOk(s')
  {
    RecoverFrame(s, raises, s');
    hide Busy, RecoverStep;
  }

  // ---------- Connections ----------

  /** The recorded open time is there, and no later than the socket's actual connect. */
  ghost predicate Tracked(s: State, id: ConnId) {
    && id in s.openedAt && s.openedAt[id] <= s.now
    && (id in s.connectedAt ==> s.openedAt[id] <= s.connectedAt[id] <= s.now)
  }

  /** The sweeper still holds item j. */
  ghost predicate Pending(sweeper: Sweeper, j: nat) {
    && sweeper.next <= j < |sweeper.items|
    && (j == sweeper.next ==>
          match sweeper.phase
          case PuttingBack(slot) => slot == sweeper.items[j]
          case Recovering(slot) => slot == sweeper.items[j]
          case _ => true)
  }

  ghost predicate StackOk(s: State) {
    forall i :: 0 <= i < |s.stack| && s.stack[i].Holds? ==>
                  s.stack[i].id < |s.loc| && s.loc[s.stack[i].id] == Queued(i)
  }

  ghost predicate RequestsOk(s: State) {
    forall t :: 0 <= t < |s.requests| && (s.requests[t].Checking? || s.requests[t].Using?) ==>
                  s.requests[t].id < |s.loc| && s.loc[s.requests[t].id] == Out(t)
  }

  ghost predicate ItemsOk(s: State) {
    && ((s.sweeper.phase.PuttingBack? || s.sweeper.phase.Recovering?) && s.sweeper.phase.slot.Holds?
        && s.sweeper.next < |s.sweeper.items| ==>
          s.sweeper.phase.slot == s.sweeper.items[s.sweeper.next])
    && forall j :: 0 <= j < |s.sweeper.items| && Pending(s.sweeper, j) && s.sweeper.items[j].Holds? ==>
                     s.sweeper.items[j].id < |s.loc| && s.loc[s.sweeper.items[j].id] == Drained(j)
  }

  ghost predicate ConnOk(s: State, id: ConnId)
    requires id < |s.loc|
  {
    match s.loc[id]
    case Queued(i) => i < |s.stack| && s.stack[i] == Holds(id) && Tracked(s, id)
    case Out(t) =>
      && t < |s.requests|
      && (s.requests[t] == Using(id) || s.requests[t] == Checking(id))
      && (s.requests[t] == Using(id) || id in s.connectedAt ==> Tracked(s, id))
    case Drained(j) => Pending(s.sweeper, j) && s.sweeper.items[j] == Holds(id) && Tracked(s, id)
    case Discarded => id in s.closes
  }

  ghost predicate ConnsOk(s: State) {
    && (forall id :: 0 <= id < |s.loc| ==> ConnOk(s, id))
    && (forall id: ConnId :: id in s.connectedAt ==> id < |s.loc|)
    && s.sweeper.at <= s.now
  }

  /** A connection whose last close() returned has no open socket, until it is opened again. */
  ghost predicate ClosesOk(s: State) {
    forall id: ConnId :: id in s.closes && !s.closes[id] ==> id !in s.connectedAt
  }

  ghost predicate Inv(s: State) {
    SlotsOk(s) && StackOk(s) && RequestsOk(s) && ItemsOk(s) && ConnsOk(s) && ClosesOk(s)
  }

  lemma CheckOutKeepsCloses(s: State, t: nat, dropped: bool, s': State)
    requires ClosesOk(s) && t < |s.requests| && CheckOutStep(s, t, dropped) == Some(s')
    ensures ClosesOk(s')
  {
    hide OverAge;
  }

  lemma InspectKeepsCloses(s: State, t: nat, raises: bool, s': State)
    requires ClosesOk(s) && t < |s.requests| && InspectStep(s, t, raises) == Some(s')
    ensures ClosesOk(s')
  {
    hide OverAge;
  }

  lemma UseKeepsCloses(s: State, t: nat, connect: bool, s': State)
    requires ClosesOk(s) && t < |s.requests| && UseStep(s, t, connect) == Some(s')
    ensures ClosesOk(s')
  {
    hide OverAge;
  }

  lemma ReturnKeepsCloses(s: State, t: nat, healthy: bool, s': State)
    requires ClosesOk(s) && t < |s.requests| && ReturnStep(s, t, healthy) == Some(s')
    ensures ClosesOk(s')
  {
    hide OverAge;
  }

  lemma SortKeepsCloses(s: State, raises: bool, s': State)
    requires ClosesOk(s) && SortStep(s, raises) == Some(s')
    ensures ClosesOk(s')
  {
    hide OverAge;
  }

  lemma RecoverKeepsCloses(s: State, raises: bool, s': State)
    requires ClosesOk(s) && RecoverStep(s, raises) == Some(s')
    ensures ClosesOk(s')
  {
    hide OverAge;
  }

  lemma StepKeepsCloses(s: State, action: Action, s': State)
    requires ClosesOk(s) && Step(s, action) == Some(s')
    ensures ClosesOk(s')
  {
    hide CheckOutStep, InspectStep, UseStep, ReturnStep, SortStep, RecoverStep;
    match action
    case CheckOut(t, dropped) => CheckOutKeepsCloses(s, t, dropped, s');
    case Inspect(t, raises) => InspectKeepsCloses(s, t, raises, s');
    case Connect(t) => UseKeepsCloses(s, t, true, s');
    case Disconnect(t) => UseKeepsCloses(s, t, false, s');
    case Return(t, healthy) => ReturnKeepsCloses(s, t, healthy, s');
    case SweepSort(raises) => SortKeepsCloses(s, raises, s');
    case SweepRecover(raises) => RecoverKeepsCloses(s, raises, s');
    case _ =>
  }

  lemma StepKeepsSize(s: State, action: Action, s': State)
    requires Step(s, action) == Some(s')
    ensures s'.maxsize == s.maxsize && s'.block == s.block && s'.keepAlive == s.keepAlive
  {
    hide OverAge;
    match action
    case CheckOut(_, _) => hide InspectStep, UseStep, ReturnStep, TakeStep, SortStep, PutStep, RecoverStep;
    case Inspect(_, _) => hide CheckOutStep, UseStep, ReturnStep, TakeStep, SortStep, PutStep, RecoverStep;
    case Return(_, _) => hide CheckOutStep, InspectStep, UseStep, TakeStep, SortStep, PutStep, RecoverStep;
    case SweepSort(raises) =>
      hide CheckOutStep, InspectStep, UseStep, ReturnStep, TakeStep, SortStep, PutStep, RecoverStep;
      SortFrame(s, raises, s');
    case SweepRecover(raises) =>
      hide CheckOutStep, InspectStep, UseStep, ReturnStep, TakeStep, SortStep, PutStep, RecoverStep;
      RecoverFrame(s, raises, s');
    case _ => hide CheckOutStep, InspectStep, ReturnStep, SortStep, RecoverStep;
  }

  lemma CheckOutRequests(s: State, t: nat, dropped: bool, s': State)
    requires Inv(s) && t < |s.requests| && CheckOutStep(s, t, dropped) == Some(s')
    ensures RequestsOk(s')
  {
    hide OverAge, SlotsOk, ConnsOk, ClosesOk, ItemsOk;
  }

  lemma CheckOutQueued(s: State, t: nat, dropped: bool, s': State)
    requires Inv(s) && t < |s.requests| && CheckOutStep(s, t, dropped) == Some(s')
    ensures StackOk(s') && ItemsOk(s')
  {
    hide OverAge, SlotsOk, ConnsOk, ClosesOk, RequestsOk;
  }

  lemma CheckOutConn(s: State, t: nat, dropped: bool, s': State, id: ConnId)
    requires t < |s.requests| && CheckOutStep(s, t, dropped) == Some(s') && SweeperOk(s.sweeper) && id < |s'.loc|
    requires (id < |s.loc| ==> ConnOk(s, id)) && (forall c: ConnId :: c in s.connectedAt ==> c < |s.loc|)
    requires s.stack != [] && s.stack[|s.stack| - 1].Holds? && s.stack[|s.stack| - 1].id < |s.loc| ==>
               s.loc[s.stack[|s.stack| - 1].id] == Queued(|s.stack| - 1)
    ensures ConnOk(s', id)
  {
    hide OverAge;
  }

  lemma CheckOutConns(s: State, t: nat, dropped: bool, s': State)
    requires Inv(s) && t < |s.requests| && CheckOutStep(s, t, dropped) == Some(s')
    ensures ConnsOk(s')
  {
    forall id | 0 <= id < |s'.loc| ensures ConnOk(s', id) {
      CheckOutConn(s, t, dropped, s', id);
    }
    hide SlotsOk, StackOk, RequestsOk, ItemsOk, ClosesOk, ConnOk, OverAge;
  }

  lemma InspectRequests(s: State, t: nat, raises: bool, s': State)
    requires Inv(s) && t < |s.requests| && InspectStep(s, t, raises) == Some(s')
    ensures RequestsOk(s')
  {
    hide OverAge, SlotsOk, ConnsOk, ClosesOk, ItemsOk;
  }

  lemma InspectQueued(s: State, t: nat, raises: bool, s': State)
    requires Inv(s) && t < |s.requests| && InspectStep(s, t, raises) == Some(s')
    ensures StackOk(s') && ItemsOk(s')
  {
    assert s.requests[t].Checking? ==> s.loc[s.requests[t].id] == Out(t);
    hide OverAge, SlotsOk, ConnsOk, ClosesOk, RequestsOk;
  }

  lemma InspectConn(s: State, t: nat, raises: bool, s': State, id: ConnId)
    requires t < |s.requests| && InspectStep(s, t, raises) == Some(s') && SweeperOk(s.sweeper) && id < |s'.loc|
    requires (id < |s.loc| ==> ConnOk(s, id)) && (forall c: ConnId :: c in s.connectedAt ==> c < |s.loc|)
    requires s.requests[t].Checking? && s.requests[t].id < |s.loc| ==> s.loc[s.requests[t].id] == Out(t)
    ensures ConnOk(s', id)
  {
    hide OverAge;
  }

  lemma InspectConns(s: State, t: nat, raises: bool, s': State)
    requires Inv(s) && t < |s.requests| && InspectStep(s, t, raises) == Some(s')
    ensures ConnsOk(s')
  {
    forall id | 0 <= id < |s'.loc| ensures ConnOk(s', id) {
      InspectConn(s, t, raises, s', id);
    }
    hide SlotsOk, StackOk, RequestsOk, ItemsOk, ClosesOk, ConnOk, OverAge;
  }

  lemma UseOk(s: State, t: nat, connect: bool, s': State)
    requires Inv(s) && t < |s.requests| && UseStep(s, t, connect) == Some(s')
    ensures SlotsOk(s') && StackOk(s') && RequestsOk(s') && ItemsOk(s') && ConnsOk(s')
  {
    hide Busy;
    forall id | 0 <= id < |s'.loc| ensures ConnOk(s', id) {
      assert id < |s.loc| ==> ConnOk(s, id);
    }
  }

  lemma ReturnPlaces(s: State, t: nat, healthy: bool, s': State)
    requires Inv(s) && t < |s.requests| && ReturnStep(s, t, healthy) == Some(s')
    ensures StackOk(s') && RequestsOk(s') && ItemsOk(s')
  {
    hide OverAge, Tracked, SlotsOk, ConnsOk, ClosesOk;
  }

  lemma ReturnConn(s: State, t: nat, healthy: bool, s': State, id: ConnId)
    requires t < |s.requests| && ReturnStep(s, t, healthy) == Some(s') && SweeperOk(s.sweeper) && id < |s'.loc|
    requires (id < |s.loc| ==> ConnOk(s, id)) && (forall c: ConnId :: c in s.connectedAt ==> c < |s.loc|)
    requires s.requests[t].Using? && s.requests[t].id < |s.loc| ==> s.loc[s.requests[t].id] == Out(t)
    ensures ConnOk(s', id)
  {
    hide OverAge;
  }

  lemma ReturnConns(s: State, t: nat, healthy: bool, s': State)
    requires Inv(s) && t < |s.requests| && ReturnStep(s, t, healthy) == Some(s')
    ensures ConnsOk(s')
  {
    forall id | 0 <= id < |s'.loc| ensures ConnOk(s', id) {
      ReturnConn(s, t, healthy, s', id);
    }
    hide SlotsOk, StackOk, RequestsOk, ItemsOk, ClosesOk, ConnOk, OverAge;
  }

  lemma TakeQueued(s: State, s': State)
    requires Inv(s) && TakeStep(s) == Some(s')
    ensures StackOk(s') && RequestsOk(s')
  {
    hide SlotsOk, ConnsOk, ClosesOk, ItemsOk;
  }

  lemma TakeItems(s: State, s': State)
    requires Inv(s) && TakeStep(s) == Some(s')
    ensures ItemsOk(s')
  {
    assert s.sweeper.next == 0;
    hide SlotsOk, ConnsOk, ClosesOk, RequestsOk;
  }

  lemma TakeConn(s: State, s': State, id: ConnId)
    requires TakeStep(s) == Some(s') && SweeperOk(s.sweeper) && id < |s'.loc|
    requires (id < |s.loc| ==> ConnOk(s, id)) && (forall c: ConnId :: c in s.connectedAt ==> c < |s.loc|)
    requires s.stack != [] && s.stack[|s.stack| - 1].Holds? && s.stack[|s.stack| - 1].id < |s.loc| ==>
               s.loc[s.stack[|s.stack| - 1].id] == Queued(|s.stack| - 1)
    ensures ConnOk(s', id)
  {
    hide OverAge;
  }

  lemma TakeConns(s: State, s': State)
    requires Inv(s) && TakeStep(s) == Some(s')
    ensures ConnsOk(s')
  {
    forall id | 0 <= id < |s'.loc| ensures ConnOk(s', id) {
      TakeConn(s, s', id);
    }
    hide SlotsOk, StackOk, RequestsOk, ItemsOk, ClosesOk, ConnOk, OverAge;
  }

  /** The next item is a connection over the limit. */
  predicate Evicting(s: State) {
    var sw := s.sweeper;
    sw.next < |sw.items| && sw.items[sw.next].Holds? && OverAge(s.openedAt, sw.items[sw.next].id, sw.at, s.keepAlive)
  }

  lemma EvictPlaces(s: State, raises: bool, s': State)
    requires Inv(s) && SortStep(s, raises) == Some(s')
    requires Evicting(s)
    ensures StackOk(s') && RequestsOk(s') && ItemsOk(s')
  {
    hide Tracked, SlotsOk, ConnsOk, ClosesOk;
  }

  lemma KeepPlaces(s: State, raises: bool, s': State)
    requires Inv(s) && SortStep(s, raises) == Some(s')
    requires !Evicting(s)
    ensures StackOk(s') && RequestsOk(s') && ItemsOk(s')
  {
    hide Tracked, SlotsOk, ConnsOk, ClosesOk;
  }

  lemma EvictConns(s: State, raises: bool, s': State)
    requires Inv(s) && SortStep(s, raises) == Some(s')
    requires Evicting(s)
    ensures ConnsOk(s')
  {
    hide Busy, Slots, StackOk, RequestsOk;
    forall id | 0 <= id < |s'.loc| ensures ConnOk(s', id) {
      assert id < |s.loc| ==> ConnOk(s, id);
    }
  }

  lemma KeepConns(s: State, raises: bool, s': State)
    requires Inv(s) && SortStep(s, raises) == Some(s')
    requires !Evicting(s)
    ensures ConnsOk(s')
  {
    hide Busy, Slots, StackOk, RequestsOk;
    forall id | 0 <= id < |s'.loc| ensures ConnOk(s', id) {
      assert id < |s.loc| ==> ConnOk(s, id);
    }
  }

  lemma RefillPlaces(s: State, s': State)
    requires Inv(s) && PutStep(s) == Some(s')
    requires |s.stack| < s.maxsize
    ensures StackOk(s') && RequestsOk(s') && ItemsOk(s')
  {
    hide Busy, Tracked, Slots, ConnsOk, ClosesOk;
  }

  lemma RefusedPlaces(s: State, s': State)
    requires Inv(s) && PutStep(s) == Some(s')
    requires |s.stack| >= s.maxsize
    ensures StackOk(s') && RequestsOk(s') && ItemsOk(s')
  {
    hide Busy, Tracked, Slots, ConnsOk, ClosesOk;
  }

  lemma RefillConns(s: State, s': State)
    requires Inv(s) && PutStep(s) == Some(s')
    requires |s.stack| < s.maxsize
    ensures ConnsOk(s')
  {
    hide Busy, Slots, StackOk, RequestsOk;
    forall id | 0 <= id < |s'.loc| ensures ConnOk(s', id) {
      assert id < |s.loc| ==> ConnOk(s, id);
    }
  }

  lemma RefusedConns(s: State, s': State)
    requires Inv(s) && PutStep(s) == Some(s')
    requires |s.stack| >= s.maxsize
    ensures ConnsOk(s')
  {
    hide Busy, Slots, StackOk, RequestsOk;
    forall id | 0 <= id < |s'.loc| ensures ConnOk(s', id) {
      assert id < |s.loc| ==> ConnOk(s, id);
    }
  }

  lemma RecoverPlaces(s: State, raises: bool, s': State)
    requires Inv(s) && RecoverStep(s, raises) == Some(s')
    ensures StackOk(s') && RequestsOk(s') && ItemsOk(s')
  {
    hide OverAge, Busy, Tracked, Slots, ConnsOk, ClosesOk;
  }

  lemma RecoverConn(s: State, raises: bool, s': State, id: ConnId)
    requires RecoverStep(s, raises) == Some(s') && SweeperOk(s.sweeper) && id < |s'.loc|
    requires (id < |s.loc| ==> ConnOk(s, id)) && (forall c: ConnId :: c in s.connectedAt ==> c < |s.loc|)
    ensures ConnOk(s', id)
  {
    hide OverAge;
  }

  lemma RecoverConns(s: State, raises: bool, s': State)
    requires Inv(s) && RecoverStep(s, raises) == Some(s')
    ensures ConnsOk(s')
  {
    forall id | 0 <= id < |s'.loc| ensures ConnOk(s', id) {
      RecoverConn(s, raises, s', id);
    }
    hide SlotsOk, StackOk, RequestsOk, ItemsOk, ClosesOk, ConnOk, OverAge;
  }

  lemma StepKeepsInv(s: State, action: Action, s': State)
    requires Inv(s) && Step(s, action) == Some(s')
    ensures Inv(s') && s'.maxsize == s.maxsize && s'.block == s.block && s'.keepAlive == s.keepAlive
  {
    StepKeepsCloses(s, action, s');
    StepKeepsSize(s, action, s');
    hide CheckOutStep, InspectStep, UseStep, ReturnStep, TakeStep, SortStep, PutStep, RecoverStep;
    hide SlotsOk, StackOk, RequestsOk, ItemsOk, ConnsOk, ClosesOk;
    match action
    case Pass(_) => PassOk(s, s');
    case CheckOut(t, dropped) =>
      CheckOutKeepsSlots(s, t, dropped, s');
      CheckOutRequests(s, t, dropped, s');
      CheckOutQueued(s, t, dropped, s');
      CheckOutConns(s, t, dropped, s');
    case Inspect(t, raises) =>
      InspectKeepsSlots(s, t, raises, s');
      InspectRequests(s, t, raises, s');
      InspectQueued(s, t, raises, s');
      InspectConns(s, t, raises, s');
    case Connect(t) => UseOk(s, t, true, s');
    case Disconnect(t) => UseOk(s, t, false, s');
    case Return(t, healthy) =>
      ReturnKeepsSlots(s, t, healthy, s');
      ReturnPlaces(s, t, healthy, s');
      ReturnConns(s, t, healthy, s');
    case SweepStart => StartOk(s, s');
    case SweepTake =>
      TakeKeepsSlots(s, s');
      TakeQueued(s, s');
      TakeItems(s, s');
      TakeConns(s, s');
    case SweepSort(raises) =>
      SortKeepsSlots(s, raises, s');
      if Evicting(s) {
        EvictPlaces(s, raises, s');
        EvictConns(s, raises, s');
      } else {
        KeepPlaces(s, raises, s');
        KeepConns(s, raises, s');
      }
    case SweepPut =>
      PutKeepsSlots(s, s');
      if |s.stack| < s.maxsize {
        RefillPlaces(s, s');
        RefillConns(s, s');
      } else {
        RefusedPlaces(s, s');
        RefusedConns(s, s');
      }
    case SweepRecover(raises) =>
      RecoverKeepsSlots(s, raises, s');
      RecoverPlaces(s, raises, s');
      RecoverConns(s, raises, s');
  }

  lemma PassOk(s: State, s': State)
    requires Inv(s) && s.now <= s'.now && s' == s.(now := s'.now)
    ensures Inv(s')
  {
    hide Busy;
    forall id | 0 <= id < |s'.loc| ensures ConnOk(s', id) {
      assert id < |s.loc| ==> ConnOk(s, id);
    }
  }

  lemma StartOk(s: State, s': State)
    requires Inv(s) && Step(s, SweepStart) == Some(s')
    ensures Inv(s')
  {
    hide Busy;
    forall id | 0 <= id < |s'.loc| ensures ConnOk(s', id) {
      assert id < |s.loc| ==> ConnOk(s, id);
    }
  }

  lemma {:induction false} ExecKeepsInv(s: State, actions: seq<Action>, s': State)
    requires Inv(s) && Exec(s, actions) == Some(s')
    ensures Inv(s') && s'.maxsize == s.maxsize && s'.block == s.block && s'.keepAlive == s.keepAlive
    decreases |actions|
  {
    hide Inv, Step;
    if actions != [] {
      var mid := Step(s, actions[0]).value;
      StepKeepsInv(s, actions[0], mid);
      ExecKeepsInv(mid, actions[1..], s');
    }
  }

  lemma {:induction false} AllFree(threads: nat)
    ensures Busy(seq(threads, _ => Free)) == 0
  {
    if threads > 0 {
      AllFree(threads - 1);
      assert seq(threads, _ => Free)[1..] == seq(threads - 1, _ => Free);
    }
  }

  lemma InitOk(maxsize: nat, block: bool, keepAlive: real, now: real, threads: nat)
    ensures Inv(InitState(maxsize, block, keepAlive, now, threads))
  {
    AllFree(threads);
  }

  lemma ReachableInv(s: State)
    requires Reachable(s)
    ensures Inv(s) && s.maxsize > 0 && s.keepAlive > 0.0
  {
    hide Inv, Exec;
    var maxsize, block, keepAlive, now, threads: nat, actions :|
      maxsize > 0 && keepAlive > 0.0 && Exec(InitState(maxsize, block, keepAlive, now, threads), actions) == Some(s);
    InitOk(maxsize, block, keepAlive, now, threads);
    ExecKeepsInv(InitState(maxsize, block, keepAlive, now, threads), actions, s);
  }

  // ---------- What follows for every reachable pool ----------

  /** With `block`, the slots queued, checked out and held by the sweeper always add up to the pool
      size, and whoever still owes the pool a slot finds room: no put is refused. */
  lemma BlockingPoolConservesSlots(s: State)
    requires Reachable(s) && s.block
    ensures Slots(s) == s.maxsize
    ensures Busy(s.requests) > 0 || Held(s.sweeper) > 0 ==> forall slot :: Put(s, slot).Some?
  {
    ReachableInv(s);
  }

  /** Without `block` they never add up to less, so overflow connections come and go but a quiet
      pool, of either kind, has exactly its size in the LIFO. */
  lemma QuietPoolIsFull(s: State)
    requires Reachable(s)
    ensures Slots(s) >= s.maxsize >= |s.stack|
    ensures Busy(s.requests) == 0 && s.sweeper.phase.Asleep? ==> |s.stack| == s.maxsize
  {
    ReachableInv(s);
  }

  /** Every connection ever created is in exactly one place: in one slot of the LIFO, with one request, among
      the items the sweeper still holds, or let go. One let go had its close() called since its socket was
      last opened, so it has no open socket, unless that very call raised. */
  lemma NoConnectionLost(s: State, id: ConnId)
    requires Reachable(s) && id < |s.loc|
    ensures Holds(id) in s.stack
            || (exists t :: 0 <= t < |s.requests| && s.requests[t] in {Checking(id), Using(id)})
            || (exists j :: 0 <= j < |s.sweeper.items| && Pending(s.sweeper, j) && s.sweeper.items[j] == Holds(id))
            || (id in s.closes && (id in s.connectedAt ==> s.closes[id]))
    ensures forall i, j :: 0 <= i < j < |s.stack| && s.stack[i] == Holds(id) ==> s.stack[j] != Holds(id)
    ensures forall i, t :: 0 <= i < |s.stack| && 0 <= t < |s.requests| && s.stack[i] == Holds(id) ==>
                             s.requests[t] !in {Checking(id), Using(id)}
    ensures forall t, u :: 0 <= t < u < |s.requests| && s.requests[t] in {Checking(id), Using(id)} ==>
                             s.requests[u] !in {Checking(id), Using(id)}
  {
    ReachableInv(s);
    var l := s.loc[id];
    assert ConnOk(s, id);
    if l.Out? {
      assert s.requests[l.t] in {Checking(id), Using(id)};
    } else if l.Queued? {
      assert s.stack[l.i] == Holds(id);
    }
  }

  /** No request is handed a socket that has been open for longer than the limit, measured from its
      actual connect. */
  lemma NoStaleHandout(s: State, t: nat, raises: bool, s': State)
    requires Reachable(s) && t < |s.requests| && Step(s, Inspect(t, raises)) == Some(s')
    requires s'.requests[t].Using? && s'.requests[t].id in s'.connectedAt
    ensures s'.now - s'.connectedAt[s'.requests[t].id] <= s.keepAlive
  {
    ReachableInv(s);
    assert ConnOk(s, s.requests[t].id);
  }

  /** Every queued connection is tracked, with an open time no later than its actual connect. */
  lemma QueuedIsTracked(s: State, id: ConnId)
    requires Reachable(s) && Holds(id) in s.stack
    ensures Tracked(s, id)
  {
    ReachableInv(s);
    var i :| 0 <= i < |s.stack| && s.stack[i] == Holds(id);
    assert s.loc[id] == Queued(i);
    assert ConnOk(s, id);
  }

  // ---------- Sweeps end ----------

  /** A step of the sweep under way. */
  predicate SweeperAction(action: Action) {
    action.SweepTake? || action.SweepSort? || action.SweepPut? || action.SweepRecover?
  }

  /** Steps the sweep under way can still take, if it drains no more than the pool's size. */
  function SweepRank(s: State): int {
    var left := |s.sweeper.items| - s.sweeper.next;
    match s.sweeper.phase
    case Asleep => 0
    case Draining => (s.maxsize - |s.sweeper.items|) + 3 * s.maxsize + 2
    case Sorting => 3 * left + 1
    case PuttingBack(_) => 3 * left
    case Recovering(_) => 3 * left - 1
  }

  lemma SweepNears(s: State, action: Action, s': State)
    requires SlotsOk(s) && SlotsOk(s') && !action.SweepStart? && Step(s, action) == Some(s')
    requires s.block || !s.sweeper.phase.Draining?
    ensures s'.maxsize == s.maxsize && s'.block == s.block
    ensures s'.sweeper.phase.Draining? ==> s.sweeper.phase.Draining?
    ensures 0 <= SweepRank(s') <= SweepRank(s) - if SweeperAction(action) then 1 else 0
  {
    if SweeperAction(action) {
      SweeperNears(s, action, s');
    } else {
      StepKeepsSize(s, action, s');
      RankPositive(s);
      hide CheckOutStep, InspectStep, UseStep, ReturnStep, SlotsOk, SweepRank;
      RequestLeavesSweeper(s, action, s');
      assert SweepRank(s') == SweepRank(s) by {
        RankOf(s, s');
      }
    }
  }

  lemma RequestLeavesSweeper(s: State, action: Action, s': State)
    requires !SweeperAction(action) && !action.SweepStart? && Step(s, action) == Some(s')
    ensures s'.sweeper == s.sweeper
  {
  }

  lemma RankOf(s: State, s': State)
    requires s'.sweeper == s.sweeper && s'.maxsize == s.maxsize
    ensures SweepRank(s') == SweepRank(s)
  {
  }

  lemma SweeperNears(s: State, action: Action, s': State)
    requires SlotsOk(s) && SlotsOk(s') && SweeperAction(action) && Step(s, action) == Some(s')
    requires s.block || !s.sweeper.phase.Draining?
    ensures s'.maxsize == s.maxsize && s'.block == s.block
    ensures s'.sweeper.phase.Draining? ==> s.sweeper.phase.Draining?
    ensures 0 <= SweepRank(s') < SweepRank(s)
  {
    hide Busy, Slots, CheckOutStep, InspectStep, UseStep, ReturnStep, SortStep, RecoverStep;
    match action
    case SweepSort(raises) => SortFrame(s, raises, s');
    case SweepRecover(raises) => RecoverFrame(s, raises, s');
    case _ =>
  }

  function SweeperSteps(actions: seq<Action>): nat {
    if actions == [] then 0 else (if SweeperAction(actions[0]) then 1 else 0) + SweeperSteps(actions[1..])
  }

  lemma {:induction false} SweepRunsOut(s: State, actions: seq<Action>, s': State)
    requires Inv(s) && (s.block || !s.sweeper.phase.Draining?)
    requires (forall action :: action in actions ==> !action.SweepStart?) && Exec(s, actions) == Some(s')
    ensures 0 <= SweepRank(s') <= SweepRank(s) - SweeperSteps(actions)
    decreases |actions|
  {
    hide StackOk, RequestsOk, ItemsOk, ConnsOk, SlotsOk, Step;
    if actions == [] {
      RankPositive(s);
    } else {
      var mid := Step(s, actions[0]).value;
      StepKeepsInv(s, actions[0], mid);
      SweepNears(s, actions[0], mid);
      SweepRunsOut(mid, actions[1..], s');
    }
  }

  lemma RankPositive(s: State)
    requires SlotsOk(s) && (s.block || !s.sweeper.phase.Draining?)
    ensures 0 <= SweepRank(s)
    ensures SweepRank(s) <= if s.block then 4 * s.maxsize + 2 else 3 * |s.sweeper.items| + 1
  {
    hide Busy, Slots;
  }

  /** A sweep under way always has a step to take. */
  lemma SweeperCanStep(s: State) returns (action: Action)
    requires Inv(s) && !s.sweeper.phase.Asleep?
    ensures SweeperAction(action) && Step(s, action).Some?
  {
    hide ConnsOk, RequestsOk, Busy, Slots;
    match s.sweeper.phase
    case Draining => action := SweepTake;
    case Sorting =>
      assert s.sweeper.next < |s.sweeper.items| ==> Pending(s.sweeper, s.sweeper.next);
      action := SweepSort(false);
    case PuttingBack(slot) =>
      assert s.sweeper.items[s.sweeper.next] == slot || slot.Empty?;
      assert slot.Holds? ==> Pending(s.sweeper, s.sweeper.next);
      action := SweepPut;
    case Recovering(slot) =>
      assert s.sweeper.items[s.sweeper.next] == slot || slot.Empty?;
      assert slot.Holds? ==> Pending(s.sweeper, s.sweeper.next);
      action := SweepRecover(false);
  }

  /** With `block`, whatever requests do meanwhile, a sweep drains at most the pool's size and is over after
      4 * maxsize + 2 steps of its own. Without, that is true of what follows the drain, with three steps and
      one for each item drained. Until it is over it is never stuck. */
  lemma SweepEnds(s: State, actions: seq<Action>, s': State)
    requires Reachable(s) && (s.block || !s.sweeper.phase.Draining?)
    requires (forall action :: action in actions ==> !action.SweepStart?) && Exec(s, actions) == Some(s')
    ensures s.block ==> |s.sweeper.items| <= s.maxsize && SweeperSteps(actions) <= 4 * s.maxsize + 2
    ensures !s.block ==> SweeperSteps(actions) <= 3 * |s.sweeper.items| + 1
    ensures s'.sweeper.phase.Asleep? || exists action :: SweeperAction(action) && Step(s', action).Some?
  {
    ReachableInv(s);
    SweepRunsOut(s, actions, s');
    RankPositive(s);
    ExecKeepsInv(s, actions, s');
    hide Reachable, Step, Exec;
    if !s'.sweeper.phase.Asleep? {
      var action := SweeperCanStep(s');
    }
  }

  // ---------- Without `block`, churn can keep a drain going ----------

  /** One slot, one request, and a sweep that has drained n items: the request takes a new connection while
      the LIFO is empty, and returns it for the sweeper to drain. */
  ghost predicate Churned(s: State, n: nat) {
    && Reachable(s) && s.maxsize == 1 && !s.block
    && |s.requests| == 1 && s.requests[0].Free? && |s.stack| == 0
    && s.sweeper.phase.Draining? && |s.sweeper.items| == n
    && (forall id: ConnId :: id in s.connectedAt ==> id < |s.loc|)
  }

  /** So there is no bound on how much one sweep drains. */
  lemma {:induction false} DrainUnbounded(n: nat) returns (s: State)
    requires n >= 1
    ensures Churned(s, n)
  {
    if n == 1 {
      var s0 := InitState(1, false, 1.0, 0.0, 1);
      assert s0.requests == [Free] && s0.stack == [Empty];
      assert Exec(s0, []) == Some(s0);
      assert Reachable(s0);
      var s1 := Moved(s0, SweepStart);
      s := Moved(s1, SweepTake);
    } else {
      var s0 := DrainUnbounded(n - 1);
      s := DrainOneMore(s0, n - 1);
    }
  }

  lemma DrainOneMore(s: State, n: nat) returns (s': State)
    requires Churned(s, n)
    ensures Churned(s', n + 1)
  {
    var using := BorrowNew(s, n);
    var returned := ReturnIt(using);
    hide Reachable, Exec, CheckOutStep, InspectStep, ReturnStep;
    s' := Moved(returned, SweepTake);
  }

  lemma BorrowNew(s: State, n: nat) returns (s': State)
    requires Churned(s, n)
    ensures Reachable(s') && |s'.requests| == 1 && s'.requests[0] == Using(|s.loc|) && |s'.loc| == |s.loc| + 1
    ensures s' == s.(requests := s'.requests, loc := s'.loc, openedAt := s'.openedAt)
  {
    hide Reachable, Exec, ReturnStep, TakeStep;
    var checking := Moved(s, CheckOut(0, false));
    s' := Moved(checking, Inspect(0, false));
  }

  lemma ReturnIt(s: State) returns (s': State)
    requires Reachable(s) && s.maxsize == 1 && |s.stack| == 0
    requires |s.requests| == 1 && s.requests[0].Using? && s.requests[0].id < |s.loc|
    ensures Reachable(s') && |s'.requests| == 1 && s'.requests[0].Free? && |s'.loc| == |s.loc|
    ensures |s'.stack| == 1 && s'.stack[0] == Holds(s.requests[0].id)
    ensures s' == s.(requests := s'.requests, loc := s'.loc, stack := s'.stack)
  {
    hide Reachable, Exec, CheckOutStep, InspectStep, TakeStep;
    s' := Moved(s, Return(0, true));
  }

  lemma Moved(s: State, action: Action) returns (s': State)
    requires Reachable(s) && Step(s, action).Some?
    ensures Reachable(s') && Step(s, action) == Some(s')
  {
    hide Step;
    s' := Step(s, action).value;
    var maxsize, block, keepAlive, now, threads: nat, actions :|
      maxsize > 0 && keepAlive > 0.0 && Exec(InitState(maxsize, block, keepAlive, now, threads), actions) == Some(s);
    ExecOneMore(InitState(maxsize, block, keepAlive, now, threads), actions, s, action);
  }

  lemma {:induction false} ExecOneMore(s: State, actions: seq<Action>, s': State, action: Action)
    requires Exec(s, actions) == Some(s')
    ensures Exec(s, actions + [action]) == Step(s', action)
    decreases |actions|
  {
    hide Step;
    if actions == [] {
      assert (actions + [action])[1..] == [];
    } else {
      ExecOneMore(Step(s, actions[0]).value, actions[1..], s', action);
      assert (actions + [action])[1..] == actions[1..] + [action];
    }
  }
}
