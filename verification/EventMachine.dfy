/** The event queue under concurrency: any number of threads send events, the scheduler thread
    flushes, and a flush can itself send one event per batch through the token supplier. */
module EventMachine {
  import opened Wrappers
  import opened EventQueue

  /** A send has passed the size test and is about to put its event. */
  datatype Producer = Free | Putting(event: Event)

  /** The flush: asleep, about to read the queue size, taking `left` more of `total` events, or
      sending batch `next` (having asked for its token or not). */
  datatype Consumer =
    | Asleep
    | Sizing
    | Gathering(total: nat, left: nat, current: seq<Event>, batches: seq<seq<Event>>)
    | Sending(total: nat, batches: seq<seq<Event>>, next: nat, token: Token)

  datatype Token = NotAsked | Offering | Ready

  /** `accepted`, `flushed` and `own` are history: every event ever put, every batch whose sending
      was finished, and how many events the current flush itself put. */
  datatype State = State(
    cap: nat, max: nat,
    queue: seq<Event>, producers: seq<Producer>, consumer: Consumer,
    accepted: seq<Event>, flushed: seq<seq<Event>>, own: nat)

  datatype Action =
    | Offer(t: nat, event: Event)
    | Put(t: nat)
    | GiveUp(t: nat)
    | WakeUp
    | ReadSize
    | Take
    | AskToken(fetchFails: bool)
    | PutOwn
    | GiveUpOwn
    | Send

  /** enqueue_event tests the size first, so it may pass and then find the queue full after all. */
  function OfferStep(s: State, t: nat, event: Event): Option<State>
    requires t < |s.producers|
  {
    if s.producers[t] != Free then None
    else if |s.queue| >= s.cap then Some(s)
    else Some(s.(producers := s.producers[t := Putting(event)]))
  }

  /** The put itself waits while the queue is full, and gives up after its timeout. */
  function PutStep(s: State, t: nat, gaveUp: bool): Option<State>
    requires t < |s.producers|
  {
    if s.producers[t] == Free then None
    else if gaveUp then if |s.queue| >= s.cap then Some(s.(producers := s.producers[t := Free])) else None
    else if |s.queue| >= s.cap then None
    else Some(s.(producers := s.producers[t := Free], queue := s.queue + [s.producers[t].event],
                 accepted := s.accepted + [s.producers[t].event]))
  }

  function Finish(total: nat, current: seq<Event>, batches: seq<seq<Event>>): Consumer {
    Sending(total, if current == [] then batches else batches + [current], 0, NotAsked)
  }

  /** One round of the batching loop. Seeing an empty queue ends it early. */
  function TakeStep(s: State): Option<State> {
    match s.consumer
    case Gathering(total, left, current, batches) =>
      if left == 0 || s.queue == [] then Some(s.(consumer := Finish(total, current, batches)))
      else
        var grown := current + [s.queue[0]];
        Some(s.(queue := s.queue[1..],
                consumer := if |grown| == s.max then Gathering(total, left - 1, [], batches + [grown])
                            else Gathering(total, left - 1, grown, batches)))
    case _ => None
  }

  function TokenStep(s: State, fetchFails: bool): Option<State> {
    match s.consumer
    case Sending(total, batches, next, NotAsked) =>
      if next >= |batches| then None
      else Some(s.(consumer := Sending(total, batches, next, if fetchFails && |s.queue| < s.cap then Offering else Ready)))
    case _ => None
  }

  function OwnStep(s: State, gaveUp: bool): Option<State> {
    match s.consumer
    case Sending(total, batches, next, Offering) =>
      if gaveUp then
        if |s.queue| >= s.cap then Some(s.(consumer := Sending(total, batches, next, Ready))) else None
      else if |s.queue| >= s.cap then None
      else Some(s.(consumer := Sending(total, batches, next, Ready), queue := s.queue + [TokenFetchFailed],
                   accepted := s.accepted + [TokenFetchFailed], own := s.own + 1))
    case _ => None
  }

  /** The request for one batch, whatever its outcome; after the last batch the flush ends. */
  function SendStep(s: State): Option<State> {
    match s.consumer
    case Sending(total, batches, next, token) =>
      if next >= |batches| then Some(s.(consumer := Asleep))
      else if token.Ready? then
        Some(s.(consumer := Sending(total, batches, next + 1, NotAsked), flushed := s.flushed + [batches[next]]))
      else None
    case _ => None
  }

  function Step(s: State, action: Action): Option<State> {
    match action
    case Offer(t, event) => if t < |s.producers| then OfferStep(s, t, event) else None
    case Put(t) => if t < |s.producers| then PutStep(s, t, false) else None
    case GiveUp(t) => if t < |s.producers| then PutStep(s, t, true) else None
    case WakeUp =>
      if s.consumer.Asleep? then Some(if s.queue == [] then s else s.(consumer := Sizing, own := 0)) else None
    case ReadSize =>
      if s.consumer.Sizing? then Some(s.(consumer := Gathering(|s.queue|, |s.queue|, [], []))) else None
    case Take => TakeStep(s)
    case AskToken(fetchFails) => TokenStep(s, fetchFails)
    case PutOwn => OwnStep(s, false)
    case GiveUpOwn => OwnStep(s, true)
    case Send => SendStep(s)
  }

  function Exec(s: State, actions: seq<Action>): Option<State>
    decreases |actions|
  {
    if actions == [] then Some(s) else
    match Step(s, actions[0])
    case Some(s') => Exec(s', actions[1..])
    case None => None
  }

  function InitState(cap: nat, max: nat, threads: nat): State {
    State(cap, max, [], seq(threads, _ => Free), Asleep, [], [], 0)
  }

  ghost predicate Reachable(s: State) {
    exists cap, max, threads: nat, actions :: max >= 1 && Exec(InitState(cap, max, threads), actions) == Some(s)
  }

  // ---------- The invariant ----------

  /** The events taken out of the queue and not yet sent, in order. */
  function InFlight(consumer: Consumer): seq<Event> {
    match consumer
    case Gathering(_, _, current, batches) => Flatten(batches) + current
    case Sending(_, batches, next, _) => if next <= |batches| then Flatten(batches[next..]) else []
    case _ => []
  }

  ghost predicate ConsumerOk(s: State) {
    match s.consumer
    case Gathering(total, left, current, batches) =>
      && left <= |s.queue| && |Flatten(batches) + current| + left == total
      && (forall i :: 0 <= i < |batches| ==> |batches[i]| == s.max)
      && |current| < s.max && s.own == 0
    case Sending(total, batches, next, token) =>
      && next <= |batches| && IsBatching(batches, Flatten(batches), s.max) && |Flatten(batches)| == total
      && s.own <= next + (if token.Ready? then 1 else 0)
      && (next == |batches| ==> token.NotAsked?)
    case Sizing => s.own == 0
    case Asleep => true
  }

  ghost predicate Inv(s: State) {
    && s.max >= 1
    && |s.queue| <= s.cap
    && ConsumerOk(s)
    && Conserved(s)
  }

  /** Nothing accepted is lost, duplicated or reordered. */
  ghost predicate Conserved(s: State) {
    Flatten(s.flushed) + InFlight(s.consumer) + s.queue == s.accepted
  }

  lemma FlattenSnoc(batches: seq<seq<Event>>, batch: seq<Event>)
    ensures Flatten(batches + [batch]) == Flatten(batches) + batch
  {
    assert (batches + [batch])[..|batches|] == batches;
  }

  lemma {:induction false} FlattenCons(batch: seq<Event>, batches: seq<seq<Event>>)
    ensures Flatten([batch] + batches) == batch + Flatten(batches)
  {
    if batches == [] {
      FlattenSnoc([], batch);
      assert [batch] + batches == [] + [batch];
    } else {
      var front, last := batches[..|batches| - 1], batches[|batches| - 1];
      FlattenCons(batch, front);
      FlattenSnoc([batch] + front, last);
      assert [batch] + batches == ([batch] + front) + [last];
    }
  }

  lemma GatherKeepsInv(s: State, s': State)
    requires Inv(s) && TakeStep(s) == Some(s') && s'.consumer.Gathering?
    ensures Inv(s')
  {
    var Gathering(total, left, current, batches) := s.consumer;
    var sent, event, rest := Flatten(s.flushed), s.queue[0], s.queue[1..];
    FlattenSnoc(batches, current + [event]);
    var taken := InFlight(s.consumer);
    assert InFlight(s'.consumer) == taken + [event];
    hide Flatten;
    assert sent + (taken + [event]) + rest == sent + taken + ([event] + rest);
    assert s.queue == [event] + rest;
  }

  lemma FinishKeepsInv(s: State, s': State)
    requires Inv(s) && TakeStep(s) == Some(s') && s'.consumer.Sending?
    ensures Inv(s')
  {
    var Gathering(total, left, current, batches) := s.consumer;
    FlattenSnoc(batches, current);
    var all := s'.consumer.batches;
    assert all[0..] == all;
    assert Flatten(batches) + [] == Flatten(batches);
    assert (batches + [current])[..|batches|] == batches;
    hide Flatten;
  }

  lemma SendKeepsInv(s: State, s': State)
    requires Inv(s) && SendStep(s) == Some(s')
    ensures Inv(s')
  {
    SendConserves(s, s');
    hide IsBatching, Flatten, Conserved;
  }

  lemma SendConserves(s: State, s': State)
    requires Conserved(s) && SendStep(s) == Some(s')
    ensures Conserved(s')
  {
    assert Flatten([]) == [];
    hide Flatten;
    var Sending(total, batches, next, token) := s.consumer;
    if next < |batches| {
      BatchSent(s.flushed, batches, next, s.queue);
    } else if next == |batches| {
      assert batches[next..] == [];
    }
  }

  lemma BatchSent(flushed: seq<seq<Event>>, batches: seq<seq<Event>>, next: nat, queue: seq<Event>)
    requires next < |batches|
    ensures Flatten(flushed + [batches[next]]) + Flatten(batches[next + 1..]) + queue
            == Flatten(flushed) + Flatten(batches[next..]) + queue
  {
    hide Flatten;
    FlattenSnoc(flushed, batches[next]);
    FlattenCons(batches[next], batches[next + 1..]);
    assert batches[next..] == [batches[next]] + batches[next + 1..];
    Reassociate(Flatten(flushed), batches[next], Flatten(batches[next + 1..]), queue);
  }

  lemma Reassociate(a: seq<Event>, b: seq<Event>, c: seq<Event>, d: seq<Event>)
    ensures a + (b + c) + d == a + b + c + d
  {
  }

  /** A put appends one event to the queue and to the accepted events. */
  lemma PutKeepsInv(s: State, action: Action, s': State)
    requires Inv(s) && (action.Put? || action.PutOwn?) && Step(s, action) == Some(s')
    ensures Inv(s')
  {
    hide Flatten, IsBatching;
    var event := if action.Put? then s.producers[action.t].event else TokenFetchFailed;
    AppendLast(Flatten(s.flushed), InFlight(s.consumer), s.queue, [event]);
    assert InFlight(s'.consumer) == InFlight(s.consumer);
  }

  lemma AppendLast(a: seq<Event>, b: seq<Event>, c: seq<Event>, d: seq<Event>)
    ensures a + b + (c + d) == a + b + c + d
  {
  }

  /** The other steps move no event. */
  lemma QuietKeepsInv(s: State, action: Action, s': State)
    requires Inv(s) && !action.Take? && !action.Send? && !action.Put? && !action.PutOwn? && Step(s, action) == Some(s')
    ensures Inv(s')
  {
    assert Flatten([]) == [];
    hide Flatten, IsBatching;
    assert InFlight(s'.consumer) == InFlight(s.consumer);
  }

  lemma StepKeepsInv(s: State, action: Action, s': State)
    requires Inv(s) && Step(s, action) == Some(s')
    ensures Inv(s') && s'.cap == s.cap && s'.max == s.max
  {
    hide Inv;
    match action
    case Take =>
      if s'.consumer.Gathering? {
        GatherKeepsInv(s, s');
      } else {
        FinishKeepsInv(s, s');
      }
    case Send => SendKeepsInv(s, s');
    case Put(_) => PutKeepsInv(s, action, s');
    case PutOwn => PutKeepsInv(s, action, s');
    case _ => QuietKeepsInv(s, action, s');
  }

  lemma {:induction false} ExecKeepsInv(s: State, actions: seq<Action>, s': State)
    requires Inv(s) && Exec(s, actions) == Some(s')
    ensures Inv(s') && s'.cap == s.cap && s'.max == s.max
    decreases |actions|
  {
    hide Inv, Step;
    if actions != [] {
      var mid := Step(s, actions[0]).value;
      StepKeepsInv(s, actions[0], mid);
      ExecKeepsInv(mid, actions[1..], s');
    }
  }

  lemma ReachableInv(s: State)
    requires Reachable(s)
    ensures Inv(s)
  {
    var cap, max, threads: nat, actions :| max >= 1 && Exec(InitState(cap, max, threads), actions) == Some(s);
    ExecKeepsInv(InitState(cap, max, threads), actions, s);
  }

  // ---------- What holds in every run ----------

  /** Nothing accepted is lost, duplicated or reordered, and the queue never exceeds its cap: the
      batches sent, then those the flush still holds, then the queue, are the accepted events. */
  lemma NoEventLost(s: State)
    requires Reachable(s)
    ensures Flatten(s.flushed) + InFlight(s.consumer) + s.queue == s.accepted
    ensures |s.queue| <= s.cap
    ensures s.consumer.Asleep? ==> Flatten(s.flushed) + s.queue == s.accepted
  {
    ReachableInv(s);
    if s.consumer.Asleep? {
      assert Flatten(s.flushed) + [] + s.queue == Flatten(s.flushed) + s.queue;
    }
  }

  /** A flush takes exactly the events it counted, however many arrive meanwhile: it never sees the
      queue empty before its count is used up, and makes ceil(n / max) batches of them. */
  lemma FlushTakesItsCount(s: State)
    requires Reachable(s)
    ensures s.max >= 1
    ensures s.consumer.Gathering? ==> s.consumer.left <= |s.queue|
    ensures s.consumer.Sending? ==>
              && IsBatching(s.consumer.batches, Flatten(s.consumer.batches), s.max)
              && |Flatten(s.consumer.batches)| == s.consumer.total
              && |s.consumer.batches| == CeilDiv(s.consumer.total, s.max)
  {
    ReachableInv(s);
    if s.consumer.Sending? {
      BatchCount(s.consumer.batches, Flatten(s.consumer.batches), s.max);
    }
  }

  /** A flush of n events adds at most ceil(n / max) of its own, so flushing ends although it feeds
      the queue it empties. */
  lemma FlushFeedsItselfLess(s: State)
    requires Reachable(s) && s.consumer.Sending?
    ensures s.max >= 1 && s.own <= CeilDiv(s.consumer.total, s.max)
  {
    ReachableInv(s);
    FlushTakesItsCount(s);
  }

  function FlushRank(c: Consumer): int {
    match c
    case Gathering(_, left, _, batches) => 2 + left + 3 * (|batches| + left + 1)
    case Sending(_, batches, next, token) =>
      1 + 3 * (|batches| - next) - (match token case NotAsked => 0 case Offering => 1 case Ready => 2)
    case _ => 0
  }

  predicate Flushing(action: Action) {
    action.Take? || action.AskToken? || action.PutOwn? || action.GiveUpOwn? || action.Send?
  }

  /** Every step of a flush that has read its size brings it closer to its end, and it is never
      without a step to take. */
  lemma FlushEnds(s: State)
    requires Reachable(s) && (s.consumer.Gathering? || s.consumer.Sending?)
    ensures exists action :: Flushing(action) && Step(s, action).Some?
    ensures forall action, s' :: Flushing(action) && Step(s, action) == Some(s') ==>
                                   0 <= FlushRank(s'.consumer) < FlushRank(s.consumer)
  {
    ReachableInv(s);
    assert ConsumerOk(s);
    hide Reachable, Inv, Flatten, IsBatching;
    var action :=
      if s.consumer.Gathering? then Take
      else if s.consumer.next >= |s.consumer.batches| then Send
      else match s.consumer.token
           case NotAsked => AskToken(true)
           case Offering => if |s.queue| >= s.cap then GiveUpOwn else PutOwn
           case Ready => Send;
    assert Step(s, action).Some?;
    forall action, s' | Flushing(action) && Step(s, action) == Some(s')
      ensures 0 <= FlushRank(s'.consumer) < FlushRank(s.consumer)
    {
      FlushNears(s, action, s');
    }
  }

  lemma FlushNears(s: State, action: Action, s': State)
    requires s.consumer.Sending? ==>
               && s.consumer.next <= |s.consumer.batches|
               && (s.consumer.next == |s.consumer.batches| ==> s.consumer.token.NotAsked?)
    requires Flushing(action) && Step(s, action) == Some(s')
    ensures 0 <= FlushRank(s'.consumer) < FlushRank(s.consumer)
  {
  }

  // ---------- Repeated flushes with no producer ----------

  predicate ByConsumer(action: Action) {
    !action.Offer? && !action.Put? && !action.GiveUp?
  }

  /** The step ends a flush, be it one that found nothing to do. */
  predicate EndsFlush(s: State, s': State, action: Action) {
    (action.Send? && s'.consumer.Asleep?) || (action.WakeUp? && s.queue == [])
  }

  function FlushesIn(s: State, actions: seq<Action>): nat
    decreases |actions|
  {
    if actions == [] then 0 else
    match Step(s, actions[0])
    case Some(s') => (if EndsFlush(s, s', actions[0]) then 1 else 0) + FlushesIn(s', actions[1..])
    case None => 0
  }

  /** What n events have become after some complete flushes. */
  ghost predicate DrainedTo(s: State, n: nat, flushes: nat) {
    match s.consumer
    case Asleep => |s.queue| <= Backlog(n, flushes)
    case Sizing => |s.queue| <= Backlog(n, flushes)
    case Gathering(total, left, _, _) => total <= Backlog(n, flushes) && |s.queue| == left
    case Sending(total, _, _, _) => total <= Backlog(n, flushes) && |s.queue| == s.own
  }

  lemma StepDrains(s: State, action: Action, s': State, n: nat, flushes: nat)
    requires Inv(s) && s.max == MAX_EVENTS_IN_BATCH && DrainedTo(s, n, flushes)
    requires ByConsumer(action) && Step(s, action) == Some(s')
    ensures DrainedTo(s', n, flushes + if EndsFlush(s, s', action) then 1 else 0)
  {
    if s.consumer.Sending? {
      BatchCount(s.consumer.batches, Flatten(s.consumer.batches), s.max);
      CeilDivMonotone(s.consumer.total, Backlog(n, flushes), MAX_EVENTS_IN_BATCH);
    }
    hide IsBatching, Flatten;
  }

  lemma {:induction false} RunDrains(s: State, actions: seq<Action>, s': State, n: nat, flushes: nat)
    requires Inv(s) && s.max == MAX_EVENTS_IN_BATCH && DrainedTo(s, n, flushes)
    requires (forall action :: action in actions ==> ByConsumer(action)) && Exec(s, actions) == Some(s')
    ensures DrainedTo(s', n, flushes + FlushesIn(s, actions))
    decreases |actions|
  {
    hide Inv, Step, DrainedTo;
    if actions != [] {
      var mid := Step(s, actions[0]).value;
      StepDrains(s, actions[0], mid, n, flushes);
      StepKeepsInv(s, actions[0], mid);
      RunDrains(mid, actions[1..], s', n, flushes + if EndsFlush(s, mid, actions[0]) then 1 else 0);
    }
  }

  /** While no producer moves, k complete flushes bring a backlog of n down to n / 10^k, rounded up; five of
      them bring any backlog the source's cap allows down to one. */
  lemma FlushesShrinkBacklog(s: State, actions: seq<Action>, s': State)
    requires Reachable(s) && s.consumer.Asleep? && s.max == MAX_EVENTS_IN_BATCH
    requires (forall action :: action in actions ==> ByConsumer(action)) && Exec(s, actions) == Some(s')
    requires s'.consumer.Asleep?
    ensures |s'.queue| <= Backlog(|s.queue|, FlushesIn(s, actions))
    ensures s'.queue != [] ==> (|s'.queue| - 1) * Pow10(FlushesIn(s, actions)) < |s.queue|
    ensures s.cap <= MAX_TOTAL_EVENTS && FlushesIn(s, actions) >= 5 ==> |s'.queue| <= 1
  {
    ReachableInv(s);
    RunDrains(s, actions, s', |s.queue|, 0);
    BacklogCovers(|s'.queue|, |s.queue|, FlushesIn(s, actions));
    if s.cap <= MAX_TOTAL_EVENTS && FlushesIn(s, actions) >= 5 {
      FiveFlushesSuffice(|s.queue|, FlushesIn(s, actions));
    }
  }

  /** A step of the flushing thread while OAuth is down: every fetch it asks for fails. */
  predicate ByConsumerFailing(action: Action) {
    ByConsumer(action) && (action.AskToken? ==> action.fetchFails)
  }

  /** What n events have become if every fetch failed: exactly the bound. */
  ghost predicate FailedTo(s: State, n: nat, flushes: nat) {
    match s.consumer
    case Asleep => |s.queue| == Backlog(n, flushes)
    case Sizing => |s.queue| == Backlog(n, flushes)
    case Gathering(total, left, _, _) => total == Backlog(n, flushes) && |s.queue| == left
    case Sending(total, _, next, token) =>
      && total == Backlog(n, flushes)
      && |s.queue| == s.own == next + if token.Ready? then 1 else 0
  }

  lemma FailingStep(s: State, action: Action, s': State, n: nat, flushes: nat)
    requires Inv(s) && s.max == MAX_EVENTS_IN_BATCH && n <= s.cap && FailedTo(s, n, flushes)
    requires ByConsumerFailing(action) && Step(s, action) == Some(s')
    ensures FailedTo(s', n, flushes + if EndsFlush(s, s', action) then 1 else 0)
  {
    BacklogAtMost(n, flushes);
    if s.consumer.Sending? {
      BatchCount(s.consumer.batches, Flatten(s.consumer.batches), s.max);
      CeilDivAtMost(s.consumer.total);
    }
    hide IsBatching, Flatten;
  }

  lemma {:induction false} FailingRun(s: State, actions: seq<Action>, s': State, n: nat, flushes: nat)
    requires Inv(s) && s.max == MAX_EVENTS_IN_BATCH && n <= s.cap && FailedTo(s, n, flushes)
    requires (forall action :: action in actions ==> ByConsumerFailing(action)) && Exec(s, actions) == Some(s')
    ensures FailedTo(s', n, flushes + FlushesIn(s, actions))
    decreases |actions|
  {
    hide Inv, Step, FailedTo;
    if actions != [] {
      var mid := Step(s, actions[0]).value;
      FailingStep(s, actions[0], mid, n, flushes);
      StepKeepsInv(s, actions[0], mid);
      FailingRun(mid, actions[1..], s', n, flushes + if EndsFlush(s, mid, actions[0]) then 1 else 0);
    }
  }

  /** With OAuth down for good, k complete flushes leave exactly that many, and from the fifth on exactly one,
      if there was any: no failure event is refused for want of room. */
  lemma FlushesUnderFailure(s: State, actions: seq<Action>, s': State)
    requires Reachable(s) && s.consumer.Asleep? && s.max == MAX_EVENTS_IN_BATCH
    requires (forall action :: action in actions ==> ByConsumerFailing(action)) && Exec(s, actions) == Some(s')
    requires s'.consumer.Asleep?
    ensures |s'.queue| == Backlog(|s.queue|, FlushesIn(s, actions))
    ensures s.cap <= MAX_TOTAL_EVENTS && FlushesIn(s, actions) >= 5 ==> |s'.queue| == if s.queue == [] then 0 else 1
  {
    ReachableInv(s);
    FailingRun(s, actions, s', |s.queue|, 0);
    if s.cap <= MAX_TOTAL_EVENTS && FlushesIn(s, actions) >= 5 {
      FiveFlushesSuffice(|s.queue|, FlushesIn(s, actions));
    }
  }

  /** A step of the flushing thread while OAuth works: no fetch it asks for fails. */
  predicate ByConsumerSucceeding(action: Action) {
    ByConsumer(action) && (action.AskToken? ==> !action.fetchFails)
  }

  /** Where n events stand if no fetch fails: all gone with the first flush, and nothing put by it. */
  ghost predicate SucceededTo(s: State, n: nat, flushes: nat) {
    match s.consumer
    case Asleep => if flushes == 0 then |s.queue| == n else s.queue == [] && (n > 0 ==> s.own == 0)
    case Sizing => flushes == 0 && |s.queue| == n
    case Gathering(_, left, _, _) => flushes == 0 && |s.queue| == left
    case Sending(_, _, _, token) => flushes == 0 && s.queue == [] && s.own == 0 && !token.Offering?
  }

  lemma {:induction false} SucceedingRun(s: State, actions: seq<Action>, s': State, n: nat, flushes: nat)
    requires Inv(s) && SucceededTo(s, n, flushes)
    requires (forall action :: action in actions ==> ByConsumerSucceeding(action)) && Exec(s, actions) == Some(s')
    ensures SucceededTo(s', n, flushes + FlushesIn(s, actions))
    decreases |actions|
  {
    hide Inv, Step, SucceededTo;
    if actions != [] {
      var mid := Step(s, actions[0]).value;
      SucceedingStep(s, actions[0], mid, n, flushes);
      StepKeepsInv(s, actions[0], mid);
      SucceedingRun(mid, actions[1..], s', n, flushes + if EndsFlush(s, mid, actions[0]) then 1 else 0);
    }
  }

  lemma SucceedingStep(s: State, action: Action, s': State, n: nat, flushes: nat)
    requires Inv(s) && SucceededTo(s, n, flushes)
    requires ByConsumerSucceeding(action) && Step(s, action) == Some(s')
    ensures SucceededTo(s', n, flushes + if EndsFlush(s, s', action) then 1 else 0)
  {
    hide IsBatching, Flatten;
  }

  /** With OAuth up, one complete flush empties the queue and puts nothing into it; and it stays empty. */
  lemma FlushesUnderSuccess(s: State, actions: seq<Action>, s': State)
    requires Reachable(s) && s.consumer.Asleep?
    requires (forall action :: action in actions ==> ByConsumerSucceeding(action)) && Exec(s, actions) == Some(s')
    requires s'.consumer.Asleep? && FlushesIn(s, actions) >= 1
    ensures s'.queue == [] && (s.queue != [] ==> s'.own == 0)
  {
    ReachableInv(s);
    SucceedingRun(s, actions, s', |s.queue|, 0);
  }

  // ---------- Sends and flushes left alone ----------

  /** An event sent while there is room is appended to the queue; sent to a full queue it is dropped. */
  lemma SendAlone(s: State, t: nat, event: Event)
    requires t < |s.producers| && s.producers[t] == Free
    ensures |s.queue| < s.cap ==>
              Exec(s, [Offer(t, event), Put(t)]) == Some(s.(queue := s.queue + [event], accepted := s.accepted + [event]))
    ensures |s.queue| >= s.cap ==> Exec(s, [Offer(t, event)]) == Some(s)
  {
    if |s.queue| < s.cap {
      var s1 := s.(producers := s.producers[t := Putting(event)]);
      var s2 := s.(queue := s.queue + [event], accepted := s.accepted + [event]);
      assert s1.producers[t := Free] == s.producers;
      assert Step(s1, Put(t)) == Some(s2);
      assert Exec(s1, [Put(t)]) == Some(s2);
    }
  }

  /** A send that passed the size test always ends: with the event queued if there is room now, and
      otherwise, after its timeout, with the event dropped. */
  lemma PuttingEnds(s: State, t: nat)
    requires t < |s.producers| && s.producers[t].Putting?
    ensures var ended := s.(producers := s.producers[t := Free]);
            if |s.queue| < s.cap then
              && Step(s, Put(t)) == Some(ended.(queue := s.queue + [s.producers[t].event],
                                                accepted := s.accepted + [s.producers[t].event]))
              && Step(s, GiveUp(t)) == None
            else Step(s, Put(t)) == None && Step(s, GiveUp(t)) == Some(ended)
  {
  }

  lemma {:induction false} ExecThen(s: State, first: seq<Action>, mid: State, second: seq<Action>)
    requires Exec(s, first) == Some(mid)
    ensures Exec(s, first + second) == Exec(mid, second)
    decreases |first|
  {
    hide Step;
    if first == [] {
      assert first + second == second;
    } else {
      ExecThen(Step(s, first[0]).value, first[1..], mid, second);
      assert (first + second)[1..] == first[1..] + second;
    }
  }

  lemma {:induction false} BatchesAtMost(batches: seq<seq<Event>>)
    requires forall i :: 0 <= i < |batches| ==> |batches[i]| >= 1
    ensures |batches| <= |Flatten(batches)|
  {
    if batches != [] {
      BatchesAtMost(batches[..|batches| - 1]);
    }
  }

  /** The batching loop, undisturbed, empties the queue. */
  lemma {:induction false} GatherAlone(s: State) returns (actions: seq<Action>, s': State)
    requires Inv(s) && s.consumer.Gathering? && s.consumer.left == |s.queue|
    ensures Exec(s, actions) == Some(s') && forall action :: action in actions ==> action.Take?
    ensures Inv(s') && s'.consumer.Sending? && s'.consumer.next == 0 && s'.consumer.token.NotAsked?
    ensures s' == s.(queue := [], consumer := s'.consumer)
    decreases |s.queue|
  {
    var mid := TakeStep(s).value;
    StepKeepsInv(s, Take, mid);
    hide Inv, Exec;
    if s.queue == [] {
      actions, s' := [Take], mid;
      ExecOne(s, Take, mid);
    } else {
      var rest;
      rest, s' := GatherAlone(mid);
      ExecOne(s, Take, mid);
      ExecThen(s, [Take], mid, rest);
      actions := [Take] + rest;
    }
  }

  lemma ExecOne(s: State, action: Action, s': State)
    requires Step(s, action) == Some(s')
    ensures Exec(s, [action]) == Some(s')
  {
    hide Step;
  }

  /** Sending the batches, undisturbed: each is sent after one token request, whose failure puts one event. */
  lemma {:induction false} SendBatchesAlone(s: State, fetchFails: nat -> bool) returns (actions: seq<Action>, s': State)
    requires s.consumer.Sending? && s.consumer.token.NotAsked? && s.consumer.next <= |s.consumer.batches| <= s.cap
    requires s.queue == FailureEvents(s.consumer.next, fetchFails)
    ensures Exec(s, actions) == Some(s') && forall action :: action in actions ==> ByConsumer(action)
    ensures s'.consumer.Asleep? && s'.queue == FailureEvents(|s.consumer.batches|, fetchFails)
    ensures s'.flushed == s.flushed + s.consumer.batches[s.consumer.next..] && s'.producers == s.producers
    decreases |s.consumer.batches| - s.consumer.next
  {
    var Sending(total, batches, next, _) := s.consumer;
    if next == |batches| {
      actions, s' := [Send], s.(consumer := Asleep);
      ExecOne(s, Send, s');
      assert batches[next..] == [];
    } else {
      var first, mid := SendOneAlone(s, fetchFails);
      var rest;
      hide Exec;
      rest, s' := SendBatchesAlone(mid, fetchFails);
      ExecThen(s, first, mid, rest);
      actions := first + rest;
      assert batches[next..] == [batches[next]] + batches[next + 1..];
    }
  }

  lemma SendOneAlone(s: State, fetchFails: nat -> bool) returns (actions: seq<Action>, s': State)
    requires s.consumer.Sending? && s.consumer.token.NotAsked? && s.consumer.next < |s.consumer.batches| <= s.cap
    requires s.queue == FailureEvents(s.consumer.next, fetchFails)
    ensures Exec(s, actions) == Some(s') && forall action :: action in actions ==> ByConsumer(action)
    ensures s'.consumer == s.consumer.(next := s.consumer.next + 1) && s'.cap == s.cap && s'.producers == s.producers
    ensures s'.queue == FailureEvents(s.consumer.next + 1, fetchFails)
    ensures s'.flushed == s.flushed + [s.consumer.batches[s.consumer.next]]
  {
    var Sending(total, batches, next, _) := s.consumer;
    FailureEventsBound(next, fetchFails);
    var fails := fetchFails(next);
    var asked := s.(consumer := Sending(total, batches, next, if fails then Offering else Ready));
    assert Step(s, AskToken(fails)) == Some(asked);
    ExecOne(s, AskToken(fails), asked);
    var ready := s.(consumer := Sending(total, batches, next, Ready));
    actions := [AskToken(fails)];
    if fails {
      ready := ready.(queue := s.queue + [TokenFetchFailed], accepted := s.accepted + [TokenFetchFailed], own := s.own + 1);
      assert Step(asked, PutOwn) == Some(ready);
      ExecOne(asked, PutOwn, ready);
      ExecThen(s, actions, asked, [PutOwn]);
      actions := actions + [PutOwn];
    }
    s' := ready.(consumer := Sending(total, batches, next + 1, NotAsked), flushed := s.flushed + [batches[next]]);
    assert Step(ready, Send) == Some(s');
    ExecOne(ready, Send, s');
    ExecThen(s, actions, ready, [Send]);
    actions := actions + [Send];
  }

  /** A flush, undisturbed, does what the sequential flush does: it sends the whole queue as one batching and
      leaves one event for each failed token request. */
  lemma FlushAlone(s: State, fetchFails: nat -> bool) returns (actions: seq<Action>, s': State, sent: seq<seq<Event>>)
    requires Reachable(s) && s.consumer.Asleep?
    ensures Exec(s, [WakeUp] + actions) == Some(s') && forall action :: action in actions ==> ByConsumer(action)
    ensures s'.consumer.Asleep? && s'.producers == s.producers
    ensures s'.flushed == s.flushed + sent && IsBatching(sent, s.queue, s.max)
    ensures s'.queue == FailureEvents(|sent|, fetchFails)
  {
    ReachableInv(s);
    assert FailureEvents(0, fetchFails) == [];
    if s.queue == [] {
      actions, s', sent := [], s, [];
      ExecOne(s, WakeUp, s);
      assert [WakeUp] + actions == [WakeUp];
      return;
    }
    hide Reachable, FailureEvents, IsBatching, Flatten, Exec, ConsumerOk, Conserved;
    var sized := SizeAlone(s);
    var takes, gathered := GatherAlone(sized);
    hide Inv, Step, ByConsumer;
    ExecThen(s, [WakeUp] + [ReadSize], sized, takes);
    sent := gathered.consumer.batches;
    GatheredAll(s, gathered);
    var sends;
    sends, s' := SendBatchesAlone(gathered, fetchFails);
    ExecThen(s, [WakeUp] + [ReadSize] + takes, gathered, sends);
    actions := [ReadSize] + takes + sends;
    FlushScript(takes, sends);
    assert sent[0..] == sent;
  }

  lemma FlushScript(takes: seq<Action>, sends: seq<Action>)
    requires forall action :: action in takes ==> action.Take?
    requires forall action :: action in sends ==> ByConsumer(action)
    ensures [WakeUp] + ([ReadSize] + takes + sends) == [WakeUp] + [ReadSize] + takes + sends
    ensures forall action :: action in [ReadSize] + takes + sends ==> ByConsumer(action)
  {
  }

  lemma SizeAlone(s: State) returns (s': State)
    requires Inv(s) && s.consumer.Asleep? && s.queue != []
    ensures Exec(s, [WakeUp] + [ReadSize]) == Some(s') && Inv(s')
    ensures s' == s.(own := 0, consumer := Gathering(|s.queue|, |s.queue|, [], []))
  {
    var woken := s.(consumer := Sizing, own := 0);
    s' := woken.(consumer := Gathering(|s.queue|, |s.queue|, [], []));
    StepKeepsInv(s, WakeUp, woken);
    StepKeepsInv(woken, ReadSize, s');
    ExecOne(s, WakeUp, woken);
    ExecOne(woken, ReadSize, s');
    hide Exec, Inv;
    ExecThen(s, [WakeUp], woken, [ReadSize]);
  }

  lemma GatheredAll(s: State, s': State)
    requires Inv(s) && s.consumer.Asleep? && Inv(s') && s'.queue == []
    requires s'.consumer.Sending? && s'.consumer.next == 0
    requires s'.flushed == s.flushed && s'.accepted == s.accepted && s'.max == s.max && s'.cap == s.cap
    ensures IsBatching(s'.consumer.batches, s.queue, s.max) && |s'.consumer.batches| <= s.cap
  {
    var batches := s'.consumer.batches;
    assert batches[0..] == batches;
    var before := Flatten(s.flushed);
    assert before + Flatten(batches) + [] == before + Flatten(batches);
    assert before + [] + s.queue == before + s.queue;
    assert Flatten(batches) == (before + Flatten(batches))[|before|..] == (before + s.queue)[|before|..] == s.queue;
    BatchesAtMost(batches);
  }
}
