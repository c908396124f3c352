/** The bounded event queue and the publisher that flushes it in batches. */
module EventQueue {
  import opened Wrappers

  const MAX_TOTAL_EVENTS: nat := 20000
  const MAX_EVENTS_IN_BATCH: nat := 10

  /** What matters about an event here: the one the token service publishes when a fetch fails. */
  datatype Event = Business(id: nat) | TokenFetchFailed

  function Flatten(batches: seq<seq<Event>>): seq<Event> {
    if batches == [] then [] else Flatten(batches[..|batches| - 1]) + batches[|batches| - 1]
  }

  /** The events in order, every batch full except possibly the last, which is not empty. */
  ghost predicate IsBatching(batches: seq<seq<Event>>, events: seq<Event>, max: nat) {
    && Flatten(batches) == events
    && (forall i :: 0 <= i < |batches| - 1 ==> |batches[i]| == max)
    && (batches != [] ==> 1 <= |batches[|batches| - 1]| <= max)
  }

  function CeilDiv(n: nat, m: nat): nat
    requires m >= 1
  {
    (n + m - 1) / m
  }

  lemma {:induction false} FullLength(batches: seq<seq<Event>>, max: nat)
    requires forall i :: 0 <= i < |batches| ==> |batches[i]| == max
    ensures |Flatten(batches)| == |batches| * max
  {
    if batches != [] {
      var front := batches[..|batches| - 1];
      FullLength(front, max);
      assert |Flatten(batches)| == |Flatten(front)| + max;
      assert |batches| == |front| + 1;
      hide Flatten;
      assert (|front| + 1) * max == |front| * max + max;
    }
  }

  /** A batching of n events has ceil(n / max) batches. */
  lemma BatchCount(batches: seq<seq<Event>>, events: seq<Event>, max: nat)
    requires max >= 1 && IsBatching(batches, events, max)
    ensures |batches| == CeilDiv(|events|, max)
  {
    if batches == [] {
      assert (max - 1) / max == 0;
    } else {
      var front, last := batches[..|batches| - 1], |batches[|batches| - 1]|;
      FullLength(front, max);
      assert |events| + max - 1 == (last - 1) + |batches| * max;
      DivUnique(|batches|, max, last - 1);
    }
  }

  lemma DivUnique(q: nat, m: nat, r: nat)
    requires r < m
    ensures (r + q * m) / m == q
  {
    var x := r + q * m;
    var d := x / m;
    assert x == d * m + x % m;
    if d > q {
      assert (d - q) * m == d * m - q * m;
      MulAtLeast(d - q, m);
    } else if d < q {
      assert (q - d) * m == q * m - d * m;
      MulAtLeast(q - d, m);
    }
  }

  lemma MulAtLeast(a: nat, b: nat)
    requires a >= 1
    ensures a * b >= b
  {
  }

  /** ... and is the only one. */
  lemma {:induction false} BatchingUnique(a: seq<seq<Event>>, b: seq<seq<Event>>, events: seq<Event>, max: nat)
    requires max >= 1 && IsBatching(a, events, max) && IsBatching(b, events, max)
    ensures a == b
    decreases |a|
  {
    BatchCount(a, events, max);
    BatchCount(b, events, max);
    if a != [] {
      var n := |a| - 1;
      FullLength(a[..n], max);
      FullLength(b[..n], max);
      assert Flatten(a[..n]) == events[..n * max] == Flatten(b[..n]);
      assert a[n] == events[n * max..] == b[n];
      assert IsBatching(a[..n], events[..n * max], max) && IsBatching(b[..n], events[..n * max], max);
      BatchingUnique(a[..n], b[..n], events[..n * max], max);
      assert a == a[..n] + [a[n]] && b == b[..n] + [b[n]];
    }
  }

  class EventQueueHandler {
    var queue: seq<Event>

    ghost predicate Valid()
      reads this
    {
      |queue| <= MAX_TOTAL_EVENTS
    }

    constructor ()
      ensures Valid() && queue == []
    {
      queue := [];
    }

    /** Nothing is queued for None or when the queue is full. */
    method EnqueueEvent(data: Option<Event>)
      requires Valid()
      modifies this
      ensures Valid()
      ensures queue == if data == None || |old(queue)| >= MAX_TOTAL_EVENTS then old(queue)
                       else old(queue) + [data.value]
    {
      if data == None {
        return;
      }
      if |queue| >= MAX_TOTAL_EVENTS {
        return;
      }
      queue := queue + [data.value];
    }

    method Get() returns (event: Option<Event>)
      requires Valid()
      modifies this
      ensures Valid()
      ensures old(queue) == [] ==> event == None && queue == []
      ensures old(queue) != [] ==> event == Some(old(queue)[0]) && queue == old(queue)[1..]
    {
      if queue == [] {
        return None;
      }
      event := Some(queue[0]);
      queue := queue[1..];
    }
  }

  class QueuedEventPublisher {
    const handler: EventQueueHandler

    constructor (handler: EventQueueHandler)
      ensures this.handler == handler
    {
      this.handler := handler;
    }

    /** Empties the queue into batches. A batch size below one counts as one. */
    method CreateEventBatches(maxEvents: int) returns (batches: seq<seq<Event>>)
      requires handler.Valid()
      modifies handler
      ensures handler.queue == []
      ensures IsBatching(batches, old(handler.queue), if maxEvents < 1 then 1 else maxEvents)
    {
      var max := if maxEvents < 1 then 1 else maxEvents;
      ghost var before := handler.queue;
      batches := [];
      var current := [];
      var size := |handler.queue|;
      for i := 0 to size
        invariant handler.Valid() && handler.queue == before[i..]
        invariant Flatten(batches) + current == before[..i]
        invariant forall j :: 0 <= j < |batches| ==> |batches[j]| == max
        invariant |current| < max
      {
        var event := handler.Get();
        if event == None {
          break;
        }
        current := current + [event.value];
        assert Flatten(batches) + current == before[..i + 1];
        if |current| == max {
          assert (batches + [current])[..|batches|] == batches;
          batches := batches + [current];
          current := [];
        }
      }
      assert before[..size] == before;
      if current != [] {
        assert (batches + [current])[..|batches|] == batches;
        batches := batches + [current];
      }
    }

    /** One flush. For each batch the token supplier is asked for a token; when its fetch fails it
        publishes one event into this very queue. A failing send is swallowed. `fetchFails` says for
        which batches the fetch fails. */
    method SendEvents(fetchFails: nat -> bool) returns (flushed: seq<seq<Event>>)
      requires handler.Valid()
      modifies handler
      ensures handler.Valid()
      ensures IsBatching(flushed, old(handler.queue), MAX_EVENTS_IN_BATCH)
      ensures handler.queue == FailureEvents(|flushed|, fetchFails)
      ensures |handler.queue| == |Failing(|flushed|, fetchFails)|
      ensures forall event :: event in handler.queue ==> event == TokenFetchFailed
      ensures (forall i: nat :: i < |flushed| ==> !fetchFails(i)) ==> handler.queue == []
    {
      if handler.queue == [] {
        assert Failing(0, fetchFails) == {};
        return [];
      }
      flushed := CreateEventBatches(MAX_EVENTS_IN_BATCH);
      BatchCount(flushed, old(handler.queue), MAX_EVENTS_IN_BATCH);
      for i := 0 to |flushed|
        invariant handler.Valid() && handler.queue == FailureEvents(i, fetchFails)
      {
        FailureEventsBound(i, fetchFails);
        if fetchFails(i) {
          handler.EnqueueEvent(Some(TokenFetchFailed));
        }
      }
      FailureEventsCount(|flushed|, fetchFails);
      FailureEventsContent(|flushed|, fetchFails);
    }

    /** The scheduler's job, run again and again while nobody else sends. `fetchFails(k, i)` says whether
        the fetch for batch i of flush k fails. */
    method FlushRepeatedly(flushes: nat, fetchFails: (nat, nat) -> bool)
      requires handler.Valid()
      modifies handler
      ensures handler.Valid()
      ensures |handler.queue| <= Backlog(|old(handler.queue)|, flushes)
      ensures handler.queue != [] ==> (|handler.queue| - 1) * Pow10(flushes) < |old(handler.queue)|
      ensures (forall k, i :: fetchFails(k, i)) ==> |handler.queue| == Backlog(|old(handler.queue)|, flushes)
      ensures flushes > 0 ==> forall event :: event in handler.queue ==> event == TokenFetchFailed
      ensures flushes > 0 && (forall k, i :: !fetchFails(k, i)) ==> handler.queue == []
      ensures flushes >= 5 ==> |handler.queue| <= 1
      ensures flushes >= 5 && (forall k, i :: fetchFails(k, i)) && old(handler.queue) != [] ==>
                handler.queue == [TokenFetchFailed]
    {
      ghost var n := |handler.queue|;
      ghost var allFail, noneFails := forall k, i :: fetchFails(k, i), forall k, i :: !fetchFails(k, i);
      hide IsBatching, Flatten, FailureEvents, Failing;
      for k := 0 to flushes
        invariant handler.Valid() && |handler.queue| <= Backlog(n, k)
        invariant allFail ==> |handler.queue| == Backlog(n, k)
        invariant k > 0 ==> forall event :: event in handler.queue ==> event == TokenFetchFailed
        invariant k > 0 && noneFails ==> handler.queue == []
      {
        ghost var before := handler.queue;
        var fails: nat -> bool := (i: nat) => fetchFails(k, i);
        var flushed := SendEvents(fails);
        FlushBacklog(|before|, flushed, before, fails);
        CeilDivMonotone(|before|, Backlog(n, k), MAX_EVENTS_IN_BATCH);
        assert Backlog(|before|, 0) == |before|;
      }
      BacklogCovers(|handler.queue|, n, flushes);
      if flushes >= 5 {
        FiveFlushesSuffice(n, flushes);
        assert |handler.queue| == 1 ==> handler.queue == [handler.queue[0]] && handler.queue[0] in handler.queue;
      }
    }
  }

  /** The events published by the token supplier while the first n batches are sent. */
  function FailureEvents(n: nat, fetchFails: nat -> bool): seq<Event> {
    if n == 0 then []
    else FailureEvents(n - 1, fetchFails) + if fetchFails(n - 1) then [TokenFetchFailed] else []
  }

  lemma {:induction false} FailureEventsBound(n: nat, fetchFails: nat -> bool)
    ensures |FailureEvents(n, fetchFails)| <= n
    ensures (forall i: nat :: i < n ==> fetchFails(i)) ==> |FailureEvents(n, fetchFails)| == n
  {
    if n > 0 {
      FailureEventsBound(n - 1, fetchFails);
    }
  }

  /** The batches whose token request fails. */
  function Failing(n: nat, fetchFails: nat -> bool): set<nat> {
    set i: nat | i < n && fetchFails(i)
  }

  /** One event for each failed token request, and for no other. */
  lemma {:induction false} FailureEventsCount(n: nat, fetchFails: nat -> bool)
    ensures |FailureEvents(n, fetchFails)| == |Failing(n, fetchFails)|
    ensures (forall i: nat :: i < n ==> !fetchFails(i)) ==> FailureEvents(n, fetchFails) == []
  {
    if n == 0 {
      assert Failing(0, fetchFails) == {};
    } else {
      FailureEventsCount(n - 1, fetchFails);
      assert Failing(n, fetchFails) == Failing(n - 1, fetchFails) + if fetchFails(n - 1) then {n - 1} else {};
    }
  }

  lemma {:induction false} FailureEventsContent(n: nat, fetchFails: nat -> bool)
    ensures forall event :: event in FailureEvents(n, fetchFails) ==> event == TokenFetchFailed
  {
    if n > 0 {
      FailureEventsContent(n - 1, fetchFails);
    }
  }

  // ---------- Repeated flushes ----------

  /** An upper bound for the backlog after some flushes with no other producer. */
  function Backlog(n: nat, flushes: nat): nat {
    if flushes == 0 then n else CeilDiv(Backlog(n, flushes - 1), MAX_EVENTS_IN_BATCH)
  }

  function Pow10(n: nat): nat {
    if n == 0 then 1 else 10 * Pow10(n - 1)
  }

  /** A flush of n events leaves at most ceil(n / 10), and exactly that many if every fetch fails. */
  lemma FlushBacklog(n: nat, flushed: seq<seq<Event>>, events: seq<Event>, fetchFails: nat -> bool)
    requires IsBatching(flushed, events, MAX_EVENTS_IN_BATCH) && |events| == n
    ensures |FailureEvents(|flushed|, fetchFails)| <= Backlog(n, 1)
    ensures (forall i :: fetchFails(i)) ==> |FailureEvents(|flushed|, fetchFails)| == Backlog(n, 1)
  {
    BatchCount(flushed, events, MAX_EVENTS_IN_BATCH);
    FailureEventsBound(|flushed|, fetchFails);
    assert Backlog(n, 0) == n;
  }

  /** That bound is n / 10^k after k flushes, rounded up. */
  lemma {:induction false} BacklogShrinks(n: nat, flushes: nat)
    ensures Pow10(flushes) >= 1
    ensures n > 0 ==> (Backlog(n, flushes) - 1) * Pow10(flushes) < n <= Backlog(n, flushes) * Pow10(flushes)
    ensures n == 0 ==> Backlog(n, flushes) == 0
    ensures n > 0 && n <= Pow10(flushes) ==> Backlog(n, flushes) == 1
  {
    if flushes > 0 {
      BacklogShrinks(n, flushes - 1);
      var b, c := Backlog(n, flushes - 1), Backlog(n, flushes);
      assert 10 * c <= b + 9 && b <= 10 * c;
      ScaleBounds(b, c, Pow10(flushes - 1), n);
    }
    if n > 0 && Backlog(n, flushes) != 1 {
      if Backlog(n, flushes) >= 2 {
        MulAtLeast(Backlog(n, flushes) - 1, Pow10(flushes));
      }
    }
  }

  /** So what is within the bound is at most n / 10^k, rounded up. */
  lemma BacklogCovers(left: nat, n: nat, flushes: nat)
    requires left <= Backlog(n, flushes)
    ensures left > 0 ==> (left - 1) * Pow10(flushes) < n
  {
    BacklogShrinks(n, flushes);
    if left > 0 {
      MulMonotone(left - 1, Backlog(n, flushes) - 1, Pow10(flushes));
    }
  }

  lemma MulMonotone(a: nat, b: nat, c: nat)
    requires a <= b
    ensures a * c <= b * c
  {
    assert (b - a) * c == b * c - a * c;
  }

  lemma ScaleBounds(b: nat, c: nat, p: nat, n: nat)
    requires p >= 1 && 10 * c <= b + 9 && b <= 10 * c
    ensures n > 0 && (b - 1) * p < n <= b * p ==> (c - 1) * (10 * p) < n <= c * (10 * p)
  {
    if n > 0 && (b - 1) * p < n <= b * p {
      assert (10 * c - 10) * p <= (b - 1) * p;
      assert b * p <= (10 * c) * p;
    }
  }

  lemma {:induction false} Pow10Grows(m: nat, n: nat)
    requires m <= n
    ensures Pow10(m) <= Pow10(n)
    decreases n - m
  {
    if m < n {
      Pow10Grows(m, n - 1);
    }
  }

  /** Whatever the queue can hold, from the fifth flush on the bound is one. */
  lemma FiveFlushesSuffice(n: nat, flushes: nat)
    requires n <= MAX_TOTAL_EVENTS && flushes >= 5
    ensures Backlog(n, flushes) == if n == 0 then 0 else 1
  {
    BacklogShrinks(n, flushes);
    Pow10Grows(5, flushes);
    assert Pow10(5) == 100000;
  }

  lemma CeilDivMonotone(a: nat, b: nat, m: nat)
    requires a <= b && m >= 1
    ensures CeilDiv(a, m) <= CeilDiv(b, m)
  {
    var x, y := a + m - 1, b + m - 1;
    assert x == (x / m) * m + x % m && y == (y / m) * m + y % m;
    assert (x / m - y / m) * m == (x / m) * m - (y / m) * m;
    if x / m > y / m {
      MulAtLeast(x / m - y / m, m);
    }
  }

  lemma CeilDivAtMost(n: nat)
    ensures CeilDiv(n, MAX_EVENTS_IN_BATCH) <= n
  {
  }

  lemma {:induction false} BacklogAtMost(n: nat, flushes: nat)
    ensures Backlog(n, flushes) <= n
  {
    if flushes > 0 {
      BacklogAtMost(n, flushes - 1);
      CeilDivAtMost(Backlog(n, flushes - 1));
    }
  }
}
