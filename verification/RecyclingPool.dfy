/** The recycling connection pool as one thread sees it: urllib3's bounded LIFO of slots, the
    open-time table, check-out, return, and the sweep that drains and refills the LIFO. */
module RecyclingPool {
  import opened Wrappers

  type ConnId = nat

  /** A pool slot: None, or a connection. The top of the LIFO is the end of the sequence. */
  datatype Slot = Empty | Holds(id: ConnId)

  /** A connection that has been open for longer than the keep-alive limit. The table records when a
      connection was opened, not when it was last used. */
  predicate OverAge(openedAt: map<ConnId, real>, id: ConnId, now: real, keepAlive: real) {
    id in openedAt && now - openedAt[id] > keepAlive
  }

  function SweptSlot(slot: Slot, openedAt: map<ConnId, real>, now: real, keepAlive: real): Slot {
    if slot.Holds? && OverAge(openedAt, slot.id, now, keepAlive) then Empty else slot
  }

  function Reversed(stack: seq<Slot>): (r: seq<Slot>)
    ensures |r| == |stack|
  {
    if stack == [] then [] else [stack[|stack| - 1]] + Reversed(stack[..|stack| - 1])
  }

  function Swept(items: seq<Slot>, openedAt: map<ConnId, real>, now: real, keepAlive: real): (r: seq<Slot>)
    ensures |r| == |items|
  {
    if items == [] then []
    else
      var last := |items| - 1;
      Swept(items[..last], openedAt, now, keepAlive) + [SweptSlot(items[last], openedAt, now, keepAlive)]
  }

  /** What one sweep leaves: the content reversed, every over-age connection replaced by None. */
  function SweptStack(stack: seq<Slot>, openedAt: map<ConnId, real>, now: real, keepAlive: real): (r: seq<Slot>)
    ensures |r| == |stack|
  {
    Swept(Reversed(stack), openedAt, now, keepAlive)
  }

  /** The connections a sweep evicts. */
  function OverAgeIds(stack: seq<Slot>, openedAt: map<ConnId, real>, now: real, keepAlive: real): set<ConnId> {
    set slot | slot in stack && slot.Holds? && OverAge(openedAt, slot.id, now, keepAlive) :: slot.id
  }

  /** No connection is in two slots. */
  ghost predicate Distinct(stack: seq<Slot>) {
    stack != [] ==>
      var top := |stack| - 1;
      Distinct(stack[..top]) && (stack[top].Holds? ==> stack[top] !in stack[..top])
  }

  lemma {:induction false} ReversedAt(stack: seq<Slot>, i: nat)
    requires i < |stack|
    ensures Reversed(stack)[i] == stack[|stack| - 1 - i]
  {
    if i > 0 {
      ReversedAt(stack[..|stack| - 1], i - 1);
    }
  }

  lemma {:induction false} SweptAt(items: seq<Slot>, openedAt: map<ConnId, real>, now: real, keepAlive: real, i: nat)
    requires i < |items|
    ensures Swept(items, openedAt, now, keepAlive)[i] == SweptSlot(items[i], openedAt, now, keepAlive)
  {
    if i < |items| - 1 {
      SweptAt(items[..|items| - 1], openedAt, now, keepAlive, i);
    }
  }

  /** Slot by slot, what a sweep does: reverse, and empty exactly the over-age slots. */
  lemma SweptStackAt(stack: seq<Slot>, openedAt: map<ConnId, real>, now: real, keepAlive: real, i: nat)
    requires i < |stack|
    ensures var swept := SweptStack(stack, openedAt, now, keepAlive);
            && |swept| == |stack|
            && swept[i] == SweptSlot(stack[|stack| - 1 - i], openedAt, now, keepAlive)
  {
    ReversedAt(stack, i);
    SweptAt(Reversed(stack), openedAt, now, keepAlive, i);
  }

  lemma {:induction false} ReversedContent(stack: seq<Slot>)
    ensures forall slot :: slot in Reversed(stack) <==> slot in stack
  {
    if stack != [] {
      var front, last := stack[..|stack| - 1], stack[|stack| - 1];
      ReversedContent(front);
      assert stack == front + [last];
    }
  }

  /** A sweep keeps every connection within the limit and no other. */
  lemma {:induction false} SweptContent(items: seq<Slot>, openedAt: map<ConnId, real>, now: real, keepAlive: real)
    ensures forall slot: Slot | slot.Holds? ::
              slot in Swept(items, openedAt, now, keepAlive)
              <==> slot in items && !OverAge(openedAt, slot.id, now, keepAlive)
  {
    if items != [] {
      var front, last := items[..|items| - 1], items[|items| - 1];
      SweptContent(front, openedAt, now, keepAlive);
      assert items == front + [last];
    }
  }

  /** A second sweep at the same instant evicts nothing and only restores the order. */
  lemma SweepTwice(stack: seq<Slot>, openedAt: map<ConnId, real>, now: real, keepAlive: real)
    ensures var swept := SweptStack(stack, openedAt, now, keepAlive);
            && OverAgeIds(swept, openedAt, now, keepAlive) == {}
            && SweptStack(swept, openedAt, now, keepAlive) == Swept(stack, openedAt, now, keepAlive)
  {
    SweptContent(Reversed(stack), openedAt, now, keepAlive);
    SweepTwiceOrder(stack, openedAt, now, keepAlive);
    hide Swept, Reversed;
  }

  lemma SweepTwiceOrder(stack: seq<Slot>, openedAt: map<ConnId, real>, now: real, keepAlive: real)
    ensures SweptStack(SweptStack(stack, openedAt, now, keepAlive), openedAt, now, keepAlive)
            == Swept(stack, openedAt, now, keepAlive)
  {
    hide Swept, Reversed, SweptStack;
    var swept := SweptStack(stack, openedAt, now, keepAlive);
    var again := SweptStack(swept, openedAt, now, keepAlive);
    forall i | 0 <= i < |stack| ensures |again| == |stack| && again[i] == Swept(stack, openedAt, now, keepAlive)[i] {
      SweptStackAt(swept, openedAt, now, keepAlive, i);
      SweptStackAt(stack, openedAt, now, keepAlive, |stack| - 1 - i);
      SweptAt(stack, openedAt, now, keepAlive, i);
    }
  }

  lemma {:induction false} ReversedDistinct(stack: seq<Slot>)
    requires Distinct(stack)
    ensures Distinct(Reversed(stack))
  {
    if stack != [] {
      var front, last := stack[..|stack| - 1], stack[|stack| - 1];
      ReversedDistinct(front);
      ReversedContent(front);
      PrependDistinct(last, Reversed(front));
    }
  }

  lemma {:induction false} PrependDistinct(slot: Slot, stack: seq<Slot>)
    requires Distinct(stack) && (slot.Holds? ==> slot !in stack)
    ensures Distinct([slot] + stack)
  {
    if stack != [] {
      var top := |stack| - 1;
      PrependDistinct(slot, stack[..top]);
      assert ([slot] + stack)[..top + 1] == [slot] + stack[..top];
    }
  }

  lemma {:induction false} SweptDistinct(items: seq<Slot>, openedAt: map<ConnId, real>, now: real, keepAlive: real)
    requires Distinct(items)
    ensures Distinct(Swept(items, openedAt, now, keepAlive))
  {
    if items != [] {
      var last := |items| - 1;
      SweptDistinct(items[..last], openedAt, now, keepAlive);
      SweptContent(items[..last], openedAt, now, keepAlive);
      assert Swept(items, openedAt, now, keepAlive)[..last] == Swept(items[..last], openedAt, now, keepAlive);
    }
  }

  /** A sweep puts no connection into two slots and none that was not there; and it judges all. */
  lemma SweptStackSlots(stack: seq<Slot>, openedAt: map<ConnId, real>, now: real, keepAlive: real)
    requires Distinct(stack)
    ensures var swept := SweptStack(stack, openedAt, now, keepAlive);
            Distinct(swept) && forall slot: Slot :: slot.Holds? && slot in swept ==> slot in stack
    ensures OverAgeIds(Reversed(stack), openedAt, now, keepAlive) == OverAgeIds(stack, openedAt, now, keepAlive)
  {
    ReversedContent(stack);
    ReversedDistinct(stack);
    SweptContent(Reversed(stack), openedAt, now, keepAlive);
    SweptDistinct(Reversed(stack), openedAt, now, keepAlive);
    hide Swept, Reversed, Distinct;
  }

  lemma {:induction false} EmptyDistinct(n: nat)
    ensures Distinct(seq(n, _ => Empty))
  {
    if n > 0 {
      EmptyDistinct(n - 1);
      assert seq(n, _ => Empty)[..n - 1] == seq(n - 1, _ => Empty);
    }
  }

  lemma {:induction false} DistinctTake(items: seq<Slot>, p: nat)
    requires Distinct(items) && p < |items|
    ensures items[p].Holds? ==> items[p] !in items[..p]
    decreases |items|
  {
    var last := |items| - 1;
    if p < last {
      DistinctTake(items[..last], p);
      assert items[..last][..p] == items[..p];
    }
  }

  /** What a check-out comes to. */
  datatype CheckOut = HandedOut(id: ConnId) | MustWait | CloseRaised

  /** The connection a check-out is about: the one on top of the LIFO, or else a new one. */
  function Candidate(stack: seq<Slot>, minted: nat): ConnId {
    if stack != [] && stack[|stack| - 1].Holds? then stack[|stack| - 1].id else minted
  }

  class Pool {
    const maxsize: nat
    const block: bool
    const keepAlive: real
    var stack: seq<Slot>
    var openedAt: map<ConnId, real>
    var connected: set<ConnId>  // connections whose socket is open
    var minted: nat             // ids below this have been created

    ghost predicate Valid()
      reads this
    {
      && |stack| <= maxsize
      && Distinct(stack)
      && forall id: ConnId :: Holds(id) in stack ==> id < minted
    }

    constructor (maxsize: nat, block: bool, keepAlive: real)
      requires maxsize > 0 && keepAlive > 0.0
      ensures Valid() && stack == seq(maxsize, _ => Empty)
      ensures openedAt == map[] && connected == {} && minted == 0
      ensures this.maxsize == maxsize && this.block == block && this.keepAlive == keepAlive
    {
      this.maxsize, this.block, this.keepAlive := maxsize, block, keepAlive;
      stack := seq(maxsize, _ => Empty);
      openedAt, connected, minted := map[], {}, 0;
      EmptyDistinct(maxsize);
    }

    /** Check-out. `dropped` is urllib3's own finding that the peer has closed the socket. A connection
        handed out open is untouched and within the limit; any other is about to be opened and is recorded as
        opened now. With `block`, an empty pool makes the request wait. A close() that raises while recycling
        an over-age connection reaches the caller, who still owes the pool the slot. */
    method GetConn(now: real, dropped: bool, closeRaises: bool) returns (got: CheckOut)
      requires Valid()
      modifies this
      ensures Valid()
      ensures got == MustWait <==> old(stack) == [] && block
      ensures got == MustWait ==> unchanged(this)
      ensures stack == if old(stack) == [] then [] else old(stack)[..|old(stack)| - 1]
      ensures var id := Candidate(old(stack), old(minted));
              var wasOpen := id < old(minted) && id in old(connected) && !dropped;
              var over := OverAge(old(openedAt), id, now, keepAlive);
              got != MustWait ==>
                && got == (if wasOpen && over && closeRaises then CloseRaised else HandedOut(id))
                && Holds(id) !in stack && id < minted == (if id < old(minted) then old(minted) else old(minted) + 1)
                && (if wasOpen && (!over || closeRaises)
                    then openedAt == old(openedAt) && connected == old(connected)
                    else openedAt == old(openedAt)[id := now] && connected == old(connected) - {id})
    {
      if stack == [] && block {
        return MustWait;
      }
      var id := minted;
      if stack != [] {
        if stack[|stack| - 1].Holds? {
          id := stack[|stack| - 1].id;
          assert Holds(id) in stack;
        }
        stack := stack[..|stack| - 1];
      }
      if id == minted {
        minted := minted + 1;
        connected := connected - {id};  // a new connection object has no socket yet
      } else if dropped {
        connected := connected - {id};
      }
      if id !in connected {
        openedAt := openedAt[id := now];
        return HandedOut(id);
      }
      if OverAge(openedAt, id, now, keepAlive) {
        if closeRaises {
          return CloseRaised;
        }
        connected := connected - {id};
        openedAt := openedAt[id := now];
      }
      got := HandedOut(id);
    }

    /** Return: a connection, or None for one that failed. A full pool discards it, closing it. */
    method PutConn(slot: Slot)
      requires Valid() && (slot.Holds? ==> slot !in stack && slot.id < minted)
      modifies this
      ensures Valid() && minted == old(minted) && openedAt == old(openedAt)
      ensures if |old(stack)| < maxsize
              then stack == old(stack) + [slot] && connected == old(connected)
              else stack == old(stack)
                   && connected == old(connected) - if slot.Holds? then {slot.id} else {}
    {
      if |stack| < maxsize {
        stack := stack + [slot];
      } else if slot.Holds? {
        connected := connected - {slot.id};
      }
    }

    /** The first half of a sweep takes every slot out of the LIFO. */
    method Drain() returns (items: seq<Slot>)
      modifies this`stack
      ensures stack == [] && items == Reversed(old(stack))
    {
      items := [];
      while stack != []
        invariant items + Reversed(stack) == Reversed(old(stack))
        decreases |stack|
      {
        items := items + [stack[|stack| - 1]];
        stack := stack[..|stack| - 1];
      }
    }

    /** The second half, for one slot: close and drop a connection over the limit, keep the rest. If
        close() raises, the handler drops the connection and frees its slot all the same. */
    method PutBack(item: Slot, now: real, limit: real, closeRaises: bool)
      modifies this`stack, this`openedAt, this`connected
      ensures stack == old(stack) + [SweptSlot(item, old(openedAt), now, limit)]
      ensures var over := item.Holds? && OverAge(old(openedAt), item.id, now, limit);
              && openedAt == old(openedAt) - (if over then {item.id} else {})
              && connected == old(connected) - (if over && !closeRaises then {item.id} else {})
    {
      if item.Holds? && OverAge(openedAt, item.id, now, limit) {
        openedAt := openedAt - {item.id};
        if !closeRaises {
          connected := connected - {item.id};
        }
        stack := stack + [Empty];
      } else {
        stack := stack + [item];
      }
    }

    /** One sweep with no request in between. `failing` are the connections whose close() raises:
        they leave the pool all the same, so the content does not depend on them. */
    method EvictIdleConnections(now: real, limit: real, failing: set<ConnId>)
      requires Valid()
      modifies this
      ensures Valid() && minted == old(minted)
      ensures stack == SweptStack(old(stack), old(openedAt), now, limit)
      ensures openedAt == old(openedAt) - OverAgeIds(old(stack), old(openedAt), now, limit)
      ensures connected == old(connected) - (OverAgeIds(old(stack), old(openedAt), now, limit) - failing)
    {
      ghost var before, openings := stack, openedAt;
      var items := Drain();
      ReversedDistinct(before);
      hide Reversed;
      assert Swept([], openings, now, limit) == [] && OverAgeIds([], openings, now, limit) == {};
      hide Swept, OverAgeIds, SweptSlot, Distinct;
      for p := 0 to |items|
        invariant stack == Swept(items[..p], openings, now, limit) && minted == old(minted)
        invariant openedAt == openings - OverAgeIds(items[..p], openings, now, limit)
        invariant connected == old(connected) - (OverAgeIds(items[..p], openings, now, limit) - failing)
      {
        PutBackNext(items, p, openings, now, limit);
        PutBack(items[p], now, limit, items[p].Holds? && items[p].id in failing);
      }
      assert items[..|items|] == items;
      SweptStackSlots(before, openings, now, limit);
    }
  }

  /** The next item to put back: it was not handled before, so it is judged as at the start of the
      sweep, and this is what it adds to the evicted ones. */
  lemma PutBackNext(items: seq<Slot>, p: nat, openedAt: map<ConnId, real>, now: real, keepAlive: real)
    requires Distinct(items) && p < |items|
    ensures var gone, item := OverAgeIds(items[..p], openedAt, now, keepAlive), items[p];
            && (item.Holds? ==> item.id !in gone
                                && OverAge(openedAt - gone, item.id, now, keepAlive) == OverAge(openedAt, item.id, now, keepAlive))
            && Swept(items[..p + 1], openedAt, now, keepAlive)
               == Swept(items[..p], openedAt, now, keepAlive) + [SweptSlot(item, openedAt - gone, now, keepAlive)]
            && OverAgeIds(items[..p + 1], openedAt, now, keepAlive)
               == gone + if item.Holds? && OverAge(openedAt, item.id, now, keepAlive) then {item.id} else {}
  {
    DistinctTake(items, p);
    assert items[..p + 1][..p] == items[..p];
    assert items[..p + 1] == items[..p] + [items[p]];
  }
}
