/** Construction and closing of one client: what is released, in which order, when any construction
    step or any release fails. */
module ClientLifecycle {
  import opened Wrappers

  datatype Resource = MainHttp | PciHttp | EventSender | Publisher | TokenService

  /** The calls made while closing: leaving the instance cache, and the close() of a resource. */
  datatype Call = Evict | Release(resource: Resource)

  /** The construction steps that can raise. The last two start something already registered. */
  datatype Step = Make(resource: Resource) | StartTokenService | StartPublishing

  const CREATION_ORDER: seq<Resource> := [MainHttp, PciHttp, EventSender, Publisher, TokenService]

  /** The resources created before the given step. */
  function CreatedBefore(step: Step): seq<Resource> {
    match step
    case Make(MainHttp) => []
    case Make(PciHttp) => [MainHttp]
    case Make(EventSender) => [MainHttp, PciHttp]
    case Make(Publisher) => [MainHttp, PciHttp, EventSender]
    case Make(TokenService) => [MainHttp, PciHttp, EventSender, Publisher]
    case _ => CREATION_ORDER
  }

  /** The step comes before the other in construction. */
  predicate Earlier(a: Step, b: Step) {
    |CreatedBefore(a)| < |CreatedBefore(b)| || (a.StartTokenService? && b.StartPublishing?)
  }

  function Reversed(items: seq<Resource>): seq<Call> {
    if items == [] then [] else [Release(items[|items| - 1])] + Reversed(items[..|items| - 1])
  }

  lemma {:induction false} ReversedAt(items: seq<Resource>, i: nat)
    requires i < |items|
    ensures |Reversed(items)| == |items| && Reversed(items)[i] == Release(items[|items| - 1 - i])
  {
    if |items| > 1 {
      ReversedAt(items[..|items| - 1], if i > 0 then i - 1 else 0);
    }
  }

  class BaseClient {
    var created: seq<Resource>  // history: in order of creation
    var open: set<Resource>     // created, and not released by a close() that returned
    var cached: bool            // in the instance cache
    var calls: seq<Call>        // the calls made while closing, raising or not
    var logged: seq<Call>       // those whose exception was caught and logged

    constructor ()
      ensures created == [] && open == {} && !cached && calls == [] && logged == []
    {
      created, open, cached, calls, logged := [], {}, false, [], [];
    }

    /** Runs the construction steps. `fails` are the steps that would raise, `raises` the calls that raise
        during the clean-up. The first failing step is what the caller sees; everything created before
        it, and nothing else, has its close() called once, newest first, and is released unless that call
        itself raised: no failing close() spares another resource. */
    method Construct(fails: set<Step>, raises: set<Call>) returns (error: Option<Step>)
      requires created == [] && open == {} && calls == [] && logged == []
      modifies this`created, this`open, this`cached, this`calls, this`logged
      ensures cached == old(cached)
      ensures error == None ==>
                && created == CREATION_ORDER && open == Elements(created) && calls == [] && logged == [] && fails == {}
      ensures error.Some? ==>
                && error.value in fails && (forall step :: step in fails && step != error.value ==> Earlier(error.value, step))
                && created == CreatedBefore(error.value) && calls == Reversed(created)
                && (forall r :: r in open <==> r in created && Release(r) in raises)
                && logged == Raising(calls, raises)
    {
      var closables;
      error, closables := RunSteps(fails);
      if error.Some? {
        ReleaseReversed(closables, raises);
        assert [] + Reversed(created) == Reversed(created);
        assert [] + Raising(calls, raises) == Raising(calls, raises);
        ReversedContent(created);
      }
    }

    /** The body of the `try`: each resource is noted as soon as it exists. */
    method RunSteps(fails: set<Step>) returns (error: Option<Step>, closables: seq<Resource>)
      requires created == [] && open == {}
      modifies this`created, this`open
      ensures closables == created && open == Elements(created)
      ensures error == None ==> created == CREATION_ORDER && fails == {}
      ensures error.Some? ==>
                && error.value in fails && (forall step :: step in fails && step != error.value ==> Earlier(error.value, step))
                && created == CreatedBefore(error.value)
    {
      closables := [];
      error := Create(MainHttp, fails);
      if error.Some? { return; }
      closables := closables + [MainHttp];
      error := Create(PciHttp, fails);
      if error.Some? { return; }
      closables := closables + [PciHttp];
      error := Create(EventSender, fails);
      if error.Some? { return; }
      closables := closables + [EventSender];
      error := Create(Publisher, fails);
      if error.Some? { return; }
      closables := closables + [Publisher];
      error := Create(TokenService, fails);
      if error.Some? { return; }
      closables := closables + [TokenService];
      if StartTokenService in fails {
        error := Some(StartTokenService);
      } else if StartPublishing in fails {
        error := Some(StartPublishing);
      } else {
        AllStepsPassed(fails);
      }
    }

    /** One constructor call: it either raises and creates nothing, or creates the resource. */
    method Create(resource: Resource, fails: set<Step>) returns (error: Option<Step>)
      requires open == Elements(created)
      modifies this`created, this`open
      ensures error == if Make(resource) in fails then Some(Make(resource)) else None
      ensures created == old(created) + if Make(resource) in fails then [] else [resource]
      ensures open == Elements(created)
    {
      if Make(resource) in fails {
        return Some(Make(resource));
      }
      created := created + [resource];
      open := open + {resource};
      return None;
    }

    /** One call made while closing. It either raises and leaves what it was to release as it was, or
        releases it. */
    method Invoke(call: Call, raises: set<Call>) returns (raised: bool)
      modifies this`calls, this`open, this`cached
      ensures raised == (call in raises) && calls == old(calls) + [call]
      ensures open == old(open) - Released([call], raises)
      ensures cached == (old(cached) && (raised || call != Evict))
    {
      calls := calls + [call];
      raised := call in raises;
      if raised {
        return;
      }
      match call
      case Evict => cached := false;
      case Release(resource) => open := open - {resource};
    }

    /** The clean-up loop: an exception from one close() is logged and the loop goes on. */
    method ReleaseReversed(closables: seq<Resource>, raises: set<Call>)
      modifies this`calls, this`open, this`cached, this`logged
      ensures calls == old(calls) + Reversed(closables)
      ensures logged == old(logged) + Raising(Reversed(closables), raises)
      ensures open == old(open) - Released(Reversed(closables), raises)
      ensures cached == old(cached)
    {
      ghost var order, done := Reversed(closables), 0;
      ReversedLength(closables);
      for i := |closables| downto 0
        invariant done == |closables| - i
        invariant calls == old(calls) + order[..done] && cached == old(cached)
        invariant logged == old(logged) + Raising(order[..done], raises)
        invariant open == old(open) - Released(order[..done], raises)
      {
        ReversedAt(closables, done);
        OneMore(order, done, raises);
        var call := Release(closables[i]);
        var raised := Invoke(call, raises);
        if raised {
          logged := logged + [call];
        }
        done := done + 1;
      }
      assert order[..done] == order;
    }

    /** close(): every step runs, in this order, whichever of them raise; what is left over is exactly what a
        raising step was to release. */
    method Close(raises: set<Call>)
      modifies this`calls, this`open, this`cached, this`logged
      ensures calls == old(calls) + CLOSE_ORDER
      ensures logged == old(logged) + Raising(CLOSE_ORDER, raises)
      ensures forall r :: r in open <==> r in old(open) && Release(r) in raises
      ensures cached == (old(cached) && Evict in raises)
    {
      for i := 0 to |CLOSE_ORDER|
        invariant calls == old(calls) + CLOSE_ORDER[..i]
        invariant logged == old(logged) + Raising(CLOSE_ORDER[..i], raises)
        invariant open == old(open) - Released(CLOSE_ORDER[..i], raises)
        invariant cached == (old(cached) && (i == 0 || Evict in raises))
      {
        OneMore(CLOSE_ORDER, i, raises);
        var raised := Invoke(CLOSE_ORDER[i], raises);
        if raised {
          logged := logged + [CLOSE_ORDER[i]];
        }
      }
      assert CLOSE_ORDER[..|CLOSE_ORDER|] == CLOSE_ORDER;
      CloseOrder();
    }
  }

  /** The calls that raise, in order. */
  function Raising(calls: seq<Call>, raises: set<Call>): seq<Call> {
    if calls == [] then [] else
    var last := |calls| - 1;
    Raising(calls[..last], raises) + if calls[last] in raises then [calls[last]] else []
  }

  /** What calls of which some raise release. */
  function Released(calls: seq<Call>, raises: set<Call>): set<Resource> {
    set call | call in calls && call.Release? && call !in raises :: call.resource
  }

  function Elements(items: seq<Resource>): set<Resource> {
    set r | r in items
  }

  lemma OneMore(order: seq<Call>, n: nat, raises: set<Call>)
    requires n < |order|
    ensures order[..n + 1] == order[..n] + [order[n]]
    ensures Raising(order[..n + 1], raises) == Raising(order[..n], raises) + if order[n] in raises then [order[n]] else []
    ensures Released(order[..n + 1], raises) == Released(order[..n], raises) + Released([order[n]], raises)
  {
    assert order[..n + 1][..n] == order[..n];
  }

  const CLOSE_ORDER: seq<Call> :=
    [Evict, Release(Publisher), Release(EventSender), Release(MainHttp), Release(PciHttp), Release(TokenService)]

  lemma AllStepsPassed(fails: set<Step>)
    requires fails * {Make(MainHttp), Make(PciHttp), Make(EventSender), Make(Publisher), Make(TokenService),
                      StartTokenService, StartPublishing} == {}
    ensures fails == {}
  {
    forall step | step in fails
      ensures step in {Make(MainHttp), Make(PciHttp), Make(EventSender), Make(Publisher), Make(TokenService),
                       StartTokenService, StartPublishing}
    {
      if step.Make? {
        match step.resource {
          case MainHttp | PciHttp | EventSender | Publisher | TokenService =>
        }
      }
    }
  }

  /** In `calls`, the publisher is stopped before the sender it publishes through. */
  ghost predicate PublisherFirst(calls: seq<Call>) {
    forall i, j :: 0 <= i < |calls| && 0 <= j < |calls| ==>
                     calls[i] == Release(Publisher) && calls[j] == Release(EventSender) ==> i < j
  }

  ghost predicate NoRepeats(calls: seq<Call>) {
    forall i, j :: 0 <= i < j < |calls| ==> calls[i] != calls[j]
  }

  /** Wherever construction stopped, the clean-up releases nothing twice, and the publisher before its
      sender. */
  lemma CleanUpOrder(step: Step)
    ensures PublisherFirst(Reversed(CreatedBefore(step))) && NoRepeats(Reversed(CreatedBefore(step)))
  {
    var created := CreatedBefore(step);
    var calls, n := Reversed(created), |created|;
    ReversedLength(created);
    forall i | 0 <= i < n ensures calls[i] == Release(created[n - 1 - i]) {
      ReversedAt(created, i);
    }
    hide Reversed;
  }

  /** Exactly what was created is released. */
  lemma {:induction false} ReversedContent(items: seq<Resource>)
    ensures forall r :: Release(r) in Reversed(items) <==> r in items
    ensures Evict !in Reversed(items)
  {
    if items != [] {
      var front, last := items[..|items| - 1], items[|items| - 1];
      ReversedContent(front);
      assert items == front + [last];
    }
  }

  /** close() leaves the cache first, then releases every resource once, the publisher before its
      sender. */
  lemma CloseOrder()
    ensures PublisherFirst(CLOSE_ORDER) && NoRepeats(CLOSE_ORDER) && CLOSE_ORDER[0] == Evict
    ensures forall r :: Release(r) in CLOSE_ORDER
  {
    forall r ensures Release(r) in CLOSE_ORDER {
      match r
      case MainHttp => assert CLOSE_ORDER[3] == Release(r);
      case PciHttp => assert CLOSE_ORDER[4] == Release(r);
      case EventSender => assert CLOSE_ORDER[2] == Release(r);
      case Publisher => assert CLOSE_ORDER[1] == Release(r);
      case TokenService => assert CLOSE_ORDER[5] == Release(r);
    }
  }

  lemma {:induction false} ReversedLength(items: seq<Resource>)
    ensures |Reversed(items)| == |items|
  {
    if items != [] {
      ReversedLength(items[..|items| - 1]);
    }
  }
}
