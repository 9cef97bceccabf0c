/** Properties of the request dispatcher beyond a single call. */
module DispatchLemmas {
  import opened Outcomes
  import opened Dispatcher

  /** Processing is compositional and order-keeping: what a queue performs on
      a destination is what its first part performs followed by what its
      second part performs, so an earlier request's action always precedes a
      later one's in the topic log. */
  lemma {:induction false} ActionsForAppend(d: string, a: seq<Request>, b: seq<Request>)
    ensures ActionsFor(d, a + b) == ActionsFor(d, a) + ActionsFor(d, b)
    decreases |b|
  {
    if b == [] {
      assert a + b == a;
    } else {
      var init := b[..|b| - 1];
      var last := b[|b| - 1];
      assert b == init + [last];
      assert a + b == (a + init) + [last];
      ActionsForSnoc(d, a + init, last);
      ActionsForSnoc(d, init, last);
      ActionsForAppend(d, a, init);
    }
  }

  /** Appends to two different topics give the same registry in either
      order. */
  lemma AppendsCommute(reg: Registry, r1: Registry, r12: Registry, r2: Registry, r21: Registry,
                       d1: string, a1: Action, d2: string, a2: Action)
    requires d1 != d2
    requires Appended(reg, r1, d1, a1) && Appended(r1, r12, d2, a2)
    requires Appended(reg, r2, d2, a2) && Appended(r2, r21, d1, a1)
    ensures r12 == r21
  {
  }

  /** Requests that reach different topics, or that are dropped, may be
      applied in either order with the same registry as result: topics are
      independent of one another. */
  lemma DispatchCommutes(reg: Registry, x: Request, y: Request)
    requires Route(x).None? || Route(y).None? || Route(x).value.0 != Route(y).value.0
    ensures Dispatch(Dispatch(reg, x), y) == Dispatch(Dispatch(reg, y), x)
  {
    var rx := Dispatch(reg, x);
    var ry := Dispatch(reg, y);
    DispatchFollowsRoute(reg, x);
    DispatchFollowsRoute(reg, y);
    DispatchFollowsRoute(rx, y);
    DispatchFollowsRoute(ry, x);
    if Route(x).Some? && Route(y).Some? {
      AppendsCommute(reg, rx, Dispatch(rx, y), ry, Dispatch(ry, x),
                     Route(x).value.0, Route(x).value.1, Route(y).value.0, Route(y).value.1);
    }
  }

  /** A queue of requests that reach no destination, such as SEND frames
      without a `destination` header, leaves the registry as it was. */
  lemma {:induction false} DroppedRequestsChangeNothing(d: string, reqs: seq<Request>)
    requires forall i :: 0 <= i < |reqs| ==> Route(reqs[i]).None?
    ensures ActionsFor(d, reqs) == []
    ensures Destinations(reqs) == {}
    decreases |reqs|
  {
    if reqs != [] {
      var init := reqs[..|reqs| - 1];
      assert forall i :: 0 <= i < |init| ==> init[i] == reqs[i];
      DroppedRequestsChangeNothing(d, init);
    }
  }

  /** A duplicated header is read from its first occurrence. */
  lemma FirstHeaderWins(name: string, v1: string, v2: string, rest: Header)
    ensures Contains([(name, v1), (name, v2)] + rest, name) == Some(v1)
  {
  }
}
