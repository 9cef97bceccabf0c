/** `processClientRequests`: the loop that applies a connection's protocol
    requests to the shared destination registry. A topic's subscriber set and
    message fan-out belong to the STOMP library; here each topic is the log of
    actions applied to it, in order. */
module Dispatcher {
  import opened Outcomes
  import Channels

  /** A frame header: name/value pairs in wire order. */
  type Header = seq<(string, string)>

  datatype Frame = Frame(command: string, header: Header, body: seq<Channels.byte>)

  /** The name of the header that carries a frame's destination. */
  const DestinationHeader: string := "destination"

  /** A client's interest in one destination. */
  datatype Subscription = Subscription(id: string, destination: string, ack: string)

  /** What the protocol session hands to the dispatcher. */
  datatype Request =
    | SubscribeOp(sub: Subscription)
    | UnsubscribeOp(sub: Subscription)
    | EnqueueOp(frame: Frame)

  /** An operation applied to one topic. */
  datatype Action =
    | Subscribed(sub: Subscription)
    | Unsubscribed(sub: Subscription)
    | Enqueued(frame: Frame)

  /** The topic manager: destination name to the actions applied to it. */
  type Registry = map<string, seq<Action>>

  /** The log of a destination, empty when it has no topic yet. */
  function Log(reg: Registry, name: string): seq<Action>
  {
    if name in reg then reg[name] else []
  }

  /** `Header.Contains`: the value of the first entry with that name. */
  function Contains(h: Header, key: string): (r: Option<string>)
    ensures r.None? <==> forall i :: 0 <= i < |h| ==> h[i].0 != key
    ensures r.Some? ==>
      exists i :: 0 <= i < |h| && h[i] == (key, r.value) && forall j :: 0 <= j < i ==> h[j].0 != key
    decreases |h|
  {
    if h == [] then None
    else if h[0].0 == key then Some(h[0].1)
    else
      var r := Contains(h[1..], key);
      if r.Some? then
        ghost var i :| 0 <= i < |h[1..]| && h[1..][i] == (key, r.value)
                       && forall j :: 0 <= j < i ==> h[1..][j].0 != key;
        assert h[i + 1] == (key, r.value);
        r
      else r
  }

  /** `tm.Find(name)`: the topic for `name`, registered empty first if the
      name is new. */
  function Find(reg: Registry, name: string): (r: (Registry, seq<Action>))
    ensures r.0.Keys == reg.Keys + {name}
    ensures r.1 == Log(reg, name) && r.0[name] == r.1
    ensures forall k :: k in reg ==> r.0[k] == reg[k]
  {
    if name in reg then (reg, reg[name]) else (reg[name := []], [])
  }

  /** `r` is `reg` with action `a` appended to the topic for `d` (created if
      absent), every other topic as it was. */
  ghost predicate Appended(reg: Registry, r: Registry, d: string, a: Action)
  {
    && r.Keys == reg.Keys + {d}
    && r[d] == Log(reg, d) + [a]
    && forall k :: k in reg && k != d ==> r[k] == reg[k]
  }

  /** `tm.Find(name)` followed by one action on the topic it returns. */
  function ApplyTo(reg: Registry, name: string, a: Action): (r: Registry)
    ensures Appended(reg, r, name, a)
  {
    var (found, topic) := Find(reg, name);
    found[name := topic + [a]]
  }

  /** One iteration of the dispatch loop. */
  function Dispatch(reg: Registry, req: Request): (r: Registry)
    ensures req.SubscribeOp? ==> Appended(reg, r, req.sub.destination, Subscribed(req.sub))
    ensures req.UnsubscribeOp? ==> Appended(reg, r, req.sub.destination, Unsubscribed(req.sub))
    ensures req.EnqueueOp? && Contains(req.frame.header, DestinationHeader).None? ==> r == reg
    ensures req.EnqueueOp? && Contains(req.frame.header, DestinationHeader).Some? ==>
      Appended(reg, r, Contains(req.frame.header, DestinationHeader).value, Enqueued(req.frame))
  {
    match req
    case SubscribeOp(sub) => ApplyTo(reg, sub.destination, Subscribed(sub))
    case UnsubscribeOp(sub) => ApplyTo(reg, sub.destination, Unsubscribed(sub))
    case EnqueueOp(frame) =>
      match Contains(frame.header, DestinationHeader)
      case Some(destination) => ApplyTo(reg, destination, Enqueued(frame))
      case None => reg
  }

  /** The dispatch rule stated on its own: the destination a request is
      routed to and the action it performs there, or None when it is
      dropped. */
  function Route(req: Request): Option<(string, Action)>
  {
    match req
    case SubscribeOp(sub) => Some((sub.destination, Subscribed(sub)))
    case UnsubscribeOp(sub) => Some((sub.destination, Unsubscribed(sub)))
    case EnqueueOp(frame) =>
      match Contains(frame.header, DestinationHeader)
      case Some(destination) => Some((destination, Enqueued(frame)))
      case None => None
  }

  /** The action `req` contributes to destination `d`, if any. */
  function RoutedTo(d: string, req: Request): seq<Action>
  {
    match Route(req)
    case Some((dest, a)) => if dest == d then [a] else []
    case None => []
  }

  /** The actions a queue of requests performs on destination `d`, in queue
      order. */
  function ActionsFor(d: string, reqs: seq<Request>): seq<Action>
    decreases |reqs|
  {
    if reqs == [] then []
    else ActionsFor(d, reqs[..|reqs| - 1]) + RoutedTo(d, reqs[|reqs| - 1])
  }

  /** The destinations a queue of requests reaches. */
  function Destinations(reqs: seq<Request>): set<string>
    decreases |reqs|
  {
    if reqs == [] then {}
    else
      var last := Route(reqs[|reqs| - 1]);
      Destinations(reqs[..|reqs| - 1]) + (if last.Some? then {last.value.0} else {})
  }

  /** `r` is what applying `reqs` in order does to `reg`, topic by topic. */
  ghost predicate Tracks(reg: Registry, r: Registry, reqs: seq<Request>)
  {
    && r.Keys == reg.Keys + Destinations(reqs)
    && (forall d :: d in r ==> r[d] == Log(reg, d) + ActionsFor(d, reqs))
    && (forall d :: d !in r ==> ActionsFor(d, reqs) == [])
  }

  /** `Dispatch` performs exactly what `Route` says: nothing for a dropped
      request, otherwise one action appended to one topic. */
  lemma DispatchFollowsRoute(reg: Registry, req: Request)
    ensures Route(req).None? ==> Dispatch(reg, req) == reg
    ensures Route(req).Some? ==>
      Appended(reg, Dispatch(reg, req), Route(req).value.0, Route(req).value.1)
  {
  }

  /** One more request adds its routed action, if any, at the end. */
  lemma ActionsForSnoc(d: string, reqs: seq<Request>, req: Request)
    ensures ActionsFor(d, reqs + [req]) == ActionsFor(d, reqs) + RoutedTo(d, req)
  {
  }

  /** One more request adds its destination, if any. */
  lemma DestinationsSnoc(reqs: seq<Request>, req: Request)
    ensures Destinations(reqs + [req])
            == Destinations(reqs) + (if Route(req).Some? then {Route(req).value.0} else {})
  {
  }

  /** A dropped request leaves both the registry and every account alone. */
  lemma DroppedTracks(reg: Registry, r: Registry, reqs: seq<Request>, req: Request)
    requires Tracks(reg, r, reqs)
    requires Route(req).None?
    ensures Tracks(reg, r, reqs + [req])
  {
  }

  /** A routed request adds its action to its own destination's account
      only, matching one append to that topic. */
  lemma RoutedTracks(reg: Registry, r: Registry, r': Registry, reqs: seq<Request>,
                     req: Request, dest: string, a: Action)
    requires Tracks(reg, r, reqs)
    requires Route(req) == Some((dest, a))
    requires Appended(r, r', dest, a)
    ensures Tracks(reg, r', reqs + [req])
  {
    DestinationsSnoc(reqs, req);
    RoutedKeys(reg, r, r', reqs, req, dest, a);
    RoutedAbsent(reg, r, r', reqs, req, dest, a);
  }

  /** Known topics: the routed one grows by one action, the others keep
      their account. */
  lemma RoutedKeys(reg: Registry, r: Registry, r': Registry, reqs: seq<Request>,
                   req: Request, dest: string, a: Action)
    requires Tracks(reg, r, reqs)
    requires Route(req) == Some((dest, a))
    requires Appended(r, r', dest, a)
    ensures forall d :: d in r' ==> r'[d] == Log(reg, d) + ActionsFor(d, reqs + [req])
  {
    forall d | d in r'
      ensures r'[d] == Log(reg, d) + ActionsFor(d, reqs + [req])
    {
      RoutedKey(reg, r, r', reqs, req, dest, a, d);
    }
  }

  /** The account of one known topic after a routed request. */
  lemma RoutedKey(reg: Registry, r: Registry, r': Registry, reqs: seq<Request>,
                  req: Request, dest: string, a: Action, d: string)
    requires reg.Keys <= r.Keys
    requires d in r ==> r[d] == Log(reg, d) + ActionsFor(d, reqs)
    requires d !in r ==> ActionsFor(d, reqs) == []
    requires Route(req) == Some((dest, a))
    requires Appended(r, r', dest, a)
    requires d in r'
    ensures r'[d] == Log(reg, d) + ActionsFor(d, reqs + [req])
  {
    ActionsForSnoc(d, reqs, req);
    RoutedToRoute(d, req, dest, a);
    if d != dest {
      assert d in r;
    }
  }

  /** What a routed request contributes to one destination. */
  lemma RoutedToRoute(d: string, req: Request, dest: string, a: Action)
    requires Route(req) == Some((dest, a))
    ensures RoutedTo(d, req) == if d == dest then [a] else []
  {
  }

  /** Unknown destinations still have nothing routed to them. */
  lemma RoutedAbsent(reg: Registry, r: Registry, r': Registry, reqs: seq<Request>,
                     req: Request, dest: string, a: Action)
    requires Tracks(reg, r, reqs)
    requires Route(req) == Some((dest, a))
    requires Appended(r, r', dest, a)
    ensures forall d :: d !in r' ==> ActionsFor(d, reqs + [req]) == []
  {
    forall d | d !in r'
      ensures ActionsFor(d, reqs + [req]) == []
    {
      ActionsForSnoc(d, reqs, req);
      assert RoutedTo(d, req) == [];
    }
  }

  /** Dispatching one more request extends the per-topic account by that
      request's routed action. */
  lemma DispatchTracks(reg: Registry, r: Registry, reqs: seq<Request>, req: Request)
    requires Tracks(reg, r, reqs)
    ensures Tracks(reg, Dispatch(r, req), reqs + [req])
  {
    DispatchFollowsRoute(r, req);
    match Route(req)
    case None => DroppedTracks(reg, r, reqs, req);
    case Some((dest, a)) => RoutedTracks(reg, r, Dispatch(r, req), reqs, req, dest, a);
  }

  /** `processClientRequests`: applies the queued requests one at a time, in
      queue order. Afterwards the registry knows exactly the destinations it
      knew plus those the requests reach, and every topic's log has grown by
      exactly the actions routed to it, in request order. */
  method ProcessClientRequests(reg: Registry, ch: seq<Request>) returns (r: Registry)
    ensures r.Keys == reg.Keys + Destinations(ch)
    ensures forall d :: d in r ==> r[d] == Log(reg, d) + ActionsFor(d, ch)
  {
    r := reg;
    var i := 0;
    while i < |ch|
      invariant 0 <= i <= |ch|
      invariant Tracks(reg, r, ch[..i])
    {
      var response := ch[i];
      DispatchTracks(reg, r, ch[..i], response);
      assert ch[..i] + [response] == ch[..i + 1];
      r := Dispatch(r, response);
      i := i + 1;
    }
    assert ch[..i] == ch;
  }
}
