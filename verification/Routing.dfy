/** One `route_message` call, the chain of calls its responses cause, and when that chain ends
    (crates/swbus-core/src/mux/multiplexer.rs, nexthop.rs). */
module Routing {
  import opened Wrappers
  import opened ServicePaths
  import opened Messages
  import opened RouteTable

  /** A fixed route table, the path `get_my_service_path` yields, and whether the build checks integer overflow. */
  datatype Router = Router(routes: Routes, me: ServicePath, checked: bool)

  /** What one call comes to. `Reply` is routed by a nested call. */
  datatype Outcome = Queued(conn: ConnInfo, message: Message) | Dropped | Panicked | Reply(response: Message)

  function ProcessLocal(r: Router, m: Message, id: nat): Outcome {
    if m.header.destination.serviceType != "" then Reply(NewResponse(m, None, NoRoute, id, None))
    else match m.body
      case PingRequest => Reply(NewResponse(m, None, Ok, id, None))
      case ManagementRequest(SwbusdGetRoutes) => Reply(NewResponse(m, None, Ok, id, Some(Export(r.routes))))
      case ManagementRequest(_) => Panicked  // the error is unwrapped
      case _ => Dropped
  }

  /** The TTL less one, on 32 bits. */
  function CountedDown(ttl: nat): nat { if ttl == 0 then 0xFFFF_FFFF else ttl - 1 }

  /** `queue_message`. Counting down a zero TTL panics, or wraps in a build without overflow checks. */
  function QueueMessage(r: Router, nexthop: NextHop, m: Message, id: nat): Outcome {
    match nexthop
    case LocalHop => ProcessLocal(r, m, id)
    case RemoteHop(conn, _) =>
      if m.header.ttl == 0 && r.checked then Panicked
      else
        var m' := m.(header := m.header.(ttl := CountedDown(m.header.ttl)));
        if m'.header.ttl == 0 then Reply(NewResponse(m', Some(r.me), Unreachable, id, None)) else Queued(conn, m')
  }

  function RouteOnce(r: Router, m: Message, id: nat): Outcome {
    match Lookup(r.routes, m.header.destination)
    case Some(key) => QueueMessage(r, r.routes[key], m, id)
    case None => Reply(NewResponse(m, Some(r.me), NoRoute, id, None))
  }

  /** `route_message` returns within `calls` nested calls; each reply draws one message id. */
  predicate EndsWithin(r: Router, m: Message, id: nat, calls: nat)
    decreases calls
  {
    calls > 0 &&
    match RouteOnce(r, m, id)
    case Reply(response) => EndsWithin(r, response, id + 1, calls - 1)
    case _ => true
  }

  /** The outcome of the last call of a chain that ends. */
  function Final(r: Router, m: Message, id: nat, calls: nat): (o: Outcome)
    requires EndsWithin(r, m, id, calls)
    ensures !o.Reply?
    decreases calls
  {
    match RouteOnce(r, m, id)
    case Reply(response) => Final(r, response, id + 1, calls - 1)
    case o => o
  }

  /** How many message ids a chain that ends draws. */
  function Drawn(r: Router, m: Message, id: nat, calls: nat): (n: nat)
    requires EndsWithin(r, m, id, calls)
    ensures n < calls
    decreases calls
  {
    match RouteOnce(r, m, id)
    case Reply(response) => 1 + Drawn(r, response, id + 1, calls - 1)
    case _ => 0
  }

  // ---------------------------------------------- where a path leads a message

  datatype Fate = NoEntry | RemoteEntry | LocalNode | LocalService

  function FateOf(r: Router, p: ServicePath): Fate {
    match Lookup(r.routes, p)
    case None => NoEntry
    case Some(key) =>
      if r.routes[key].RemoteHop? then RemoteEntry else if p.serviceType == "" then LocalNode else LocalService
  }

  /** A response to this path is absorbed at once: sent on, or dropped by the node itself. */
  predicate Absorbs(r: Router, p: ServicePath) { FateOf(r, p) in {RemoteEntry, LocalNode} }

  /** The exact condition, on the table and the header alone, under which `route_message` returns. */
  predicate Returns(r: Router, m: Message) {
    var src, dst := m.header.source, m.header.destination;
    match FateOf(r, dst)
    case LocalNode => true
    case RemoteEntry => m.header.ttl == 1 ==> Absorbs(r, src) || Absorbs(r, r.me)
    case NoEntry => Absorbs(r, src) || Absorbs(r, r.me)
    case LocalService => Absorbs(r, src) || (FateOf(r, src) == NoEntry && Absorbs(r, r.me))
  }

  predicate IsReply(m: Message) { m.body.Response? && m.header.ttl == INITIAL_TTL }

  /** A reply that is not absorbed is answered by one with the roles turned round. */
  lemma ReplyStep(r: Router, m: Message, id: nat)
    requires IsReply(m)
    ensures Absorbs(r, m.header.destination) <==> !RouteOnce(r, m, id).Reply?
    ensures RouteOnce(r, m, id) != Panicked
    ensures RouteOnce(r, m, id).Reply? ==>
              var next := RouteOnce(r, m, id).response;
              && IsReply(next) && next.header.destination == m.header.source
              && next.header.source ==
                 (if FateOf(r, m.header.destination) == NoEntry then r.me else m.header.destination)
  {
  }

  lemma AbsorbedReply(r: Router, m: Message, id: nat, calls: nat)
    requires IsReply(m) && Absorbs(r, m.header.destination) && calls >= 1
    ensures EndsWithin(r, m, id, calls) && Final(r, m, id, calls) != Panicked
  {
    ReplyStep(r, m, id);
  }

  /** Between two paths that do not absorb, where the answers keep the same two ends, replies go on forever. */
  lemma {:induction false} Alternates(r: Router, m: Message, id: nat, calls: nat)
    requires IsReply(m)
    requires !Absorbs(r, m.header.destination) && !Absorbs(r, m.header.source)
    requires FateOf(r, m.header.destination) == LocalService || m.header.destination == r.me
    requires FateOf(r, m.header.source) == LocalService || m.header.source == r.me
    ensures !EndsWithin(r, m, id, calls)
    decreases calls
  {
    if calls > 0 {
      ReplyStep(r, m, id);
      Alternates(r, RouteOnce(r, m, id).response, id + 1, calls - 1);
    }
  }

  /** A reply from the node itself to `dst` (always the first reply after a missing route or expiry). */
  lemma FromMe(r: Router, m: Message, id: nat)
    requires IsReply(m) && m.header.source == r.me
    ensures Absorbs(r, m.header.destination) || Absorbs(r, r.me) ==>
              && EndsWithin(r, m, id, 2) && EndsWithin(r, m, id, 3)
              && Final(r, m, id, 2) != Panicked && Final(r, m, id, 3) != Panicked
    ensures !Absorbs(r, m.header.destination) && !Absorbs(r, r.me) ==> forall k: nat :: !EndsWithin(r, m, id, k)
  {
    ReplyStep(r, m, id);
    if Absorbs(r, m.header.destination) {
      AbsorbedReply(r, m, id, 2);
      AbsorbedReply(r, m, id, 3);
    } else {
      var next := RouteOnce(r, m, id).response;
      if Absorbs(r, r.me) {
        AbsorbedReply(r, next, id + 1, 1);
        AbsorbedReply(r, next, id + 1, 2);
      } else {
        forall k: nat ensures !EndsWithin(r, m, id, k) {
          if k > 0 {
            Alternates(r, next, id + 1, k - 1);
          }
        }
      }
    }
  }

  /** A reply from a path that resolved locally. */
  lemma FromLocal(r: Router, m: Message, id: nat)
    requires IsReply(m) && FateOf(r, m.header.source) in {LocalNode, LocalService}
    ensures var src, dst := m.header.source, m.header.destination;
            var ends := Absorbs(r, dst) || Absorbs(r, src) || (FateOf(r, dst) == NoEntry && Absorbs(r, r.me));
            && (ends ==> EndsWithin(r, m, id, 3) && Final(r, m, id, 3) != Panicked)
            && (!ends ==> forall k: nat :: !EndsWithin(r, m, id, k))
  {
    ReplyStep(r, m, id);
    if Absorbs(r, m.header.destination) {
      AbsorbedReply(r, m, id, 3);
    } else {
      var next := RouteOnce(r, m, id).response;
      if FateOf(r, m.header.destination) == NoEntry {
        FromMe(r, next, id + 1);
        forall k: nat | !Absorbs(r, m.header.source) && !Absorbs(r, r.me) ensures !EndsWithin(r, m, id, k) {
          if k > 0 {
            assert !EndsWithin(r, next, id + 1, k - 1);
          }
        }
      } else if Absorbs(r, m.header.source) {
        AbsorbedReply(r, next, id + 1, 2);
      } else {
        forall k: nat ensures !EndsWithin(r, m, id, k) {
          Alternates(r, m, id, k);
        }
      }
    }
  }

  lemma RepliesGoOn(r: Router, m: Message, id: nat)
    requires RouteOnce(r, m, id).Reply?
    ensures forall k: nat :: EndsWithin(r, m, id, k) ==>
              k > 0 && EndsWithin(r, RouteOnce(r, m, id).response, id + 1, k - 1)
  {
  }

  /** `route_message` returns exactly under `Returns`, then within four nested calls;
      otherwise no number of calls is enough. */
  lemma RoutingTermination(r: Router, m: Message, id: nat)
    ensures Returns(r, m) ==> EndsWithin(r, m, id, 4)
    ensures (exists k: nat :: EndsWithin(r, m, id, k)) ==> Returns(r, m)
  {
    var o := RouteOnce(r, m, id);
    if o.Reply? {
      var next := o.response;
      RepliesGoOn(r, m, id);
      if FateOf(r, m.header.destination) in {NoEntry, RemoteEntry} {
        FromMe(r, next, id + 1);
      } else {
        FromLocal(r, next, id + 1);
      }
    }
  }

  /** The node's own path carries no service and resolves to the local next hop. */
  predicate WellConfigured(r: Router) { FateOf(r, r.me) == LocalNode }

  /** On a well-configured node the only endless case is a message between two service paths
      of the node itself, neither of which has a route of its own. */
  lemma WellConfiguredTermination(r: Router, m: Message, id: nat)
    requires WellConfigured(r)
    ensures EndsWithin(r, m, id, 4) <==>
            !(FateOf(r, m.header.source) == LocalService && FateOf(r, m.header.destination) == LocalService)
    ensures !EndsWithin(r, m, id, 4) ==> forall k: nat :: !EndsWithin(r, m, id, k)
  {
    RoutingTermination(r, m, id);
  }

  /** The connection of the remote entry that the path resolves to. */
  function HopTo(r: Router, p: ServicePath): ConnInfo
    requires FateOf(r, p) == RemoteEntry
  {
    r.routes[Lookup(r.routes, p).value].conn
  }

  /** A response written out: from `from` to the source of the request, with the id of the request. */
  function Answer(m: Message, from: ServicePath, code: ErrorCode, id: nat, routes: Option<set<RouteEntry>>): Message {
    Message(Header(1, id, 64, from, m.header.source), Response(m.header.id, code, routes))
  }

  /** What the node itself answers: a ping, and the routes query with its remote routes; any other management
      request panics, and everything else is dropped. */
  lemma AnsweredByNode(r: Router, m: Message, id: nat)
    requires FateOf(r, m.header.destination) == LocalNode
    ensures m.body.PingRequest? ==> RouteOnce(r, m, id) == Reply(Answer(m, m.header.destination, Ok, id, None))
    ensures m.body == ManagementRequest(SwbusdGetRoutes) ==>
              RouteOnce(r, m, id) == Reply(Answer(m, m.header.destination, Ok, id, Some(Export(r.routes))))
    ensures m.body.ManagementRequest? && m.body.request != SwbusdGetRoutes <==> RouteOnce(r, m, id) == Panicked
    ensures !m.body.PingRequest? && !m.body.ManagementRequest? <==> RouteOnce(r, m, id) == Dropped
  {
  }

  /** What comes of a message that does not reach a service of its own node: NoRoute comes from the node, or from the
      destination where that is a service path without a route; a remote hop counts the TTL down, and tells the source
      once it is used up. */
  lemma AnsweredByFate(r: Router, m: Message, id: nat)
    ensures FateOf(r, m.header.destination) == NoEntry ==>
              RouteOnce(r, m, id) == Reply(Answer(m, r.me, NoRoute, id, None))
    ensures FateOf(r, m.header.destination) == LocalService ==>
              RouteOnce(r, m, id) == Reply(Answer(m, m.header.destination, NoRoute, id, None))
    ensures FateOf(r, m.header.destination) == RemoteEntry && m.header.ttl == 1 ==>
              RouteOnce(r, m, id) == Reply(Answer(m, r.me, Unreachable, id, None))
    ensures FateOf(r, m.header.destination) == RemoteEntry && m.header.ttl >= 2 ==>
              RouteOnce(r, m, id)
              == Queued(HopTo(r, m.header.destination), m.(header := m.header.(ttl := m.header.ttl - 1)))
  {
  }

  /** A request that is answered, by whom and however it may be, gets its answer on the connection towards its source,
      if there is one. */
  lemma AnswerReachesSource(r: Router, m: Message, id: nat, from: ServicePath, code: ErrorCode,
                            routes: Option<set<RouteEntry>>)
    requires RouteOnce(r, m, id) == Reply(Answer(m, from, code, id, routes))
    requires FateOf(r, m.header.source) == RemoteEntry
    ensures EndsWithin(r, m, id, 4) && Drawn(r, m, id, 4) == 1
    ensures Final(r, m, id, 4)
         == Queued(HopTo(r, m.header.source),
                   Message(Header(1, id, 63, from, m.header.source), Response(m.header.id, code, routes)))
  {
    var response := Answer(m, from, code, id, routes);
    AnsweredByFate(r, response, id + 1);
    assert EndsWithin(r, response, id + 1, 3);
  }

  /** A ping of the node is answered Ok on the connection towards its source, and a routes query with the exported
      routes. */
  lemma PingIsAnswered(r: Router, m: Message, id: nat)
    requires FateOf(r, m.header.destination) == LocalNode && FateOf(r, m.header.source) == RemoteEntry
    requires m.body.PingRequest? || m.body == ManagementRequest(SwbusdGetRoutes)
    ensures EndsWithin(r, m, id, 4) && Drawn(r, m, id, 4) == 1
    ensures Final(r, m, id, 4)
         == Queued(HopTo(r, m.header.source),
                   Message(Header(1, id, 63, m.header.destination, m.header.source),
                           Response(m.header.id, Ok, if m.body.PingRequest? then None else Some(Export(r.routes)))))
  {
    AnsweredByNode(r, m, id);
    AnswerReachesSource(r, m, id, m.header.destination, Ok,
                        if m.body.PingRequest? then None else Some(Export(r.routes)));
  }

  /** The only panics: a zero TTL on a remote hop where overflow is checked, and a management request the node does
      not serve. */
  lemma RoutingPanics(r: Router, m: Message, id: nat)
    requires Returns(r, m)
    ensures EndsWithin(r, m, id, 4)
    ensures Final(r, m, id, 4) == Panicked <==>
            || (FateOf(r, m.header.destination) == RemoteEntry && m.header.ttl == 0 && r.checked)
            || (&& FateOf(r, m.header.destination) == LocalNode
                && m.body.ManagementRequest? && m.body.request != SwbusdGetRoutes)
    ensures FateOf(r, m.header.destination) == RemoteEntry && m.header.ttl == 0 && !r.checked ==>
              Final(r, m, id, 4) == Queued(HopTo(r, m.header.destination), m.(header := m.header.(ttl := 0xFFFF_FFFF)))
  {
    RoutingTermination(r, m, id);
    var o := RouteOnce(r, m, id);
    if o.Reply? {
      if FateOf(r, m.header.destination) in {NoEntry, RemoteEntry} {
        FromMe(r, o.response, id + 1);
      } else {
        FromLocal(r, o.response, id + 1);
      }
    }
  }

  /** More calls than needed change nothing. */
  lemma {:induction false} EndsMonotone(r: Router, m: Message, id: nat, j: nat, k: nat)
    requires EndsWithin(r, m, id, j) && j <= k
    ensures EndsWithin(r, m, id, k) && Final(r, m, id, k) == Final(r, m, id, j)
    decreases j
  {
    var o := RouteOnce(r, m, id);
    if o.Reply? {
      EndsMonotone(r, o.response, id + 1, j - 1, k - 1);
    }
  }

  // ------------------------------------------------------- concrete routers

  const NodeA := ServicePath("r", "c", "a", "", "", "", "")
  const ServiceX := NodeA.(serviceType := "x", serviceId := "0")
  const ServiceY := NodeA.(serviceType := "y", serviceId := "0")
  const Elsewhere := ServicePath("q", "d", "b", "z", "0", "", "")

  lemma LoneRouter() returns (r: Router)
    ensures r.me == NodeA && WellConfigured(r)
    ensures FateOf(r, ServiceX) == FateOf(r, ServiceY) == LocalService
    ensures FateOf(r, Elsewhere) == NoEntry
  {
    r := Router(map[ToNodePrefix(NodeA) := LocalHop], NodeA, true);
    forall p | p in [NodeA, ServiceX, ServiceY, Elsewhere] ensures SeparatorFree(p) {
    }
    forall p, ct | p in [NodeA, ServiceX, ServiceY, Elsewhere]
      ensures RouteKey(ct, p) == ToNodePrefix(NodeA) <==> ct == Cluster && SameNode(p, NodeA)
    {
      RouteKeyInjective(ct, p, Cluster, NodeA);
    }
    assert SameNode(NodeA, NodeA) && SameNode(ServiceX, NodeA) && SameNode(ServiceY, NodeA)
           && !SameNode(Elsewhere, NodeA);
    LookupOnly(r.routes, NodeA);
    LookupOnly(r.routes, ServiceX);
    LookupOnly(r.routes, ServiceY);
    LookupOnly(r.routes, Elsewhere);
  }

  lemma LookupOnly(routes: Routes, p: ServicePath)
    requires forall ct :: RouteKey(ct, p) in routes ==> ct == Cluster
    ensures Lookup(routes, p) == if RouteKey(Cluster, p) in routes then Some(RouteKey(Cluster, p)) else None
  {
    assert LookupFrom(routes, p, 0) == LookupFrom(routes, p, 1);
    assert LookupFrom(routes, p, 2) == LookupFrom(routes, p, 3) == LookupFrom(routes, p, 4);
  }

  /** A well-configured node and a data message for which `route_message` never returns,
      against the comment that argues it always does. */
  lemma EndlessExample() returns (r: Router, m: Message)
    ensures WellConfigured(r) && m.header.ttl == INITIAL_TTL && m.body.DataRequest?
    ensures forall id, k: nat :: !EndsWithin(r, m, id, k)
  {
    r := LoneRouter();
    m := Message(NewHeader(ServiceX, ServiceY, 0), DataRequest(""));
    forall id, k: nat ensures !EndsWithin(r, m, id, k) {
      RoutingTermination(r, m, id);
    }
  }

  /** The bound of four calls is reached. */
  lemma FourCallsExample() returns (r: Router, m: Message)
    ensures WellConfigured(r) && EndsWithin(r, m, 0, 4) && !EndsWithin(r, m, 0, 3)
  {
    r := LoneRouter();
    m := Message(NewHeader(Elsewhere, ServiceX, 0), DataRequest(""));
    RoutingTermination(r, m, 0);
    var m1 := RouteOnce(r, m, 0).response;
    ReplyStep(r, m1, 1);
    var m2 := RouteOnce(r, m1, 1).response;
    ReplyStep(r, m2, 2);
    assert !EndsWithin(r, m2, 2, 1);
    assert !EndsWithin(r, m1, 1, 2);
  }
}
