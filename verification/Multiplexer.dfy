/** The multiplexer object: it changes its tables in place and pushes on the queues of its connections
    (crates/swbus-core/src/mux/multiplexer.rs, nexthop.rs). */
module Multiplexer {
  import opened Wrappers
  import opened ServicePaths
  import opened Messages
  import opened RouteTable
  import opened Routing

  type Queues = map<ConnInfo, seq<Message>>

  function Enqueue(queues: Queues, conn: ConnInfo, m: Message): (q: Queues)
    ensures q.Keys == queues.Keys + {conn}
  {
    queues[conn := (if conn in queues then queues[conn] else []) + [m]]
  }

  /** The queues after a routing chain whose last call came to `o`. */
  function Delivered(queues: Queues, o: Outcome): Queues {
    if o.Queued? then Enqueue(queues, o.conn, o.message) else queues
  }

  function QueueOf(queues: Queues, conn: ConnInfo): seq<Message> { if conn in queues then queues[conn] else [] }

  /** A message queued on a connection is the last of its queue, behind all that is there; no other queue changes, and
      every other outcome changes none. */
  lemma DeliveredLast(queues: Queues, o: Outcome, conn: ConnInfo)
    ensures QueueOf(Delivered(queues, o), conn)
         == QueueOf(queues, conn) + (if o.Queued? && o.conn == conn then [o.message] else [])
  {
  }

  /** Two tables agree on every key but this one. */
  ghost predicate AgreeExcept(a: Routes, b: Routes, key: string) {
    forall k :: k != key ==> (k in a <==> k in b) && (k in a ==> a[k] == b[k])
  }

  class SwbusMultiplexer {
    /** Whether the build checks integer overflow. */
    const checked: bool
    var routes: Routes
    var myRoutes: set<RouteConfig>
    /** What iterating over `myRoutes` yields first; any member may come first. */
    var first: Option<ServicePath>
    var nextId: nat
    var queues: Queues

    ghost predicate Valid()
      reads this
    {
      match first
      case Some(p) => exists r :: r in myRoutes && r.key == p
      case None => myRoutes == {}
    }

    /** The routing view of the object once its own routes are set. */
    function AsRouter(): Router
      requires first.Some?
      reads this
    {
      Router(routes, first.value, checked)
    }

    constructor (startId: nat, checked: bool)
      ensures Valid() && this.checked == checked
      ensures routes == map[] && myRoutes == {} && nextId == startId && queues == map[]
    {
      this.checked := checked;
      routes, myRoutes, first, nextId, queues := map[], {}, None, startId, map[];
    }

    method GenerateMessageId() returns (id: nat)
      modifies this`nextId
      ensures id == old(nextId) && nextId == id + 1
    {
      id := nextId;
      nextId := nextId + 1;
    }

    method UpdateEntry(key: string, nexthop: NextHop)
      modifies this`routes
      ensures routes == UpdateRoute(old(routes), key, nexthop)
    {
      if key in routes {
        if routes[key].HopCount() > nexthop.HopCount() {
          routes := routes[key := nexthop];
        }
      } else {
        routes := routes[key := nexthop];
      }
    }

    method Register(conn: ConnInfo)
      modifies this`routes
      ensures routes == RegisterConn(old(routes), conn)
      ensures var key := RouteKey(conn.connectionType, conn.remoteServicePath);
              && AgreeExcept(routes, old(routes), key) && key in routes
              && routes[key] == if key in old(routes) && (old(routes)[key].LocalHop? || old(routes)[key].hops <= 1)
                                then old(routes)[key] else RemoteHop(conn, 1)
    {
      UpdateEntry(ConnKey(conn), RemoteHop(conn, 1));
    }

    method Unregister(conn: ConnInfo)
      modifies this`routes
      ensures routes == UnregisterConn(old(routes), conn)
      ensures var key := RouteKey(conn.connectionType, conn.remoteServicePath);
              AgreeExcept(routes, old(routes), key) && key !in routes
    {
      routes := routes - {ConnKey(conn)};
    }

    method SetMyRoutes(mine: seq<RouteConfig>)
      requires Valid()
      modifies this`routes, this`myRoutes, this`first
      ensures Valid()
      ensures routes == AddMyRoutes(old(routes), mine)
      ensures myRoutes == old(myRoutes) + set r | r in mine
    {
      for i := 0 to |mine|
        invariant AddMyRoutes(routes, mine[i..]) == AddMyRoutes(old(routes), mine)
        invariant myRoutes == old(myRoutes) + set r | r in mine[..i]
      {
        assert mine[i..][0] == mine[i] && mine[i..][1..] == mine[i + 1..];
        if mine[i].scope == ScopeCluster {
          UpdateEntry(ToNodePrefix(mine[i].key), LocalHop);
        }
        myRoutes := myRoutes + {mine[i]};
        assert mine[..i + 1] == mine[..i] + [mine[i]];
      }
      assert mine[..|mine|] == mine;
      if myRoutes == {} {
        first := None;
      } else {
        var r :| r in myRoutes;
        first := Some(r.key);
      }
    }

    /** `queue_message`: the TTL is counted down and the message pushed, or a response made. */
    method QueueOn(nexthop: NextHop, m: Message) returns (o: Outcome)
      requires first.Some?
      modifies this`nextId, this`queues
      ensures o == QueueMessage(old(AsRouter()), nexthop, m, old(nextId))
      ensures nextId == old(nextId) + (if o.Reply? then 1 else 0)
      ensures queues == Delivered(old(queues), o)
    {
      match nexthop
      case LocalHop =>
        o := ProcessLocal(AsRouter(), m, nextId);
        if o.Reply? {
          var _ := GenerateMessageId();
        }
      case RemoteHop(conn, _) =>
        if m.header.ttl == 0 && checked {
          return Panicked;
        }
        var message := m;
        message := message.(header := message.header.(ttl := CountedDown(message.header.ttl)));
        if message.header.ttl == 0 {
          var me := first.value;
          var id := GenerateMessageId();
          return Reply(NewResponse(message, Some(me), Unreachable, id, None));
        }
        queues := Enqueue(queues, conn, message);
        o := Queued(conn, message);
    }

    /** `route_message`, wherever its chain of calls ends: exactly the outcome of the last call takes
        effect on the queues, and one message id is drawn for each response. */
    method RouteMessage(m: Message, ghost calls: nat) returns (o: Outcome)
      requires first.Some? && EndsWithin(AsRouter(), m, nextId, calls)
      modifies this`nextId, this`queues
      ensures o == Final(old(AsRouter()), m, old(nextId), calls)
      ensures queues == Delivered(old(queues), o)
      ensures nextId == old(nextId) + Drawn(old(AsRouter()), m, old(nextId), calls)
      decreases calls
    {
      var stage := 0;
      while stage < 4
        invariant 0 <= stage <= 4
        invariant Lookup(routes, m.header.destination) == LookupFrom(routes, m.header.destination, stage)
        invariant nextId == old(nextId) && queues == old(queues)
      {
        var key := RouteKey(STAGES[stage], m.header.destination);
        if key in routes {
          o := QueueOn(routes[key], m);
          if o.Reply? {
            o := RouteMessage(o.response, calls - 1);
          }
          return;
        }
        stage := stage + 1;
      }
      var me := first.value;
      var id := GenerateMessageId();
      o := RouteMessage(NewResponse(m, Some(me), NoRoute, id, None), calls - 1);
    }
  }
}
