/** Connection tracking and the routes of live connections
    (crates/swbus-core/src/mux/conn_store.rs, conn_worker.rs `run`). */
module ConnStore {
  import opened Wrappers
  import opened ServicePaths
  import opened RouteTable
  import opened Multiplexer

  datatype Tracker = Live | Retrying

  /** `workers` are the connections whose worker task is running, `peers` the configured ones. */
  datatype Store = Store(
    routes: Routes, connections: map<ConnInfo, Tracker>, workers: set<ConnInfo>, peers: set<ConnInfo>, shutDown: bool)

  datatype Event =
    | AddPeer(conn: ConnInfo)
    | Established(conn: ConnInfo)
    | WorkerEnd(conn: ConnInfo, lost: bool)
    | ShutDown

  function Lost(connections: map<ConnInfo, Tracker>, conn: ConnInfo): map<ConnInfo, Tracker> {
    if conn.mode == ClientMode then connections[conn := Retrying] else connections - {conn}
  }

  function Next(st: Store, ev: Event): Store {
    match ev
    case AddPeer(c) => st.(connections := st.connections[c := Retrying], peers := st.peers + {c})
    case Established(c) =>
      st.(routes := RegisterConn(st.routes, c), connections := st.connections[c := Live], workers := st.workers + {c})
    case WorkerEnd(c, lost) =>
      st.(routes := UnregisterConn(st.routes, c), workers := st.workers - {c},
          connections := if lost then Lost(st.connections, c) else st.connections)
    case ShutDown => st.(connections := map[], shutDown := true)
  }

  /** The order of events this model covers: a peer is added once and before shutdown, a connection is
      established before its worker ends, and a worker ends without loss only when told to shut down. */
  predicate Enabled(st: Store, ev: Event) {
    match ev
    case AddPeer(c) => c.mode == ClientMode && c !in st.connections && c !in st.workers && !st.shutDown
    case Established(c) => c !in st.workers && (c.mode == ClientMode && !st.shutDown ==> c in st.peers)
    case WorkerEnd(c, lost) => c in st.workers && (!lost ==> st.shutDown)
    case ShutDown => !st.shutDown
  }

  predicate IsRun(st: Store, evs: seq<Event>)
    decreases |evs|
  {
    evs == [] || (Enabled(st, evs[0]) && IsRun(Next(st, evs[0]), evs[1..]))
  }

  function After(st: Store, evs: seq<Event>): Store
    decreases |evs|
  {
    if evs == [] then st else After(Next(st, evs[0]), evs[1..])
  }

  /** The state of a node that has only set its own routes. */
  function Start(mine: seq<RouteConfig>): Store {
    Store(AddMyRoutes(map[], mine), map[], {}, {}, false)
  }

  // ------------------------------------------------- routes of live connections

  /** The remote entries of the table are exactly the live connections, one hop away. */
  ghost predicate RoutesExact(st: Store) {
    && (forall c :: c in st.workers ==> ConnKey(c) in st.routes && st.routes[ConnKey(c)] == RemoteHop(c, 1))
    && (forall k :: k in st.routes && st.routes[k].RemoteHop? ==>
          st.routes[k].conn in st.workers && k == ConnKey(st.routes[k].conn))
  }

  /** No live connection and none of the node's own routes has the key of this connection. */
  predicate KeyFree(st: Store, conn: ConnInfo) { ConnKey(conn) !in st.routes }

  /** A step keeps the table exact precisely if a connection is established only under a free key. */
  lemma StepExact(st: Store, ev: Event)
    requires RoutesExact(st) && Enabled(st, ev)
    ensures RoutesExact(Next(st, ev)) <==> (ev.Established? ==> KeyFree(st, ev.conn))
  {
    var st' := Next(st, ev);
    match ev
    case Established(c) =>
      if KeyFree(st, c) {
        forall d | d in st'.workers ensures ConnKey(d) in st'.routes && st'.routes[ConnKey(d)] == RemoteHop(d, 1) {
        }
      } else {
        assert st'.routes == st.routes;
        assert c in st'.workers;
        assert st.routes[ConnKey(c)].RemoteHop? ==> st.routes[ConnKey(c)].conn != c;
      }
    case WorkerEnd(c, _) =>
      forall d | d in st'.workers ensures ConnKey(d) in st'.routes {
        assert st.routes[ConnKey(d)].conn == d && st.routes[ConnKey(c)].conn == c;
      }
    case _ =>
  }

  /** Every connection of the run was established under a key free at that moment. */
  predicate KeysFree(st: Store, evs: seq<Event>)
    decreases |evs|
  {
    evs == [] || ((evs[0].Established? ==> KeyFree(st, evs[0].conn)) && KeysFree(Next(st, evs[0]), evs[1..]))
  }

  ghost predicate AlwaysExact(st: Store, evs: seq<Event>)
    decreases |evs|
  {
    RoutesExact(st) && (evs == [] || AlwaysExact(Next(st, evs[0]), evs[1..]))
  }

  /** Over a run, the remote entries are the live connections at every moment if and only if no
      connection was established under a key already taken. */
  lemma {:induction false} RunExact(st: Store, evs: seq<Event>)
    requires RoutesExact(st) && IsRun(st, evs)
    ensures AlwaysExact(st, evs) <==> KeysFree(st, evs)
    decreases |evs|
  {
    if evs != [] {
      StepExact(st, evs[0]);
      if RoutesExact(Next(st, evs[0])) {
        RunExact(Next(st, evs[0]), evs[1..]);
      }
    }
  }

  lemma {:induction false} OwnRoutesLocal(routes: Routes, mine: seq<RouteConfig>)
    requires forall k :: k in routes ==> routes[k] == LocalHop
    ensures forall k :: k in AddMyRoutes(routes, mine) ==> AddMyRoutes(routes, mine)[k] == LocalHop
    decreases |mine|
  {
    if mine != [] {
      var r := mine[0];
      OwnRoutesLocal(if r.scope == ScopeCluster then UpdateRoute(routes, ToNodePrefix(r.key), LocalHop) else routes,
                     mine[1..]);
    }
  }

  lemma {:induction false} RunAppend(st: Store, evs: seq<Event>, ev: Event)
    requires IsRun(st, evs) && Enabled(After(st, evs), ev)
    ensures IsRun(st, evs + [ev]) && After(st, evs + [ev]) == Next(After(st, evs), ev)
    decreases |evs|
  {
    if evs == [] {
      assert [ev][1..] == [] && evs + [ev] == [ev];
    } else {
      RunAppend(Next(st, evs[0]), evs[1..], ev);
      assert (evs + [ev])[1..] == evs[1..] + [ev];
    }
  }

  /** After any run: when two connections of the same key are established, whatever their modes, the end of
      either leaves the other live without a route. */
  lemma SharedKeyLosesRoute(st: Store, evs: seq<Event>, first: ConnInfo, second: ConnInfo, ended: ConnInfo)
    requires IsRun(st, evs) && first != second && ConnKey(first) == ConnKey(second) && ended in {first, second}
    requires Enabled(After(st, evs), Established(first))
    requires Enabled(Next(After(st, evs), Established(first)), Established(second))
    ensures var more := evs + [Established(first)] + [Established(second)] + [WorkerEnd(ended, true)];
            var left := if ended == first then second else first;
            && IsRun(st, more)
            && left in After(st, more).workers && ConnKey(left) !in After(st, more).routes
  {
    RunAppend(st, evs, Established(first));
    RunAppend(st, evs + [Established(first)], Established(second));
    RunAppend(st, evs + [Established(first)] + [Established(second)], WorkerEnd(ended, true));
  }

  /** Mutual peering: this node dials its peer and the peer dials it, so `dialled` and `accepted` share a key.
      Whichever is established first and whichever ends, the other loses its route. */
  lemma MutualPeeringLosesRoute(mine: seq<RouteConfig>, dialled: ConnInfo, accepted: ConnInfo, inOrder: bool,
                                ended: ConnInfo)
    requires dialled.mode == ClientMode && accepted.mode == ServerMode && ConnKey(dialled) == ConnKey(accepted)
    requires ended in {dialled, accepted}
    ensures var first, second := if inOrder then dialled else accepted, if inOrder then accepted else dialled;
            var evs := [AddPeer(dialled)] + [Established(first)] + [Established(second)] + [WorkerEnd(ended, true)];
            var left := if ended == dialled then accepted else dialled;
            && IsRun(Start(mine), evs)
            && left in After(Start(mine), evs).workers && ConnKey(left) !in After(Start(mine), evs).routes
  {
    var first, second := if inOrder then dialled else accepted, if inOrder then accepted else dialled;
    RunAppend(Start(mine), [], AddPeer(dialled));
    assert [] + [AddPeer(dialled)] == [AddPeer(dialled)];
    SharedKeyLosesRoute(Start(mine), [AddPeer(dialled)], first, second, ended);
  }

  // ------------------------------------------------------- configured peers

  /** Until shutdown, the tracked live connections are the running workers, and a task retries exactly for the
      configured peers without one. */
  ghost predicate PeersTracked(st: Store) {
    !st.shutDown ==>
      && (forall c :: c in st.workers <==> c in st.connections && st.connections[c] == Live)
      && (forall c :: c in st.peers ==> c.mode == ClientMode)
      && (forall c :: c in st.connections && st.connections[c] == Retrying <==> c in st.peers && c !in st.workers)
      && (forall c :: c in st.workers && c.mode == ClientMode ==> c in st.peers)
  }

  lemma {:induction false} PeersStayTracked(st: Store, evs: seq<Event>)
    requires PeersTracked(st) && IsRun(st, evs)
    ensures PeersTracked(After(st, evs))
    decreases |evs|
  {
    if evs != [] {
      PeersStayTracked(Next(st, evs[0]), evs[1..]);
    }
  }

  /** Every run of a node from its own routes: the table is exact throughout if and only if no taken key
      is used again, and until shutdown no configured peer is forgotten. */
  lemma ConnectionLifecycle(mine: seq<RouteConfig>, evs: seq<Event>)
    requires IsRun(Start(mine), evs)
    ensures AlwaysExact(Start(mine), evs) <==> KeysFree(Start(mine), evs)
    ensures PeersTracked(After(Start(mine), evs))
  {
    OwnRoutesLocal(map[], mine);
    RunExact(Start(mine), evs);
    PeersStayTracked(Start(mine), evs);
  }

  // --------------------------------------------------------------- shutdown

  /** Once shutdown has let go of everything, a connection is tracked only if it was established later, or is one
      whose loss was noticed later. */
  lemma {:induction false} TrackedAfterShutdown(st: Store, evs: seq<Event>, conn: ConnInfo)
    requires Enabled(st, ShutDown) && IsRun(Next(st, ShutDown), evs)
    ensures var after := After(Next(st, ShutDown), evs);
            conn in after.connections ==> Established(conn) in evs || WorkerEnd(conn, true) in evs
  {
    TrackedLater(Next(st, ShutDown), evs, conn);
  }

  lemma {:induction false} TrackedLater(st: Store, evs: seq<Event>, conn: ConnInfo)
    requires IsRun(st, evs) && st.shutDown && conn !in st.connections
    ensures conn in After(st, evs).connections ==> Established(conn) in evs || WorkerEnd(conn, true) in evs
    decreases |evs|
  {
    if evs != [] && evs[0] != Established(conn) && evs[0] != WorkerEnd(conn, true) {
      TrackedLater(Next(st, evs[0]), evs[1..], conn);
    }
  }

  /** The two tables have the same local entries. */
  ghost predicate SameLocal(a: Routes, b: Routes) {
    forall k :: (k in a && a[k] == LocalHop) <==> (k in b && b[k] == LocalHop)
  }

  lemma {:induction false} LocalKept(st: Store, evs: seq<Event>)
    requires RoutesExact(st) && IsRun(st, evs) && KeysFree(st, evs)
    ensures RoutesExact(After(st, evs)) && SameLocal(st.routes, After(st, evs).routes)
    decreases |evs|
  {
    if evs != [] {
      StepExact(st, evs[0]);
      LocalKept(Next(st, evs[0]), evs[1..]);
    }
  }

  /** When all workers have ended, as they do after shutdown, the table is again that of the node's own routes,
      provided no connection was established under a taken key. */
  lemma TableDrained(mine: seq<RouteConfig>, evs: seq<Event>)
    requires IsRun(Start(mine), evs) && KeysFree(Start(mine), evs) && After(Start(mine), evs).workers == {}
    ensures After(Start(mine), evs).routes == AddMyRoutes(map[], mine)
  {
    OwnRoutesLocal(map[], mine);
    LocalKept(Start(mine), evs);
    var routes := After(Start(mine), evs).routes;
    assert forall k :: k in routes ==> routes[k] == LocalHop;
  }

  // ------------------------------------------------ lookup in reachable states

  predicate ConnPathsSeparatorFree(evs: seq<Event>) {
    forall ev :: ev in evs ==> ev.ShutDown? || SeparatorFree(ev.conn.remoteServicePath)
  }

  lemma {:induction false} RunKeyed(st: Store, evs: seq<Event>)
    requires Keyed(st.routes) && ConnPathsSeparatorFree(evs)
    ensures Keyed(After(st, evs).routes)
    decreases |evs|
  {
    if evs != [] {
      if !evs[0].ShutDown? {
        TableStaysKeyed(st.routes, evs[0].conn, []);
      }
      RunKeyed(Next(st, evs[0]), evs[1..]);
    }
  }

  /** In every reachable state, whatever the keys, lookup finds the most specific matching entry. */
  lemma LookupInEveryState(mine: seq<RouteConfig>, evs: seq<Event>, dest: ServicePath)
    requires ConnPathsSeparatorFree(evs) && SeparatorFree(dest) && forall r :: r in mine ==> SeparatorFree(r.key)
    ensures var routes := After(Start(mine), evs).routes;
            && (Lookup(routes, dest).None? <==> forall k :: k in routes ==> !Matches(routes, k, dest))
            && (Lookup(routes, dest).Some? ==>
                  var key := Lookup(routes, dest).value;
                  && Matches(routes, key, dest)
                  && forall k :: k in routes && Matches(routes, k, dest) ==>
                       k == key || Rank(EntryLevel(routes[k])) > Rank(EntryLevel(routes[key])))
  {
    var conn := ConnInfo("", ClientMode, "", Client, None, EmptyPath);
    TableStaysKeyed(map[], conn, mine);
    RunKeyed(Start(mine), evs);
    LookupMostSpecific(After(Start(mine), evs).routes, dest);
  }

  // -------------------------------------------------------------- the object

  class SwbusConnStore {
    const mux: SwbusMultiplexer
    var connections: map<ConnInfo, Tracker>
    /** Connections told to shut down, and connect tasks that were cancelled. */
    var stopped: set<ConnInfo>
    ghost var workers: set<ConnInfo>
    ghost var peers: set<ConnInfo>
    ghost var shutDown: bool

    ghost function Abs(): Store
      reads this, mux
    {
      Store(mux.routes, connections, workers, peers, shutDown)
    }

    constructor (mux: SwbusMultiplexer)
      ensures this.mux == mux && Abs() == Store(mux.routes, map[], {}, {}, false) && stopped == {}
    {
      this.mux := mux;
      connections, stopped, workers, peers, shutDown := map[], {}, {}, {}, false;
    }

    method StartConnectTask(conn: ConnInfo)
      modifies this`connections
      ensures connections == old(connections)[conn := Retrying]
    {
      connections := connections[conn := Retrying];
    }

    method AddPeer(conn: ConnInfo)
      modifies this`connections, this`peers
      ensures Abs() == Next(old(Abs()), Event.AddPeer(conn))
    {
      StartConnectTask(conn);
      peers := peers + {conn};
    }

    method ConnLost(conn: ConnInfo)
      modifies this`connections
      ensures connections == Lost(old(connections), conn)
    {
      connections := connections - {conn};
      if conn.mode == ClientMode {
        StartConnectTask(conn);
      }
      assert connections == Lost(old(connections), conn);
    }

    method ConnEstablished(conn: ConnInfo)
      modifies this`connections, this`workers, mux`routes
      ensures Abs() == Next(old(Abs()), Established(conn))
    {
      mux.Register(conn);
      connections := connections[conn := Live];
      workers := workers + {conn};
    }

    /** The end of a worker's `run`. */
    method WorkerEnded(conn: ConnInfo, lost: bool)
      modifies this`connections, this`workers, mux`routes
      ensures Abs() == Next(old(Abs()), WorkerEnd(conn, lost))
    {
      mux.Unregister(conn);
      workers := workers - {conn};
      if lost {
        ConnLost(conn);
      }
    }

    /** Every tracked connection and every retry task is stopped, in any order. */
    method Shutdown()
      modifies this`connections, this`stopped, this`shutDown
      ensures Abs() == Next(old(Abs()), ShutDown)
      ensures stopped == old(stopped) + old(connections.Keys)
    {
      var todo := connections.Keys;
      while todo != {}
        invariant todo <= connections.Keys && connections == old(connections)
        invariant stopped == old(stopped) + (connections.Keys - todo)
        decreases |todo|
      {
        var c :| c in todo;
        stopped := stopped + {c};
        todo := todo - {c};
      }
      connections := map[];
      shutDown := true;
    }
  }
}
