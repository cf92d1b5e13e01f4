/** The string-keyed route table of the multiplexer as a value (crates/swbus-core/src/mux/multiplexer.rs). */
module RouteTable {
  import opened Wrappers
  import opened ServicePaths
  import opened Messages

  datatype ConnMode = ClientMode | ServerMode

  /** Identity of a connection (conn_info.rs). */
  datatype ConnInfo = ConnInfo(
    id: string, mode: ConnMode, remoteAddr: string, connectionType: ConnectionType,
    localServicePath: Option<ServicePath>, remoteServicePath: ServicePath)

  /** A next hop (nexthop.rs); only remote ones carry a connection. */
  datatype NextHop = LocalHop | RemoteHop(conn: ConnInfo, hops: nat) {
    function HopCount(): nat { if LocalHop? then 0 else hops }
  }

  type Routes = map<string, NextHop>

  function ConnKey(conn: ConnInfo): string { RouteKey(conn.connectionType, conn.remoteServicePath) }

  // --------------------------------------------------------- table updates

  /** An existing entry gives way only to a strictly smaller hop count. */
  function UpdateRoute(routes: Routes, key: string, nexthop: NextHop): Routes {
    if key in routes && routes[key].HopCount() <= nexthop.HopCount() then routes else routes[key := nexthop]
  }

  function RegisterConn(routes: Routes, conn: ConnInfo): Routes {
    UpdateRoute(routes, ConnKey(conn), RemoteHop(conn, 1))
  }

  function UnregisterConn(routes: Routes, conn: ConnInfo): Routes { routes - {ConnKey(conn)} }

  datatype RouteScope = ScopeClient | ScopeLocal | ScopeCluster | ScopeRegion | ScopeGlobal

  datatype RouteConfig = RouteConfig(key: ServicePath, scope: RouteScope)

  /** Each cluster-scope route of the node itself puts a local next hop at its node prefix. */
  function AddMyRoutes(routes: Routes, mine: seq<RouteConfig>): Routes
    decreases |mine|
  {
    if mine == [] then routes
    else
      var r := mine[0];
      AddMyRoutes(if r.scope == ScopeCluster then UpdateRoute(routes, ToNodePrefix(r.key), LocalHop) else routes,
                  mine[1..])
  }

  /** Who holds a key after an offer: whoever was there before, if it is local or no farther than a remote offer, or no
      farther than the node itself for a local one; else the newcomer. No other key changes. */
  lemma OfferTaken(routes: Routes, key: string, conn: ConnInfo, hops: nat, other: string)
    ensures key in UpdateRoute(routes, key, RemoteHop(conn, hops))
    ensures UpdateRoute(routes, key, RemoteHop(conn, hops))[key] ==
            if key in routes && (routes[key].LocalHop? || routes[key].hops <= hops) then routes[key]
            else RemoteHop(conn, hops)
    ensures key in UpdateRoute(routes, key, LocalHop)
    ensures UpdateRoute(routes, key, LocalHop)[key] ==
            if key in routes && (routes[key].LocalHop? || routes[key].hops == 0) then routes[key] else LocalHop
    ensures other != key ==> forall nexthop ::
              var after := UpdateRoute(routes, key, nexthop);
              (other in after <==> other in routes) && (other in routes ==> after[other] == routes[other])
  {
  }

  // ---------------------------------------------------- selection over runs

  datatype TableOp = Update(key: string, nexthop: NextHop) | Remove(key: string)

  function ApplyOp(routes: Routes, op: TableOp): Routes {
    match op
    case Update(key, nexthop) => UpdateRoute(routes, key, nexthop)
    case Remove(key) => routes - {key}
  }

  function ApplyOps(routes: Routes, ops: seq<TableOp>): Routes {
    if ops == [] then routes else ApplyOp(ApplyOps(routes, ops[..|ops| - 1]), ops[|ops| - 1])
  }

  /** What a key was ever offered: its initial entry, then every update of it in order. */
  function Offers(routes: Routes, ops: seq<TableOp>, key: string): seq<NextHop> {
    if ops == [] then (if key in routes then [routes[key]] else [])
    else
      var op := ops[|ops| - 1];
      Offers(routes, ops[..|ops| - 1], key) + (if op.Update? && op.key == key then [op.nexthop] else [])
  }

  /** `best` is the earliest of the offers with the smallest hop count. */
  ghost predicate EarliestShortest(offers: seq<NextHop>, best: NextHop) {
    exists i :: 0 <= i < |offers| && ShortestAt(offers, best, i)
  }

  ghost predicate ShortestAt(offers: seq<NextHop>, best: NextHop, i: nat)
    requires i < |offers|
  {
    && offers[i] == best
    && (forall j :: 0 <= j < i ==> offers[j].HopCount() > best.HopCount())
    && (forall j :: i <= j < |offers| ==> offers[j].HopCount() >= best.HopCount())
  }

  lemma OneMoreOffer(offers: seq<NextHop>, best: NextHop, next: NextHop)
    requires EarliestShortest(offers, best)
    ensures EarliestShortest(offers + [next], if next.HopCount() < best.HopCount() then next else best)
  {
    var i :| 0 <= i < |offers| && ShortestAt(offers, best, i);
    if best.HopCount() <= next.HopCount() {
      assert ShortestAt(offers + [next], best, i);
    } else {
      assert ShortestAt(offers + [next], next, |offers|);
    }
  }

  /** Over every sequence of table operations that does not remove the key, the stored next hop
      is the earliest among the offered ones with the smallest hop count. */
  lemma {:induction false} RouteSelection(routes: Routes, ops: seq<TableOp>, key: string)
    requires Remove(key) !in ops
    ensures key in ApplyOps(routes, ops) <==> Offers(routes, ops, key) != []
    ensures key in ApplyOps(routes, ops) ==>
              EarliestShortest(Offers(routes, ops, key), ApplyOps(routes, ops)[key])
  {
    if ops == [] {
      if key in routes {
        assert ShortestAt([routes[key]], routes[key], 0);
      }
    } else {
      var prior, op := ops[..|ops| - 1], ops[|ops| - 1];
      RouteSelection(routes, prior, key);
      var before, offers := ApplyOps(routes, prior), Offers(routes, prior, key);
      if op.Update? && op.key == key {
        if key in before {
          OneMoreOffer(offers, before[key], op.nexthop);
        } else {
          assert ShortestAt(offers + [op.nexthop], op.nexthop, 0);
        }
      } else {
        assert Offers(routes, ops, key) == offers;
      }
    }
  }

  /** A local next hop is never displaced while its key is not removed. */
  lemma {:induction false} LocalNeverDisplaced(routes: Routes, ops: seq<TableOp>, key: string)
    requires key in routes && routes[key] == LocalHop && Remove(key) !in ops
    ensures key in ApplyOps(routes, ops) && ApplyOps(routes, ops)[key] == LocalHop
  {
    if ops != [] {
      LocalNeverDisplaced(routes, ops[..|ops| - 1], key);
    }
  }

  // ----------------------------------------------------------------- lookup

  /** The four stages, most specific first (multiplexer.rs, ROUTE_STAGES). */
  const STAGES: seq<ConnectionType> := [Local, Cluster, Region, Global]

  function LookupFrom(routes: Routes, dest: ServicePath, stage: nat): (key: Option<string>)
    requires stage <= 4
    ensures key.Some? ==> key.value in routes
    decreases 4 - stage
  {
    if stage == 4 then None
    else if RouteKey(STAGES[stage], dest) in routes then Some(RouteKey(STAGES[stage], dest))
    else LookupFrom(routes, dest, stage + 1)
  }

  function Lookup(routes: Routes, dest: ServicePath): (key: Option<string>)
    ensures key.Some? ==> key.value in routes
  {
    LookupFrom(routes, dest, 0)
  }

  /** Every key was formed from a separator-free path at the level of its entry. */
  ghost predicate Keyed(routes: Routes) {
    forall key :: key in routes ==> exists p :: EntryPath(routes, key, p)
  }

  function EntryLevel(nexthop: NextHop): ConnectionType {
    if nexthop.LocalHop? then Cluster else nexthop.conn.connectionType
  }

  ghost predicate EntryPath(routes: Routes, key: string, p: ServicePath)
    requires key in routes
  {
    && SeparatorFree(p)
    && key == RouteKey(EntryLevel(routes[key]), p)
    && (routes[key].RemoteHop? ==> p == routes[key].conn.remoteServicePath)
  }

  lemma UpdateKeepsKeyed(routes: Routes, key: string, nexthop: NextHop, p: ServicePath)
    requires Keyed(routes) && SeparatorFree(p) && key == RouteKey(EntryLevel(nexthop), p)
    requires nexthop.RemoteHop? ==> p == nexthop.conn.remoteServicePath
    ensures Keyed(UpdateRoute(routes, key, nexthop))
  {
    var routes' := UpdateRoute(routes, key, nexthop);
    forall k | k in routes' ensures exists q :: EntryPath(routes', k, q) {
      if k in routes && routes'[k] == routes[k] {
        var q :| EntryPath(routes, k, q);
        assert EntryPath(routes', k, q);
      } else {
        assert EntryPath(routes', k, p);
      }
    }
  }

  /** Registering, unregistering and the node's own routes keep the table keyed. */
  lemma {:induction false} TableStaysKeyed(routes: Routes, conn: ConnInfo, mine: seq<RouteConfig>)
    requires Keyed(routes)
    requires SeparatorFree(conn.remoteServicePath) && forall r :: r in mine ==> SeparatorFree(r.key)
    ensures Keyed(map[])
    ensures Keyed(RegisterConn(routes, conn))
    ensures Keyed(UnregisterConn(routes, conn))
    ensures Keyed(AddMyRoutes(routes, mine))
    decreases |mine|
  {
    UpdateKeepsKeyed(routes, ConnKey(conn), RemoteHop(conn, 1), conn.remoteServicePath);
    var smaller := UnregisterConn(routes, conn);
    forall k | k in smaller ensures exists q :: EntryPath(smaller, k, q) {
      var q :| EntryPath(routes, k, q);
      assert EntryPath(smaller, k, q);
    }
    if mine != [] {
      var r := mine[0];
      UpdateKeepsKeyed(routes, ToNodePrefix(r.key), LocalHop, r.key);
      TableStaysKeyed(if r.scope == ScopeCluster then UpdateRoute(routes, ToNodePrefix(r.key), LocalHop) else routes,
                      conn, mine[1..]);
    }
  }

  /** The entry was registered for a path that agrees with the destination at its own level. */
  ghost predicate Matches(routes: Routes, key: string, dest: ServicePath)
    requires key in routes
  {
    && EntryLevel(routes[key]) != Client
    && exists p :: EntryPath(routes, key, p) && AgreeAt(EntryLevel(routes[key]), p, dest)
  }

  function Rank(ct: ConnectionType): nat {
    match ct case Client => 0 case Local => 1 case Cluster => 2 case Region => 3 case Global => 4
  }

  lemma MatchesByKey(routes: Routes, key: string, dest: ServicePath)
    requires Keyed(routes) && SeparatorFree(dest) && key in routes
    ensures Matches(routes, key, dest) <==>
            EntryLevel(routes[key]) != Client && key == RouteKey(EntryLevel(routes[key]), dest)
  {
    var level := EntryLevel(routes[key]);
    var p :| EntryPath(routes, key, p);
    RouteKeyInjective(level, p, level, dest);
    forall q | EntryPath(routes, key, q) && AgreeAt(level, q, dest) ensures key == RouteKey(level, dest) {
      RouteKeyInjective(level, q, level, dest);
    }
  }

  lemma LevelOfKey(routes: Routes, ct: ConnectionType, dest: ServicePath)
    requires Keyed(routes) && SeparatorFree(dest) && RouteKey(ct, dest) in routes
    ensures EntryLevel(routes[RouteKey(ct, dest)]) == ct
  {
    var key := RouteKey(ct, dest);
    var p :| EntryPath(routes, key, p);
    RouteKeyInjective(EntryLevel(routes[key]), p, ct, dest);
  }

  lemma {:induction false} LookupFromMostSpecific(routes: Routes, dest: ServicePath, stage: nat)
    requires Keyed(routes) && SeparatorFree(dest) && stage <= 4
    requires forall k :: k in routes && Matches(routes, k, dest) ==> Rank(EntryLevel(routes[k])) > stage
    ensures LookupFrom(routes, dest, stage).None? ==> forall k :: k in routes ==> !Matches(routes, k, dest)
    ensures LookupFrom(routes, dest, stage).Some? ==>
              var key := LookupFrom(routes, dest, stage).value;
              && Matches(routes, key, dest)
              && forall k :: k in routes && Matches(routes, k, dest) ==>
                   k == key || Rank(EntryLevel(routes[k])) > Rank(EntryLevel(routes[key]))
    decreases 4 - stage
  {
    if stage < 4 {
      var ct := STAGES[stage];
      var key := RouteKey(ct, dest);
      forall k | k in routes && Matches(routes, k, dest) && k != key
        ensures Rank(EntryLevel(routes[k])) > stage + 1
      {
        MatchesByKey(routes, k, dest);
      }
      if key in routes {
        LevelOfKey(routes, ct, dest);
        MatchesByKey(routes, key, dest);
      } else {
        LookupFromMostSpecific(routes, dest, stage + 1);
      }
    }
  }

  /** String lookup finds the most specific entry that agrees with the destination at its own level,
      and nothing when there is none; entries of client connections are never found. */
  lemma LookupMostSpecific(routes: Routes, dest: ServicePath)
    requires Keyed(routes) && SeparatorFree(dest)
    ensures Lookup(routes, dest).None? <==> forall k :: k in routes ==> !Matches(routes, k, dest)
    ensures Lookup(routes, dest).Some? ==>
              var key := Lookup(routes, dest).value;
              && Matches(routes, key, dest) && EntryLevel(routes[key]) != Client
              && forall k :: k in routes && Matches(routes, k, dest) ==>
                   k == key || Rank(EntryLevel(routes[k])) > Rank(EntryLevel(routes[key]))
  {
    forall k | k in routes && Matches(routes, k, dest) ensures Rank(EntryLevel(routes[k])) > 0 {
    }
    LookupFromMostSpecific(routes, dest, 0);
  }

  function Exported(key: string, nexthop: NextHop): RouteEntry
    requires nexthop.RemoteHop?
  {
    var conn := nexthop.conn;
    RouteEntry(FromString(key), nexthop.hops, conn.id, conn.remoteServicePath, conn.connectionType)
  }

  /** Route export: remote entries with their keys parsed back. */
  function Export(routes: Routes): set<RouteEntry> {
    set k | k in routes && routes[k].RemoteHop? :: Exported(k, routes[k])
  }

  /** Where an entry is at home: the path of its connection, down to the level of the connection. */
  predicate ExportedAs(e: RouteEntry, nexthop: NextHop) {
    && nexthop.RemoteHop?
    && e.servicePath == AtLevel(nexthop.conn.connectionType, nexthop.conn.remoteServicePath)
    && e.hopCount == nexthop.hops && e.nextHopId == nexthop.conn.id
    && e.nextHopPath == nexthop.conn.remoteServicePath && e.nextHopScope == nexthop.conn.connectionType
  }

  /** The remote entries of a keyed table are exported, each under the path of its own connection at its own level,
      and nothing else is. */
  lemma ExportExactly(routes: Routes)
    requires Keyed(routes)
    ensures forall key :: key in routes && routes[key].RemoteHop? ==>
              exists e :: e in Export(routes) && ExportedAs(e, routes[key])
    ensures forall e :: e in Export(routes) ==> exists key :: key in routes && ExportedAs(e, routes[key])
  {
    forall key | key in routes && routes[key].RemoteHop?
      ensures exists e :: e in Export(routes) && ExportedAs(e, routes[key])
    {
      EntryExported(routes, key);
    }
    forall e | e in Export(routes) ensures exists key :: key in routes && ExportedAs(e, routes[key]) {
      var key :| key in routes && routes[key].RemoteHop? && e == Exported(key, routes[key]);
      EntryExported(routes, key);
    }
  }

  lemma EntryExported(routes: Routes, key: string)
    requires Keyed(routes) && key in routes && routes[key].RemoteHop?
    ensures Exported(key, routes[key]) in Export(routes) && ExportedAs(Exported(key, routes[key]), routes[key])
  {
    var p :| EntryPath(routes, key, p);
    KeyParses(routes[key].conn.connectionType, p);
  }

  // ------------------------------------------------------- the node's own routes

  /** Whether the node puts a local hop at this key. */
  predicate Mine(mine: seq<RouteConfig>, key: string) {
    exists i :: 0 <= i < |mine| && mine[i].scope == ScopeCluster && key == ToNodePrefix(mine[i].key)
  }

  /** Exactly the node prefixes of its cluster-scope routes are added or made local, unless an entry there already
      has hop count 0. */
  lemma {:induction false} MyRoutesAdded(routes: Routes, mine: seq<RouteConfig>, key: string)
    ensures var after := AddMyRoutes(routes, mine);
            if !Mine(mine, key) then (key in after <==> key in routes) && (key in routes ==> after[key] == routes[key])
            else
              && key in after
              && after[key] == if key in routes && (routes[key].LocalHop? || routes[key].hops == 0) then routes[key]
                               else LocalHop
    decreases |mine|
  {
    if mine != [] {
      var r := mine[0];
      MyRoutesAdded(if r.scope == ScopeCluster then UpdateRoute(routes, ToNodePrefix(r.key), LocalHop) else routes,
                    mine[1..], key);
      assert forall i :: 0 < i < |mine| ==> mine[i] == mine[1..][i - 1];
      assert Mine(mine, key) <==>
             Mine(mine[1..], key) || (mine[0].scope == ScopeCluster && key == ToNodePrefix(mine[0].key));
    }
  }
}
