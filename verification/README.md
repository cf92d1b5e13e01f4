# Verified model of the SONiC DASH HA message bus, actor runtime and HA actors

The repository runs high availability for smart-switch DPUs. `swbusd` routes messages between services, the actor
runtime gives each actor three state tables and makes every message it handles a transaction over them, and `hamgrd`
runs the actors that follow DPU state and keep the HA state of the switch. This project models those parts in Dafny
and proves what they keep, over every input and every run. `dafny verify dfyconfig.toml` checks everything.

| component | files |
|---|---|
| shared definitions | `Wrappers`, `Orders`, `Text`, `DbStructs` |
| service paths, messages, message ids | `ServicePaths`, `Messages` |
| router: table, routing chain, connection worker | `RouteTable`, `Routing`, `Multiplexer`, `ConnWorker` |
| networks of routers | `Network`, `TraceRoute` |
| connections | `ConnStore` |
| actor runtime | `Incoming`, `Internal`, `Outgoing`, `OutgoingRuns`, `ResendBound`, `ResendSchedules`, `Driver`, `DriverRuns` |
| field codec and consumer bridge | `FieldCodec`, `StructCodec`, `TableBridge` |
| HA-scope actor | `NpuRow`, `HaScope`, `HaScopeRuns`, `HaScopeInputs`, `HaScopeLedger`, `HaScopeRows`, `HaScopeRequests`, `HaScopeRepeats`, `HaScopeDatabase`, `HaScopeOrders`, `HaScopeOrdinary`, `HaScopeActor` |
| DPU actor | `DpuActor`, `DpuRuns`, `DpuRows`, `DpuProcess` |

Each component has a state machine on values, about which the theorems are proved. Where the source changes state in
place there is also a class (or a method on an array) whose loops and assignments follow the source and whose
postconditions equate the new state with that machine. What a machine does is also stated without it: by the fields and
texts it leaves, by the events that led there, or by where the ends of a message lead.

What the proofs found, each with an exact condition and a run or input that shows the failure:

- `route_message` does not always return, although the comment at `crates/swbus-core/src/mux/multiplexer.rs:186-191`
  argues that it does. `Routing.Returns` is the exact condition; `Routing.EndlessExample` is a well-configured node and
  a data message for which NoRoute responses alternate forever. The model follows the code.
- Rolling back resets an entry that the failed callback never touched to a backup that commits do not refresh, so an
  earlier committed update is lost (`InternalTable.FailureIsAtomic`, `InternalTable.CommittedUpdateLost`).
- A message can be resent sixty times, not fifty-nine: the resend interval keeps its grid after a late tick, so that two
  ticks may be less than a period apart. It can be resent sixty times exactly when sixty successive ticks span less than
  fifty-nine periods (`ResendSchedules.SixtyExactly`, `ResendSchedules.SixtyResends`).
- An approval that arrives while the vDPU is not managed makes every later vDPU update ask the DPU again
  (`HaScopeRepeats.RepeatsExactly`, `HaScopeRequests.RaisedLaterIffUnmanaged`, `HaScopeRequests.RepeatedRequestRun`).
- A first configuration that finds the state of a managed vDPU already received makes the HA-scope actor panic
  (`HaScopeRuns.PanicsExactly`, `HaScopeRuns.EarlyVDpuCrashes`).
- A rising edge that arrives before the NPU row is populated is used up without a pending operation
  (`HaScopeRequests.EdgeRecordedIffPopulated`).
- Once a DPU has been moved from the slot of this node to another, the bridges spawned for it still bring DPU_STATE and
  BFD messages; they change the state the DPU actor computes, and subscribers are not told
  (`DpuRuns.RunConsistentIff`, `DpuRuns.SubscriberLeftBehind`).
- A variant whose name continues that of an earlier one is always read as the earlier one (`FieldCodec.EnumRoundTrip`,
  `FieldCodec.ContinuedVariant`).
- Of two connections under one route key, as in mutual peering, the end of either takes the route of the other
  (`ConnStore.SharedKeyLosesRoute`, `ConnStore.MutualPeeringLosesRoute`); routes and live connections agree exactly while
  no connection takes a key in use (`ConnStore.RunExact`).

## Model

| member | source | states |
|---|---|---|
| `ServicePaths.FromString` | crates/swbus-proto/src/swbus.rs:75-91 | Whatever the text, the parsed path is separator-free. |
| `ServicePaths.ParseParts` | crates/swbus-proto/src/swbus.rs:75-91 | A location, up to three fields ended by dots, and any slash-free parts after it are read back field by field: the first four parts, missing ones as empty. |
| `ServicePaths.DisplayRoundTrip` | crates/swbus-proto/src/swbus.rs:188-221 | Parsing what `Display` prints gives the path back if and only if the path is separator-free. |
| `ServicePaths.LongestPathRoundTrip` | crates/swbus-proto/src/swbus.rs:125-145 | Parsing `to_longest_path` gives the path back if and only if it is separator-free and has no gap in its location or service part. |
| `ServicePaths.JoinInPlace` | crates/swbus-proto/src/swbus.rs:161-185 | The in-place join leaves in the seven field slots the fields of the joined path. |
| `ServicePaths.JoinFieldByField` | crates/swbus-proto/src/swbus.rs:160-185 | Field k of the joined path is that of the other path if some field of it up to the k-th is not empty, and otherwise that of the path itself. |
| `ServicePaths.JoinByName` | crates/swbus-proto/src/swbus.rs:160-185 | The same for each of the seven fields by name, from the region to the resource id. |
| `ServicePaths.JoinLaws` | crates/swbus-proto/src/swbus.rs:161-185 | Join is associative and the empty path is its identity on both sides. |
| `ServicePaths.RouteKeyInjective` | crates/swbus-core/src/mux/multiplexer.rs:45-57 | Route keys of separator-free paths are equal exactly when the connection levels are equal and the paths agree down to that level. |
| `ServicePaths.KeyParses` | crates/swbus-core/src/mux/multiplexer.rs:45-57 | Parsing a route key gives the path down to the level of the key, the fields below empty. |
| `Messages.NewResponse` | crates/swbus-proto/src/swbus.rs:306-395 | A response has version 1, TTL 64 and the given id, goes to the source of the request, comes from the given path or else from the destination, and carries the id of the request, the code and the routes. |
| `Messages.MessageIdGenerator.Generate` | crates/swbus-proto/src/message_id_generator.rs:25-27 | The n-th id is the startup time plus n, wrapped at 64 bits. |
| `Messages.IdsAreFresh` | crates/swbus-proto/src/message_id_generator.rs:9-28 | Ids fewer than 2^64 draws apart differ, and they increase until the counter wraps. |
| `RouteTable.RouteSelection` | crates/swbus-core/src/mux/multiplexer.rs:73-109 | Over every sequence of table operations that does not remove a key, its entry is the earliest of the next hops with the smallest hop count ever offered, and there is one exactly when something was offered. |
| `RouteTable.OfferTaken` | crates/swbus-core/src/mux/multiplexer.rs:73-95 | Who holds a key after an offer: whoever was there before if it is local or no farther away, and else the newcomer; no other key changes. |
| `RouteTable.LocalNeverDisplaced` | crates/swbus-core/src/mux/multiplexer.rs:73-109 | A local next hop stays whatever else is offered for its key. |
| `RouteTable.TableStaysKeyed` | crates/swbus-core/src/mux/multiplexer.rs:45-109 | Register, unregister and set_my_routes keep every entry under the key of its own path at its own level. |
| `RouteTable.MyRoutesAdded` | crates/swbus-core/src/mux/multiplexer.rs:98-109 | Exactly the node prefixes of the cluster-scope routes become local entries, unless an entry there already has hop count 0; no other key changes. |
| `RouteTable.ExportExactly` | crates/swbus-core/src/mux/multiplexer.rs:197-238 | The exported entries are exactly the remote ones, each under the path of its connection down to the level of the connection, with its hop count, and with the id, path and type of the connection. |
| `RouteTable.LookupMostSpecific` | crates/swbus-core/src/mux/multiplexer.rs:152-165 | The four string lookups find an entry exactly when some registered path agrees with the destination at its own level, and then a most specific one; entries of client connections are never found. |
| `Routing.ReplyStep` | crates/swbus-core/src/mux/multiplexer.rs:121-195 | Routing a response ends at once exactly when its destination resolves to a remote hop or to the node itself, and otherwise makes a response with the ends turned round; it never panics. |
| `Routing.RoutingTermination` | crates/swbus-core/src/mux/multiplexer.rs:121-195 | For every table and message, `route_message` returns if and only if `Returns` holds of the table and header, and then within four nested calls. |
| `Routing.WellConfiguredTermination` | crates/swbus-core/src/mux/multiplexer.rs:121-195 | Where the node's own path resolves to the local next hop, a message is routed within four calls unless source and destination are both service paths without a service route that fall to the local hop; then it never returns. |
| `Routing.RoutingPanics` | crates/swbus-core/src/mux/nexthop.rs:53-125 | A chain that ends panics exactly for a zero TTL on a remote hop in a build that checks overflow, or for a management request the node does not serve; without the check a zero TTL wraps to 2^32 - 1 and the message is queued. |
| `Routing.AnsweredByNode` | crates/swbus-core/src/mux/nexthop.rs:92-171 | What the node itself answers: Ok from the destination to a ping, Ok with the exported routes to a routes query; exactly the other management requests panic, and exactly the other messages are dropped. |
| `Routing.AnsweredByFate` | crates/swbus-core/src/mux/nexthop.rs:60-113 | NoRoute comes from the node where there is no entry, and from the destination where that is a service path without a route; a remote hop takes the message with the TTL less one, or sends Unreachable from the node when it was 1. |
| `Routing.AnswerReachesSource` | crates/swbus-core/src/mux/multiplexer.rs:121-195 | Whatever the answer, it is queued on the connection that the source of the request resolves to, with TTL 63 and one id drawn. |
| `Routing.PingIsAnswered` | crates/swbus-core/src/mux/nexthop.rs:114-137 | So a ping of the node, or a routes query, is answered Ok on the connection towards its source. |
| `Routing.EndlessExample` | crates/swbus-core/src/mux/multiplexer.rs:186-191 | A well-configured node and a data message for which no number of nested calls suffices. |
| `Routing.FourCallsExample` | crates/swbus-core/src/mux/multiplexer.rs:186-191 | A message that needs all four calls. |
| `Multiplexer.SwbusMultiplexer.UpdateEntry` | crates/swbus-core/src/mux/multiplexer.rs:73-95 | The table becomes the one in which the entry gives way only to a smaller hop count. |
| `Multiplexer.SwbusMultiplexer.Register` | crates/swbus-core/src/mux/multiplexer.rs:45-57 | The key of the connection gets a remote entry one hop away, unless an entry with at most one hop is there; no other key changes. |
| `Multiplexer.SwbusMultiplexer.Unregister` | crates/swbus-core/src/mux/multiplexer.rs:59-70 | The key of the connection is removed, whoever holds it, and nothing else. |
| `Multiplexer.SwbusMultiplexer.SetMyRoutes` | crates/swbus-core/src/mux/multiplexer.rs:98-109 | The node's cluster-scope routes are offered as local next hops, and all are remembered. |
| `Multiplexer.SwbusMultiplexer.QueueOn` | crates/swbus-core/src/mux/nexthop.rs:53-125 | The outcome is that of the state machine, of which `Routing.AnsweredByNode` and `Routing.AnsweredByFate` say what it is; one id is drawn for a response, and a queued message is the only change to the queues. |
| `Multiplexer.SwbusMultiplexer.RouteMessage` | crates/swbus-core/src/mux/multiplexer.rs:121-195 | Where the chain of calls ends, exactly the outcome of its last call takes effect on the queues, and each response on the way draws one id. |
| `Multiplexer.DeliveredLast` | crates/swbus-core/src/mux/nexthop.rs:80-88 | A queued message stands last on the queue of its connection, behind all that is there, and no other queue changes. |
| `ConnWorker.Validate` | crates/swbus-core/src/mux/conn_worker.rs:147-185 | A message is accepted exactly when header, version, source, destination and body are there, and then nothing of it changes; otherwise the error names the first of them that is missing. |
| `ConnWorker.EmissionKinds` | crates/swbus-core/src/mux/nexthop.rs:66-88 | What routing a message puts on a queue is the message with its TTL counted down once, never from 1, or a fresh response with TTL 63. |
| `ConnWorker.EmittedByFate` | crates/swbus-core/src/mux/conn_worker.rs:123-145 | What goes out for a message that is no traceroute request, by where its ends lead: the message one hop further; or its answer, with TTL 63, on the connection towards its source; or nothing. |
| `ConnWorker.ProcessKinds` | crates/swbus-core/src/mux/conn_worker.rs:123-145 | A worker puts at most two messages on queues: fresh responses first, and the received message, one hop further, last and at most once. |
| `ConnWorker.AnswerTrace` | crates/swbus-core/src/mux/conn_worker.rs:123-145 | The answer to a traceroute request is put on the queues as specified, and the ids drawn on the way are accounted for. |
| `ConnWorker.ProcessDataMessage` | crates/swbus-core/src/mux/conn_worker.rs:123-145 | The queues end up with exactly what the specification emits, in that order. |
| `Network.NextAccounted` | crates/swbus-core/src/mux/nexthop.rs:66-88 | Each step of any network keeps, for each message, its TTL plus its number of queueings equal to the TTL it started with. |
| `Network.RunAccounted` | crates/swbus-core/src/mux/nexthop.rs:66-88 | So does every run, with tables that may differ at every step. |
| `Network.TtlBoundsQueueing` | crates/swbus-core/src/mux/nexthop.rs:66-88 | In every run of any number of routers with arbitrary tables, a message with TTL t is put on remote queues at most t - 1 times and nothing is queued with TTL 0; responses made on the way count as new messages. |
| `TraceRoute.RequestAt` | crates/swbus-core/src/mux/conn_worker.rs:123-145 | Each swbusd of a line answers Ok first, and then passes the request on, reports expiry, or stops because it is the destination. |
| `TraceRoute.TracerouteReports` | crates/swbus-core/src/mux/conn_worker.rs:123-145 | On any line of n up to 63 swbusds and under every interleaving, a run has at most n(2n + 1) steps, and when it is over the source holds one Ok from each swbusd in hop order, the i-th with TTL 64 - i; with a TTL t below n, exactly t of them and then one Unreachable from swbusd t. |
| `TraceRoute.NotQuietGoesOn` | crates/swbus-core/src/mux/conn_worker.rs:82-121 | While anything waits on a queue some step is possible, so every traceroute comes to its end. |
| `TraceRoute.LineOfLength` | crates/swbus-core/src/mux/multiplexer.rs:45-57 | For every n up to 63 there is such a line of n swbusds, with tables made by registering connections. |
| `ConnStore.StepExact` | crates/swbus-core/src/mux/conn_worker.rs:53-80 | A step keeps the remote entries equal to the live connections if and only if a connection is established only under a free key. |
| `ConnStore.RunExact` | crates/swbus-core/src/mux/conn_store.rs:34-101 | Over a run the remote entries are the live connections at every moment if and only if no connection takes a key in use. |
| `ConnStore.PeersStayTracked` | crates/swbus-core/src/mux/conn_store.rs:75-101 | Until shutdown the tracked live connections are exactly the running workers, and a task retries exactly for the configured peers without one. |
| `ConnStore.ConnectionLifecycle` | crates/swbus-core/src/mux/conn_store.rs:34-101 | Both, for every run of a node that starts from its own routes. |
| `ConnStore.SharedKeyLosesRoute` | crates/swbus-core/src/mux/multiplexer.rs:59-70 | After any run: when two connections of any modes are established under one key, the end of either leaves the other live without a route. |
| `ConnStore.MutualPeeringLosesRoute` | crates/swbus-core/src/mux/conn_store.rs:75-101 | When this node dials a peer that also dials it, whichever connection is established first and whichever ends, the other is live without a route. |
| `ConnStore.LookupInEveryState` | crates/swbus-core/src/mux/multiplexer.rs:152-165 | In every reachable state lookup finds the most specific matching entry. |
| `ConnStore.TrackedAfterShutdown` | crates/swbus-core/src/mux/conn_store.rs:103-120 | A connection tracked after shutdown was established, or its loss noticed, after it. |
| `ConnStore.TableDrained` | crates/swbus-core/src/mux/conn_worker.rs:53-80 | When all workers have ended, the table is that of the node's own routes again, provided no connection took a key in use. |
| `ConnStore.SwbusConnStore.AddPeer` | crates/swbus-core/src/mux/conn_store.rs:75-85 | A peer is tracked by a retry task; the rest of the store is unchanged. |
| `ConnStore.SwbusConnStore.ConnEstablished` | crates/swbus-core/src/mux/conn_store.rs:97-101 | The connection is tracked as live and its route offered. |
| `ConnStore.SwbusConnStore.WorkerEnded` | crates/swbus-core/src/mux/conn_worker.rs:53-80 | The route is removed, and a lost client connection goes back to a retry task. |
| `ConnStore.SwbusConnStore.Shutdown` | crates/swbus-core/src/mux/conn_store.rs:103-120 | Every tracked connection and task is stopped, in whatever order the map is walked, and none stays tracked. |
| `OutgoingTable.Next` | crates/swbus-actor/src/state/outgoing.rs:60-136 | Every event takes consistent tables to consistent tables: each unacked message lies under its own id and has a sent record; the record of a key holds the largest id sent with it; and of that id, that it is not waiting if it is marked acked, and that it was acked or expired if it is not waiting. |
| `OutgoingTable.After` | crates/swbus-actor/src/state/outgoing.rs:60-136 | So every run ends in consistent tables, and no lookup on the way fails. |
| `OutgoingTable.TickConsistent` | crates/swbus-actor/src/state/outgoing.rs:115-136 | A round of the resend loop keeps the tables consistent, in whatever order the map is walked. |
| `OutgoingRuns.LeavesExactly` | crates/swbus-actor/src/state/outgoing.rs:90-121 | In any event, a waiting message stops waiting if and only if the event is an Ok response to it or a round at least 3600 s after it was queued; otherwise it stays as it is. |
| `OutgoingRuns.EntersExactly` | crates/swbus-actor/src/state/outgoing.rs:60-83 | A message starts to wait when the queue it is in is sent out, and at no other time. |
| `OutgoingRuns.QueuedExactly` | crates/swbus-actor/src/state/outgoing.rs:29-45 | What is queued stays, in order, until all of it is sent out or discarded. |
| `OutgoingRuns.WaitsExactly` | crates/swbus-actor/src/state/outgoing.rs:60-136 | Over any run, a waiting message waits on, unchanged, if and only if no event of the run is an Ok response to it or a round an hour after it was queued. |
| `OutgoingRuns.NothingForgotten` | crates/swbus-actor/src/state/outgoing.rs:60-136 | Over any run, every id that was sent is still waiting, was acked or expired. |
| `OutgoingRuns.LogStep` | crates/swbus-actor/src/state/outgoing.rs:60-136 | An id is noted as acked only by an Ok response to it while it waits, and as expired only by a round an hour after it was queued. |
| `OutgoingRuns.RecordResponded` | crates/swbus-actor/src/state/outgoing.rs:90-113 | A response is noted in the record of its key only if that record is about the very message; an error response changes nothing outside the record of its key. |
| `OutgoingRuns.RecordFlushed` | crates/swbus-actor/src/state/outgoing.rs:60-83 | Sending out the queue makes the record of a key tell the last message with it, counts all of them, keeps the time of the first, and resets the response. |
| `OutgoingRuns.RecordTicked` | crates/swbus-actor/src/state/outgoing.rs:115-136 | A round changes nothing of a record but the time of the last sending, and that exactly if a message with its key, aged 60 s to 3600 s, goes out again. |
| `OutgoingRuns.RecordTells` | crates/swbus-actor/src/state/outgoing.rs:60-136 | After any run there is a record of a key exactly if something was sent with it, and it tells the number of these messages, the last of them, and when the first and the last were sent. |
| `ResendRuns.ResendWindow` | crates/swbus-actor/src/state/outgoing.rs:115-136 | In every run, whenever its ticks come, a message is resent only at ages from 60 s up to but not including 3600 s, and never after an Ok response to it. |
| `ResendRuns.ResendsNeedWindow` | crates/swbus-actor/src/state/outgoing.rs:115-136 | Under ticks in order of time, a message that was resent n times has met n successive ticks, the first at least a period after time 0, that span less than 59 periods. |
| `ResendSchedules.ResendsExactly` | crates/swbus-actor/src/state/outgoing.rs:115-136 | Under any given ticks in order, a message can be resent n times, in a run whose clock does not go back, if and only if n successive ticks, the first at least a period after time 0, span less than 59 periods. |
| `ResendSchedules.FiresFromDeadline` | crates/swbus-actor/src/state/outgoing.rs:47-57 | What skipping missed ticks amounts to: a tick comes in a later slot than the one before exactly when it does not come before the next point of the grid, which is at most a period away. |
| `ResendSchedules.ResendBound` | crates/swbus-actor/src/state/outgoing.rs:115-136 | In every run, however late its ticks, a message is resent at most 60 times. |
| `ResendSchedules.SixtyExactly` | crates/swbus-actor/src/state/outgoing.rs:115-136 | Under the ticks of the interval no message can be resent 61 times, and one can be resent 60 times if and only if sixty successive ticks span less than 59 periods. |
| `ResendSchedules.ResendBoundOnTime` | crates/swbus-actor/src/state/outgoing.rs:115-136 | In particular, while ticks are a full period apart a message is resent at most 59 times. |
| `ResendSchedules.SixtyResends` | crates/swbus-actor/src/state/outgoing.rs:47-57 | Sixty ticks of the interval, the first five seconds late, under which a message can be resent 60 times. |
| `OutgoingTable.Outgoing.SendQueuedMessages` | crates/swbus-actor/src/state/outgoing.rs:60-83 | Every queued message goes out, in order, becomes unacked and is recorded; the queue is empty. |
| `OutgoingTable.Outgoing.DropQueuedMessages` | crates/swbus-actor/src/state/outgoing.rs:85-88 | The queue is emptied and nothing else changes. |
| `OutgoingTable.Outgoing.Response` | crates/swbus-actor/src/state/outgoing.rs:90-113 | The tables become those of the state machine, of which `OutgoingRuns.LeavesExactly` and `OutgoingRuns.RecordResponded` say what they are. |
| `OutgoingTable.Outgoing.OnTick` | crates/swbus-actor/src/state/outgoing.rs:115-136 | Expired messages leave the map, and exactly those due are put on the wire, each once, and noted as sent again. |
| `InternalTable.EntryAfter` | crates/swbus-actor/src/state/internal.rs:124-130 | What a callback does to an entry: the mark and the backup come with the first write and the backup holds the value from before it. |
| `InternalTable.FailureRestores` | crates/swbus-actor/src/state/internal.rs:141-144 | A failed callback leaves the database alone. Each entry it wrote gets its value from before the callback, each it left alone its backup; one it added, anew or for the first time, stays and holds the database row. |
| `InternalTable.FailureIsAtomic` | crates/swbus-actor/src/state/internal.rs:124-144 | A failed callback leaves keys and fields as they were if and only if it added no new key, an entry it added again held what the database holds, and no entry it left alone is stale. |
| `InternalTable.StaleAfter` | crates/swbus-actor/src/state/internal.rs:132-139 | After a commit an entry is stale exactly when it holds something else than a rollback of the same callback would have put there; a rollback leaves none stale. |
| `InternalTable.AddedEntry` | crates/swbus-actor/src/state/internal.rs:27-30 | An entry that a callback adds has the database row as its backup, whatever the callback did to the key before or after. |
| `InternalTable.FieldsAfter` | crates/swbus-actor/src/state/internal.rs:20-30 | What a callback leaves in an entry: what it wrote there last, or the database row if it has added the entry since, or what was there before. |
| `InternalTable.Marks` | crates/swbus-actor/src/state/internal.rs:132-144 | A commit clears the mark and notes the time, a rollback clears the mark and restores the backup, and neither touches anything else of an entry. |
| `InternalTable.RowWritten` | crates/swbus-actor/src/state/internal.rs:50-54 | After a commit a row that only one entry uses holds the fields of that entry. |
| `InternalTable.RowsLeftAlone` | crates/swbus-actor/src/state/internal.rs:50-54 | A row that no entry stands for is left alone by a commit. |
| `InternalTable.CommittedUpdateLost` | crates/swbus-actor/src/state/internal.rs:124-144 | Whatever a callback committed to an entry is undone by a later failed callback, however many committed ones lie in between, if none of them writes the entry; and the next commit writes the old fields to the database. |
| `InternalTable.Internal.Write` | crates/swbus-actor/src/state/internal.rs:124-130 | The entry takes the new fields, and its backup on the first write since the last commit or drop. |
| `InternalTable.Internal.CommitChanges` | crates/swbus-actor/src/state/internal.rs:50-54 | Every entry is written to its row and unmarked, in whatever order the table is walked. |
| `InternalTable.Internal.DropChanges` | crates/swbus-actor/src/state/internal.rs:44-48 | Every entry is reset to its backup and unmarked. |
| `IncomingTable.Incoming.HandleRequest` | crates/swbus-actor/src/state/incoming.rs:46-54 | A new key starts at version 1; a known one counts its version up and keeps its response until it is handled again. |
| `IncomingTable.Incoming.RequestHandled` | crates/swbus-actor/src/state/incoming.rs:92-101 | The entry notes the response, and the request's id and source are returned. |
| `IncomingTable.Incoming.GetByPrefix` | crates/swbus-actor/src/state/incoming.rs:35-43 | The keys with the prefix are listed, all of them and each once. |
| `IncomingTable.EntryTells` | crates/swbus-actor/src/state/incoming.rs:46-101 | After any run there is an entry for a key exactly if a request came with it; it holds the data, the source and the id of the last one, their number, the times of the first and the last, and how the last handled one went. |
| `Driver.Step` | crates/swbus-actor/src/driver.rs:31-127 | Every driver step keeps the queue empty, every entry unmarked and the outgoing tables consistent. |
| `Driver.After` | crates/swbus-actor/src/driver.rs:31-127 | So nothing is half done between any two steps of any run. |
| `Driver.CallbackSucceeds` | crates/swbus-actor/src/driver.rs:110-127 | A callback that succeeds sends the messages it queued, all, in order and no others, and commits every entry, in the cache and in the database. |
| `Driver.CallbackFails` | crates/swbus-actor/src/driver.rs:110-127 | A callback that fails sends nothing, changes nothing in the outgoing tables but the id counter, leaves the database alone, and restores every entry: one it wrote to its value before, one it added to the database row, any other to its backup. |
| `DriverRuns.StepLeads` | crates/swbus-actor/src/driver.rs:31-127 | What a driver step does to the outgoing table is a run of that table, by the events the step stands for; only a request touches the internal table. |
| `DriverRuns.DriverRunLeads` | crates/swbus-actor/src/driver.rs:31-127 | So every run of the driver is a run of the outgoing table, and what is proved of all those holds on the runtime. |
| `DriverRuns.NothingForgottenOnDriver` | crates/swbus-actor/src/driver.rs:31-127 | Whatever the callbacks do, every message that one of them sent is still waiting, was acked or expired. |
| `Driver.ActorDriver.HandleActorMessage` | crates/swbus-actor/src/driver.rs:110-127 | The three tables become those of the specified transaction, and the entry of the request notes how it went. |
| `Driver.ActorDriver.HandleRequest` | crates/swbus-actor/src/driver.rs:58-108 | A request that decodes is acknowledged with Ok before the callback and whatever it returns, and the driver is at rest afterwards. |
| `FieldCodec.FieldRoundTrip` | crates/swss-serde/src/field_value.rs:91-139 | A typed value comes back from its encoding if and only if it is faithful: any integer in range, options whose content does not read "none", lists without commas other than a single empty text, and enum variants with no earlier prefix-comparable one. |
| `FieldCodec.EncodedText` | crates/swss-serde/src/field_value.rs:27-139 | The text of each kind of value: true, false and none as such, integers as decimal numerals without leading zeros after an optional minus, variants with capital letters moved by 32, lists joined by commas. |
| `FieldCodec.DecodedExactly` | crates/swss-serde/src/field_value.rs:141-288 | For each type, which texts are read and as what, and that an absent field is read as an absent option only. |
| `FieldCodec.ParsedExactly` | crates/swss-serde/src/field_value.rs:168-176 | A text is read as an integer exactly if it is digits, perhaps after a plus, or after a minus for a signed type, and the number is in range. |
| `FieldCodec.EnumRoundTrip` | crates/swss-serde/src/field_value.rs:248-266 | A variant is decoded as itself if and only if it is the first one comparable to it, ignoring ASCII case, on the shorter of the two lengths. |
| `FieldCodec.ComparableChars` | crates/swss-serde/src/field_value.rs:254-256 | Two texts are comparable if and only if, as far as both go, their characters are the same or the same ASCII letter in two sizes. |
| `FieldCodec.ContinuedVariant` | crates/swss-serde/src/field_value.rs:248-266 | So a variant that continues an earlier one is always read as the earlier one. |
| `FieldCodec.ListRoundTrip` | crates/swss-serde/src/field_value.rs:268-280 | A list comes back if and only if no element has a comma, it is not a single empty text, and each element comes back. |
| `FieldCodec.IntRoundTrip` | crates/swss-serde/src/field_value.rs:168-176 | Parsing the decimal text of an integer in range gives the integer. |
| `FieldCodec.IntsAlwaysFaithful` | crates/swss-serde/src/field_value.rs:91-139 | Integers survive alone, in options and in lists. |
| `FieldCodec.EndSequence` | crates/swss-serde/src/field_value.rs:120-139 | Pushing each element with a comma and popping the last comma gives the comma-joined text. |
| `StructCodec.SerializeStruct` | crates/swss-serde/src/field_values.rs:48-66 | Field by field, the map becomes the encoding of the struct, absent options left out if so declared. |
| `StructCodec.FieldsWritten` | crates/swss-serde/src/field_values.rs:43-66 | The map holds the text of each field but the absent options left out, and nothing else. |
| `StructCodec.StructRoundTrip` | crates/swss-serde/src/field_values.rs:43-151 | Whatever other fields the map holds, a struct comes back if and only if each of its fields does. |
| `StructCodec.DeserializeStruct` | crates/swss-serde/src/field_values.rs:94-151 | The visitor loop gives the struct decoded field by field, whatever the order of the map. |
| `StructCodec.FieldsRead` | crates/swss-serde/src/field_values.rs:69-151 | A map is read as a struct if and only if each field present decodes to its value and each absent one has it as its missing value. |
| `StructCodec.FieldValuesMapAccess.NextKey` | crates/swss-serde/src/field_values.rs:113-131 | The iterator advances by one and holds the value of the key it returned. |
| `StructCodec.FieldValuesMapAccess.NextValue` | crates/swss-serde/src/field_values.rs:133-151 | The held value is decoded and given up; asking without a key is an error. |
| `TableBridge.TableCache.MergeKfv` | crates/swss-common-bridge/src/consumer.rs:117-133 | A Set extends the cached row and sends it whole; a Del forgets the row and is sent as it is. |
| `TableBridge.CacheIsUnion` | crates/swss-common-bridge/src/consumer.rs:117-133 | The cache holds a row exactly when it was set since its last Del, and its fields are the right-biased union of the Sets since then. |
| `TableBridge.RunBridge` | crates/swss-common-bridge/src/consumer.rs:58-92 | The loop delivers the merged updates in order. |
| `TableBridge.EntryOfRow` | crates/swbus-actor/src/state/incoming.rs:144-150 | The actor's entry for a row holds the message of the last update passed on, and its version is their number. |
| `TableBridge.BridgeRefinement` | crates/swss-common-bridge/src/consumer.rs:58-133 | For any update sequence and separate message keys, the row an actor reads is the right-biased union of the Set fields since the last Del, and the version is the number of updates it received. |
| `NpuRow.NpuRoundTrip` | crates/hamgrd/src/db_structs.rs:351-439 | A row value whose fields are all faithful is never written as an empty row and is read back as it was. |
| `NpuRow.DecodedGood` | crates/hamgrd/src/db_structs.rs:351-439 | Whatever the row, what is read from it is a value that comes back unchanged when it is written and read again. |
| `NpuRow.DefaultRow` | crates/hamgrd/src/db_structs.rs:351-439 | The row field by field: its type and its default, which is 0, empty, unknown or absent; exactly the options may be missing. |
| `NpuRow.RewriteFrames` | crates/hamgrd/src/actors/ha_scope.rs:238-302 | Rewriting the whole row with one group of fields changed leaves every other field as it was. |
| `NpuRow.PendingRead` | crates/hamgrd/src/actors/ha_scope.rs:112-148 | A row that has both lists gives the operations, each id with the type beside its last occurrence, and an error if and only if the lists differ in length; a row that lacks one gives none. |
| `HaScopeRuns.BaseStep` | crates/hamgrd/src/actors/ha_scope.rs:238-302 | The base update succeeds, keeps the invariant, changes the base group only, and leaves the pending operations as they were. |
| `HaScopeRuns.HaStateStep` | crates/hamgrd/src/actors/ha_scope.rs:352-390 | The HA-state update does the same for its own group, and does not create the row. |
| `HaScopeRuns.PendingStep` | crates/hamgrd/src/actors/ha_scope.rs:304-350 | The pending update writes exactly the old ledger less the approved plus the new operations, with lists of equal length and distinct ids, and changes nothing else; on an unpopulated row it does nothing. |
| `HaScopeRows.BaseReadBack` | crates/hamgrd/src/actors/ha_scope.rs:265-297 | After a base update the row, read back through the codec, tells the HA set and the vDPU last received: each plane "up", "down" or "unknown" exactly as it is, the BFD sessions; without platform state three unknown planes, and without BFD state no sessions, as of now. All other fields are as before. |
| `HaScopeRows.HaStateReadBack` | crates/hamgrd/src/actors/ha_scope.rs:371-385 | After an HA-state update of a populated row it tells the role and term of the DPU, the reason "dpu initiated" and the state asked for, and the rest as before. |
| `HaScopeRows.PendingReadBack` | crates/hamgrd/src/actors/ha_scope.rs:304-350 | After a change of the ledger the row lists the pending operations, each once with its type beside it, and the time of the change, and the rest as before; without a change nothing is written. |
| `HaScopeRuns.StepKeepsInv` | crates/hamgrd/src/actors/ha_scope.rs:392-580 | In a state that meets the invariant the only panic is that of a first configuration that finds a managed vDPU state already received. Otherwise no handler fails, the invariant is kept, the ledger moves as specified, and a table goes to the DPU exactly when specified. |
| `HaScopeRuns.PanicsExactly` | crates/hamgrd/src/actors/ha_scope.rs:430-440 | In any state whatever, a handler panics exactly when it wants the row and there is none; for each kind of message, when that is. |
| `HaScopeRuns.FailsExactly` | crates/hamgrd/src/actors/ha_scope.rs:112-148 | In any state whatever, with any row: a vDPU update fails exactly when there are approvals and the row cannot be read or lists identifiers and types of different lengths; a DPU message, exactly when it asks for an operation and the row it has just updated can be read but its lists differ in length; no other message fails. |
| `HaScopeRuns.DpuFailsExactly` | crates/hamgrd/src/actors/ha_scope.rs:304-350 | With a lawful codec the condition for a DPU message is one on the row as the message finds it. |
| `HaScopeRuns.EarlyVDpuCrashes` | crates/hamgrd/src/actors/ha_scope.rs:430-440 | A new actor that gets a managed vDPU state and then its configuration panics. |
| `HaScopeRuns.LedgerMoves` | crates/hamgrd/src/actors/ha_scope.rs:304-350 | The ledger loses exactly what an event clears and gains exactly what it enters. |
| `HaScopeRows.VDpuStepTells` | crates/hamgrd/src/actors/ha_scope.rs:458-504 | A managed vDPU update of a configured actor that knows its HA set writes what the two say. |
| `HaScopeRows.HaSetStepTells` | crates/hamgrd/src/actors/ha_scope.rs:506-511 | So does an HA-set update that finds the vDPU managed. |
| `HaScopeRows.DpuStepTells` | crates/hamgrd/src/actors/ha_scope.rs:513-552 | DPU state that finds the row populated is told by it, with the operations it asks for; nothing else of the row changes. |
| `HaScopeRows.ConfigStepTells` | crates/hamgrd/src/actors/ha_scope.rs:392-456 | After a configuration that finds the vDPU managed and the row populated, the row tells the state it asks for and no longer lists what it approves; nothing else of it changes. |
| `HaScopeRows.TableSent` | crates/hamgrd/src/actors/ha_scope.rs:180-236 | A configuration that finds the vDPU managed, and an update of a managed vDPU, send one table with the version, the switch and the role of the configuration; each flag is raised if and only if an approved operation of its kind is pending. Nothing else sends one. |
| `HaScopeInputs.NpuCodecAccepts` | crates/hamgrd/src/actors/ha_scope.rs:238-390 | Every group of fields the actor writes is one the codec preserves, and the codec of the row is lawful. |
| `HaScopeInputs.ActorRunSound` | crates/hamgrd/src/actors/ha_scope.rs:112-148 | In every state the actor reaches with its own codec, the pending lists have equal length and distinct ids and the length error is never taken; every handler succeeds unless the first configuration finds a managed vDPU state already there. |
| `HaScopeLedger.RunSound` | crates/hamgrd/src/actors/ha_scope.rs:392-580 | The same for any lawful codec, with the specified effect of each step. |
| `HaScopeLedger.RunRegistered` | crates/hamgrd/src/actors/ha_scope.rs:407-427 | At any point of any run the actor has registered once with its vDPU and its HA set if it is configured, and has unregistered if it was deleted. |
| `HaScopeRows.RunTellsBase` | crates/hamgrd/src/actors/ha_scope.rs:238-302 | At any point of any run, while the actor is configured, knows its HA set and has a managed vDPU, the row tells both as of the last update of either. |
| `HaScopeLedger.PendingExactly` | crates/hamgrd/src/actors/ha_scope.rs:304-350 | At any point of any run an operation is pending with a type exactly when some event entered it with that type and none since cleared it. |
| `HaScopeLedger.OneOperationPerEdge` | crates/hamgrd/src/actors/ha_scope.rs:515-538 | Each flag that rises, and nothing else, makes one operation of its kind under its own id. |
| `HaScopeLedger.LedgerConservation` | crates/hamgrd/src/actors/ha_scope.rs:442-453 | When the row is populated before DPU state arrives and approvals come while the vDPU is managed, the pending operations are exactly the rising edges of the three flags, judged by the messages alone, less those a later configuration approves. |
| `HaScopeRequests.RequestedAtMostOnce` | crates/hamgrd/src/actors/ha_scope.rs:180-236 | Over a whole run in which approvals come while the vDPU is managed, no two messages to the DPU are raised by the same operation, although vDPU updates send the table again with the old approvals. |
| `HaScopeRequests.ApprovalRaises` | crates/hamgrd/src/actors/ha_scope.rs:392-456 | The configuration that approves a pending activate-role or flow-reconcile operation raises its flag in a table with the version and role asked for, only such operations raise flags, and they are then no longer pending. |
| `HaScopeRequests.RaisedLaterIffUnmanaged` | crates/hamgrd/src/actors/ha_scope.rs:430-453 | After a configuration that approves a pending operation, the next vDPU update raises its flag exactly when the vDPU was not managed as the configuration came. |
| `HaScopeRequests.RaisedByEveryUpdate` | crates/hamgrd/src/actors/ha_scope.rs:499-501 | An operation raised by one vDPU update is raised by the next one too. |
| `HaScopeRequests.EdgeRecordedIffPopulated` | crates/hamgrd/src/actors/ha_scope.rs:515-550 | A rising edge gets its pending operation exactly when the row is populated, and is used up either way. |
| `HaScopeRequests.RepeatedRequestRun` | crates/hamgrd/src/actors/ha_scope.rs:430-453 | A run of eight messages in which two messages to the DPU are raised by the same operation. |
| `HaScopeRepeats.RepeatsExactly` | crates/hamgrd/src/actors/ha_scope.rs:180-236 | Over any run in which no identifier enters twice, two messages to the DPU are raised by the same operation if and only if a vDPU update finds an approved operation still pending and another table with its approval is sent before it is cleared. |
| `HaScopeDatabase.RowOpsReach` | crates/hamgrd/src/actors/ha_scope.rs:238-390 | In any state, the changes a handler makes to the internal table lead from the row of the state to the row of the next state; the handlers of `HaScopeActor.Actor` are proved to make these changes and no others. |
| `HaScopeDatabase.OkayCalls` | crates/swbus-actor/src/driver.rs:110-127 | Those changes are legal on the table, and the driver can always run and commit them. |
| `HaScopeDatabase.TablesExist` | crates/swbus-actor/src/driver.rs:110-127 | Every run of the state machine that loads the row of a database is a run on that database. |
| `HaScopeDatabase.RowInDatabase` | crates/swbus-actor/src/driver.rs:110-127 | The actor on the runtime, with the commit and rollback of `Driver.Callback`: after every driver step of every run the internal table is settled and the database holds the row of the state machine. |
| `HaScopeDatabase.DatabaseLedger` | crates/hamgrd/src/actors/ha_scope.rs:304-350 | So, under the conditions of `HaScopeLedger.LedgerConservation`, the operations that the database lists as pending are exactly the rising edges less those a later configuration approves. |
| `HaScopeOrdinary.PendingAcrossUpdate` | crates/hamgrd/src/actors/ha_scope.rs:392-552 | Such a run: the DPU asks for an operation, a vDPU update comes while it is pending, and a configuration approves it. |
| `HaScopeOrdinary.RepeatedOnDatabase` | crates/hamgrd/src/actors/ha_scope.rs:430-453 | The run that repeats a request is one on a database, too. |
| `HaScopeOrders.OrderIrrelevant` | crates/hamgrd/src/actors/ha_scope.rs:331-341 | A handler that does not write the ledger does the same in whatever order the pending map would be walked. |
| `HaScopeOrders.HandledAsPossible` | crates/hamgrd/src/actors/ha_scope.rs:331-341 | So a handled message that writes the ledger, if at all, in an order that lists it is a step that the theorems about runs cover. |
| `HaScopeActor.Raise` | crates/hamgrd/src/actors/ha_scope.rs:186-215 | The loop over the approved ids raises each flag exactly when an approved operation of its kind is pending. |
| `HaScopeActor.Amend` | crates/hamgrd/src/actors/ha_scope.rs:324-329 | The two loops remove the approved and insert the new operations. |
| `HaScopeActor.Walk` | crates/hamgrd/src/actors/ha_scope.rs:335-341 | Walking the map in any order gives two lists with each operation once and its type beside it. |
| `HaScopeActor.Actor.UpdatePending` | crates/hamgrd/src/actors/ha_scope.rs:304-350 | The row in the internal table, and nothing else, becomes the specified one, by the specified write; the order of a ledger written lists it. |
| `HaScopeActor.Actor.HandleConfig` | crates/hamgrd/src/actors/ha_scope.rs:392-456 | The handler ends as specified and leaves the specified fields, requests and registrations; it makes the specified changes to the internal table and no others, and writes the ledger, if at all, in an order that lists it. |
| `HaScopeActor.Actor.HandleVDpu` | crates/hamgrd/src/actors/ha_scope.rs:459-504 | The same for a vDPU update; the entry is added if there is none, with the fields the database holds. |
| `HaScopeActor.Actor.HandleHaSet` | crates/hamgrd/src/actors/ha_scope.rs:506-511 | The same for an HA-set update. |
| `HaScopeActor.Actor.HandleDpu` | crates/hamgrd/src/actors/ha_scope.rs:513-552 | The same for a DPU scope state. |
| `HaScopeActor.HandledAndCommitted` | crates/swbus-actor/src/driver.rs:110-127 | A handler that succeeds and the commit after it are a step of the runs on the table. |
| `DpuActor.SubscribersCanTell` | crates/hamgrd/src/ha_actor_messages.rs:37-92 | Everything the actor knows of its DPU can be read off the published state, and `up` means three planes up and at least one BFD session up, on a local DPU. |
| `DpuActor.TargetsRegistered` | crates/hamgrd/src/ha_actor_messages.rs:194-207 | Whatever the order of the walk, the targets are exactly the sources of active registrations. |
| `DpuActor.PostToAll` | crates/hamgrd/src/actors/dpu.rs:290-299 | Sending to all targets puts the state last on the channel of each, and leaves all other channels alone. |
| `DpuRuns.RegistrationAnswered` | crates/hamgrd/src/actors/dpu.rs:303-311 | A registration is answered so that every active subscriber still has the current state last. |
| `DpuRuns.StepConsistentIff` | crates/hamgrd/src/actors/dpu.rs:437-465 | From a consistent state, a step keeps every active subscriber up to date if and only if it does not both find somebody registered and change unpublished what the tables say of an unmanaged DPU (or fail to spawn the bridges of a newly managed one). |
| `DpuRuns.RunConsistentIff` | crates/hamgrd/src/actors/dpu.rs:437-465 | A run keeps every subscriber up to date after every step if and only if no step of it is such a one. |
| `DpuRuns.SubscribersUpToDate` | crates/hamgrd/src/actors/dpu.rs:221-311 | When bridges spawn and an unmanaged DPU gets no DPU_STATE or BFD message, the last state on the way to an active subscriber, or else received by it, is the one computed from the actor's current tables. |
| `DpuRuns.UpToDateInItsSlot` | crates/hamgrd/src/actors/dpu.rs:155-204 | When DPU_STATE and BFD messages come over the bridges the actor spawned and the rows of the DPU never move it to another slot, every active subscriber is up to date. |
| `DpuRuns.SubscriberLeftBehind` | crates/hamgrd/src/actors/dpu.rs:155-204 | For any DPU, any state and any subscriber: the DPU is configured in the slot of this node, the subscriber registers, the DPU is moved to another slot and the subscriber told; the state its bridge then brings leaves the subscriber out of date. |
| `DpuRows.StepKnows` | crates/hamgrd/src/actors/dpu.rs:127-160 | A row is taken over as it is, a remote one only while no local one is known; other messages leave what is known alone; a deletion, and nothing else, stops the actor. |
| `DpuRows.KnowsLastRow` | crates/hamgrd/src/actors/dpu.rs:127-160 | Over every run of an actor that still runs, the DPU it knows is the one of the last local row, with the addresses of the node and managed in its slot, or, if there was none, of the last remote row. |
| `DpuRows.StopsExactly` | crates/hamgrd/src/actors/dpu.rs:127-393 | A run stops the actor if and only if the local row is deleted in it, or a remote one before any local row has come. |
| `DpuRows.RegisteredExactly` | crates/hamgrd/src/ha_actor_messages.rs:194-207 | Over every run of an actor that still runs, registered are exactly those whose last registration under some key is active. |
| `DpuRows.StateIsLast` | crates/hamgrd/src/actors/dpu.rs:221-256 | The platform and the BFD state that count are those of the last message of either, none if it cannot be read. |
| `DpuRows.SubscribersToldLastRow` | crates/hamgrd/src/actors/dpu.rs:258-301 | In a regular run every active subscriber of a running actor has been told, or is about to be told, the last row field by field, and for a local one the platform and BFD state last heard of, with `up` as three planes up and a session up. |
| `DpuRows.ToldExactly` | crates/hamgrd/src/actors/dpu.rs:258-311 | One message adds to the channel of anybody only copies of the current state, and some if and only if they are registered and it is a row taken over or state of a managed DPU, or it is they who register. |
| `DpuRows.FailsExactly` | crates/hamgrd/src/actors/dpu.rs:127-219 | The handler fails exactly on a message it cannot read, where the node has no address or cannot spawn the bridges of a newly managed DPU, and where the global configuration is wanted and missing; then it sends nothing. |
| `DpuProcess.GetRegisteredActors` | crates/hamgrd/src/ha_actor_messages.rs:194-207 | The loop over the table gives the targets of some walk of all registrations. |
| `DpuProcess.RunningActor.UpdateDpuState` | crates/hamgrd/src/actors/dpu.rs:258-301 | The queue grows by the computed state for the target, or for each registered actor. |
| `DpuProcess.RunningActor.HandleDpuMessage` | crates/hamgrd/src/actors/dpu.rs:127-219 | The DPU, the queue, the result and the stop flag are the specified ones for every kind of DPU row. |
| `DpuProcess.RunningActor.HandleMessage` | crates/hamgrd/src/actors/dpu.rs:437-465 | Every message is put in the table and handled as the state machine handles it, of which `DpuRows` says what is known, told and stopped. |

## Left out

- gRPC streams, connecting, and task scheduling: only established, lost, ended and shutdown remain, as atomic steps.
- A connection that is being established while the store shuts down is not modelled.
- Network.TtlBoundsQueueing: messages enter the network with a TTL of at least 1; in a build without overflow checks a zero TTL wraps and its bound is that of 2^32 - 1.
- HaScopeDatabase.RowInDatabase: nobody else writes the row in the database.
- Queues that are full: `try_send` fails and the code panics; the model's queues accept everything.
- Handlers are atomic: what other tasks do while a handler awaits is not modelled, and a callback is a list of table changes and messages ending in success or failure.
- The router draws message ids from an unbounded counter; only `Messages.MessageIdGenerator` wraps at 64 bits.
- Multiplexer.SwbusMultiplexer.RouteMessage: stated where the chain of calls ends; where it does not, the source recurses without end.
- Database rows: `Table::set` is taken to write the whole row, since the library is not part of this model. Redis, ZMQ, `rehydrate` and the SonicDb derive macro are not part of it either.
- ResendSchedules.ResendBound: one clock for the resend interval and for the age of messages; a round of the resend loop that is cancelled half way is not modelled.
- Floating-point fields, UTF-8 validity and non-ASCII text in the field codec.
- JSON encoding of messages and parsing of timestamps are opaque: a message is given by what it decodes to, and a field that defaults to the current time is part of the decoded value.
- HaScopeRuns.StepKeepsInv: this and what builds on it (`HaScopeRows` too) assume DPU state only once the row entry exists, which is when its bridge is spawned, that the database row, when it is first read, is empty or decodes with matching lists of distinct identifiers, and texts the codec preserves (no optional text "none", no comma in a session or an identifier). `HaScopeRuns.FailsExactly` and `HaScopeRuns.PanicsExactly` hold without these assumptions.
- HaScopeLedger.LedgerConservation: assumes identifiers are never drawn twice and no pending operations are left in the database from before; `HaScopeLedger.PendingExactly` covers those left over.
- HaScopeRequests.RequestedAtMostOnce: assumes that no operation is approved before it exists. `raisedBy` in a request records which operations set its flags; the real message has the flags alone.
- Which of the actor's fields survive a handler that fails: in the reachable states of the HA-scope actor none fails.
- Failures to open the database or to spawn the bridge in the HA-scope actor.
- BFD sessions that the DPU actor programs for remote DPUs; they do not enter into what it publishes.
- Resent and lost messages between the DPU actor and its subscribers: channels are lossless and in order.
- The HA-set and vDPU actors: what they send enters as messages to the HA-scope actor; how they combine DPU states is not modelled.
- `ActorCreator` and the edge message router: runs start from an existing actor that gets its own messages.
- The management requests of the driver: they only read the tables.
- swbus-cli, swbus-config, logging and crates/container: command line, configuration files, log output and Docker, which do not touch the state modelled here.
