/** Swbus messages and message ids (crates/swbus-proto/src/swbus.rs, message_id_generator.rs). */
module Messages {
  import opened Wrappers
  import opened ServicePaths

  datatype ErrorCode = UnknownError | Ok | InvalidArgs | InvalidPayload | NoRoute | QueueFull | Unreachable | Fail

  datatype ManagementRequestType = SwbusdGetRoutes | HamgrdGetActorState | Unrecognised(code: int)

  datatype RouteEntry = RouteEntry(
    servicePath: ServicePath, hopCount: nat, nextHopId: string, nextHopPath: ServicePath, nextHopScope: ConnectionType)

  datatype Body =
    | Response(requestId: nat, code: ErrorCode, routes: Option<set<RouteEntry>>)
    | RegistrationQuery
    | PingRequest
    | TraceRouteRequest
    | ManagementRequest(request: ManagementRequestType)
    | DataRequest(payload: string)

  datatype Header = Header(version: nat, id: nat, ttl: nat, source: ServicePath, destination: ServicePath)

  datatype Message = Message(header: Header, body: Body)

  const INITIAL_TTL: nat := 64

  function NewHeader(source: ServicePath, destination: ServicePath, id: nat): Header {
    Header(1, id, INITIAL_TTL, source, destination)
  }

  /** A response goes to the source of the request; unless told otherwise it comes from its destination. */
  function NewResponse(request: Message, source: Option<ServicePath>, code: ErrorCode, id: nat,
                       routes: Option<set<RouteEntry>>): (m: Message)
    ensures m.header.version == 1 && m.header.ttl == 64 && m.header.id == id
    ensures m.header.destination == request.header.source
    ensures m.header.source == if source.Some? then source.value else request.header.destination
    ensures m.body == Response(request.header.id, code, routes)
  {
    var src := match source case Some(p) => p case None => request.header.destination;
    Message(NewHeader(src, request.header.source, id), Response(request.header.id, code, routes))
  }

  // ------------------------------------------------------------ message ids

  const U64: nat := 0x1_0000_0000_0000_0000

  /** An atomic 64-bit counter that wraps around. */
  class MessageIdGenerator {
    var nextId: nat
    ghost const startup: nat
    ghost var drawn: nat

    ghost predicate Valid()
      reads this
    {
      startup < U64 && nextId == (startup + drawn) % U64
    }

    constructor (startupEpochNanos: nat)
      requires startupEpochNanos < U64
      ensures Valid() && startup == startupEpochNanos && drawn == 0
    {
      nextId := startupEpochNanos;
      startup := startupEpochNanos;
      drawn := 0;
    }

    method Generate() returns (id: nat)
      requires Valid()
      modifies this`nextId, this`drawn
      ensures Valid() && drawn == old(drawn) + 1
      ensures id == (startup + old(drawn)) % U64
    {
      id := nextId;
      nextId := (nextId + 1) % U64;
      drawn := drawn + 1;
    }
  }

  /** Draws `m < n` of one generator give different ids while fewer than 2^64 apart,
      and increasing ids as long as the counter has not wrapped. */
  lemma IdsAreFresh(startup: nat, m: nat, n: nat)
    requires startup < U64 && m < n
    ensures n - m < U64 ==> (startup + m) % U64 != (startup + n) % U64
    ensures startup + n < U64 ==> (startup + m) % U64 < (startup + n) % U64
  {
  }
}
