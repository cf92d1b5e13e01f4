/** What a connection worker does with one received message (crates/swbus-core/src/mux/conn_worker.rs). */
module ConnWorker {
  import opened Wrappers
  import opened ServicePaths
  import opened Messages
  import opened RouteTable
  import opened Routing
  import opened Multiplexer

  // ------------------------------------------------------------- validation

  datatype RawHeader = RawHeader(version: nat, id: nat, ttl: nat, source: Option<ServicePath>,
                                 destination: Option<ServicePath>)

  datatype RawMessage = RawMessage(header: Option<RawHeader>, body: Option<Body>)

  datatype InputError = MissingHeader | VersionTooLow | MissingSource | MissingDestination | MissingBody

  /** This part is the first that is missing, in the order in which they are looked at. */
  predicate Missing(raw: RawMessage, part: InputError) {
    if raw.header.None? then part == MissingHeader
    else
      var h := raw.header.value;
      match part
      case MissingHeader => false
      case VersionTooLow => h.version == 0
      case MissingSource => h.version > 0 && h.source.None?
      case MissingDestination => h.version > 0 && h.source.Some? && h.destination.None?
      case MissingBody => h.version > 0 && h.source.Some? && h.destination.Some? && raw.body.None?
  }

  /** `validate_message_common`: a message is accepted exactly when nothing is missing. */
  function Validate(raw: RawMessage): (r: Result<Message, InputError>)
    ensures r.Success? <==>
            && raw.header.Some? && raw.body.Some? && raw.header.value.version >= 1
            && raw.header.value.source.Some? && raw.header.value.destination.Some?
    ensures r.Success? ==> raw == AsRaw(r.value)
    ensures r.Failure? ==> Missing(raw, r.error)
  {
    match raw.header
    case None => Failure(MissingHeader)
    case Some(h) =>
      if h.version < 1 then Failure(VersionTooLow)
      else if h.source.None? then Failure(MissingSource)
      else if h.destination.None? then Failure(MissingDestination)
      else if raw.body.None? then Failure(MissingBody)
      else Success(Message(Header(h.version, h.id, h.ttl, h.source.value, h.destination.value), raw.body.value))
  }

  function AsRaw(m: Message): RawMessage {
    var h := m.header;
    RawMessage(Some(RawHeader(h.version, h.id, h.ttl, Some(h.source), Some(h.destination))), Some(m.body))
  }

  // ------------------------------------------------------------- processing

  /** One message put on the queue of a connection. `continued` says that it is the received message
      itself, one hop further, and not a response made on the way. */
  datatype Emission = Emission(conn: ConnInfo, message: Message, continued: bool)

  /** What routing one message puts on remote queues: at most one message, none if it never returns. */
  function Emitted(r: Router, m: Message, id: nat): (es: seq<Emission>)
    ensures |es| <= 1
  {
    if !EndsWithin(r, m, id, 4) then []
    else match Final(r, m, id, 4)
      case Queued(conn, m') => [Emission(conn, m', RouteOnce(r, m, id).Queued?)]
      case _ => []
  }

  function TraceResponse(r: Router, m: Message, id: nat): Message { NewResponse(m, Some(r.me), Ok, id, None) }

  /** The answer of this node to a traceroute request. */
  function Answered(r: Router, m: Message, id: nat): (es: seq<Emission>)
    ensures |es| <= 1
  {
    var es := Emitted(r, TraceResponse(r, m, id), id + 1);
    if es == [] then [] else [es[0].(continued := false)]
  }

  /** The next message id once the answer to a traceroute request has been routed. */
  function AfterAnswer(r: Router, m: Message, id: nat): Option<nat> {
    var response := TraceResponse(r, m, id);
    if EndsWithin(r, response, id + 1, 4) then Some(id + 1 + Drawn(r, response, id + 1, 4)) else None
  }

  /** A traceroute request goes on unless this node is its destination. */
  function PassedOn(r: Router, m: Message, id: nat): (es: seq<Emission>)
    ensures |es| <= 1
  {
    var next := AfterAnswer(r, m, id);
    if next.Some? && m.header.destination != r.me then Emitted(r, m, next.value) else []
  }

  /** `process_data_message`: a traceroute request is answered before it is routed further. */
  function Process(r: Router, m: Message, id: nat): seq<Emission> {
    if m.body.TraceRouteRequest? then Answered(r, m, id) + PassedOn(r, m, id) else Emitted(r, m, id)
  }

  lemma {:induction false} ReplyEmission(r: Router, m: Message, id: nat, calls: nat)
    requires IsReply(m) && EndsWithin(r, m, id, calls)
    ensures var o := Final(r, m, id, calls);
            o.Queued? ==> o.message.body.Response? && o.message.header.ttl == INITIAL_TTL - 1
    decreases calls
  {
    ReplyStep(r, m, id);
    if RouteOnce(r, m, id).Reply? {
      ReplyEmission(r, RouteOnce(r, m, id).response, id + 1, calls - 1);
    }
  }

  /** What goes out for a message, by where its two ends lead: the message itself, one hop further; or its answer to
      the source, if the source is remote; or nothing. */
  lemma EmittedByFate(r: Router, m: Message, id: nat)
    ensures FateOf(r, m.header.destination) == RemoteEntry && m.header.ttl >= 2 ==>
              Emitted(r, m, id)
              == [Emission(HopTo(r, m.header.destination), m.(header := m.header.(ttl := m.header.ttl - 1)), true)]
    ensures FateOf(r, m.header.destination) == LocalNode && !m.body.PingRequest? && !m.body.ManagementRequest? ==>
              Emitted(r, m, id) == []
    ensures FateOf(r, m.header.source) == RemoteEntry && RouteOnce(r, m, id).Reply? ==>
              Emitted(r, m, id) == [Emission(HopTo(r, m.header.source), Onward(RouteOnce(r, m, id).response), false)]
    ensures FateOf(r, m.header.source) == LocalNode && RouteOnce(r, m, id).Reply? ==> Emitted(r, m, id) == []
  {
    AnsweredByFate(r, m, id);
    if RouteOnce(r, m, id).Reply? {
      var response := RouteOnce(r, m, id).response;
      AnsweredByFate(r, response, id + 1);
      ReplyStep(r, response, id + 1);
      assert Absorbs(r, m.header.source) ==> EndsWithin(r, response, id + 1, 3);
    }
  }

  /** A fresh response on its first hop. */
  function Onward(response: Message): Message { response.(header := response.header.(ttl := 63)) }

  predicate OneHopFurther(m: Message, m': Message) {
    m.header.ttl != 1 && m' == m.(header := m.header.(ttl := CountedDown(m.header.ttl)))
  }

  /** The message one hop further, or a fresh response. */
  predicate Kind(m: Message, e: Emission) {
    if e.continued then OneHopFurther(m, e.message)
    else e.message.body.Response? && e.message.header.ttl == INITIAL_TTL - 1
  }

  /** A message put on a queue is the received one with its TTL counted down, or a fresh response. */
  lemma EmissionKinds(r: Router, m: Message, id: nat)
    ensures forall e :: e in Emitted(r, m, id) ==> Kind(m, e)
  {
    if EndsWithin(r, m, id, 4) {
      var o := RouteOnce(r, m, id);
      if o.Reply? {
        assert IsReply(o.response);
        ReplyEmission(r, o.response, id + 1, 3);
      }
    }
  }

  /** What a worker may put on queues for one message: fresh responses, then at most once the message. */
  predicate Kinds(m: Message, es: seq<Emission>) {
    && |es| <= 2
    && (forall i :: 0 <= i < |es| && es[i].continued ==> i == |es| - 1 && OneHopFurther(m, es[i].message))
    && (forall i :: 0 <= i < |es| && !es[i].continued ==>
          es[i].message.body.Response? && es[i].message.header.ttl == INITIAL_TTL - 1)
  }

  lemma AnswerKind(r: Router, m: Message, id: nat)
    ensures forall e :: e in Answered(r, m, id) ==> !e.continued && Kind(m, e)
  {
    var response := TraceResponse(r, m, id);
    if EndsWithin(r, response, id + 1, 4) {
      ReplyEmission(r, response, id + 1, 4);
    }
  }

  lemma PassedOnKind(r: Router, m: Message, id: nat)
    ensures forall e :: e in PassedOn(r, m, id) ==> Kind(m, e)
  {
    match AfterAnswer(r, m, id)
    case Some(next) => EmissionKinds(r, m, next);
    case None =>
  }

  lemma KindsJoined(m: Message, answers: seq<Emission>, passed: seq<Emission>)
    requires |answers| <= 1 && |passed| <= 1
    requires forall e :: e in answers ==> !e.continued && Kind(m, e)
    requires forall e :: e in passed ==> Kind(m, e)
    ensures Kinds(m, answers + passed)
  {
    var es := answers + passed;
    forall i | 0 <= i < |es| ensures Kind(m, es[i]) && (es[i].continued ==> i == |es| - 1) {
      assert es[i] in es;
    }
  }

  /** A worker puts on queues fresh responses, and last and at most once the message, one hop further. */
  lemma ProcessKinds(r: Router, m: Message, id: nat)
    ensures Kinds(m, Process(r, m, id))
  {
    if m.body.TraceRouteRequest? {
      AnswerKind(r, m, id);
      PassedOnKind(r, m, id);
      KindsJoined(m, Answered(r, m, id), PassedOn(r, m, id));
    } else {
      EmissionKinds(r, m, id);
      KindsJoined(m, [], Emitted(r, m, id));
      assert [] + Emitted(r, m, id) == Emitted(r, m, id);
    }
  }

  // ------------------------------------------------------------ the worker

  function PutOnQueues(queues: Queues, es: seq<Emission>): Queues
    decreases |es|
  {
    if es == [] then queues else PutOnQueues(Enqueue(queues, es[0].conn, es[0].message), es[1..])
  }

  lemma PutsAppend(queues: Queues, es: seq<Emission>, fs: seq<Emission>)
    requires |es| <= 1
    ensures PutOnQueues(queues, es + fs) == PutOnQueues(PutOnQueues(queues, es), fs)
  {
    if es == [] {
      assert es + fs == fs;
    } else {
      assert (es + fs)[1..] == fs && es[1..] == [];
    }
  }

  /** Every routing call the worker makes for this message returns. */
  predicate Routable(r: Router, m: Message) {
    && Returns(r, m)
    && (m.body.TraceRouteRequest? ==> Absorbs(r, m.header.source) || Absorbs(r, r.me))
  }

  lemma OnePut(queues: Queues, e: Emission)
    ensures PutOnQueues(queues, [e]) == Enqueue(queues, e.conn, e.message)
  {
    assert [e][1..] == [];
  }

  /** `Emitted` is the effect of the routing chain on the queues. */
  lemma EmittedIsDelivered(queues: Queues, r: Router, m: Message, id: nat)
    requires EndsWithin(r, m, id, 4)
    ensures PutOnQueues(queues, Emitted(r, m, id)) == Delivered(queues, Final(r, m, id, 4))
  {
    var es := Emitted(r, m, id);
    if es != [] {
      OnePut(queues, es[0]);
      assert es == [es[0]];
    }
  }

  lemma AnswerIsDelivered(queues: Queues, r: Router, m: Message, id: nat)
    requires EndsWithin(r, TraceResponse(r, m, id), id + 1, 4)
    ensures PutOnQueues(queues, Answered(r, m, id)) == Delivered(queues, Final(r, TraceResponse(r, m, id), id + 1, 4))
  {
    var es := Emitted(r, TraceResponse(r, m, id), id + 1);
    if es != [] {
      OnePut(queues, es[0].(continued := false));
    }
  }

  lemma AnswerReturns(r: Router, m: Message, id: nat)
    requires Routable(r, m) && m.body.TraceRouteRequest?
    ensures EndsWithin(r, TraceResponse(r, m, id), id + 1, 4)
  {
    var response := TraceResponse(r, m, id);
    FromMe(r, response, id + 1);
    EndsMonotone(r, response, id + 1, 2, 4);
  }

  lemma AnswerFacts(queues: Queues, r: Router, m: Message, id: nat)
    requires Routable(r, m) && m.body.TraceRouteRequest?
    ensures EndsWithin(r, TraceResponse(r, m, id), id + 1, 4)
    ensures AfterAnswer(r, m, id) == Some(id + 1 + Drawn(r, TraceResponse(r, m, id), id + 1, 4))
    ensures PutOnQueues(queues, Answered(r, m, id)) == Delivered(queues, Final(r, TraceResponse(r, m, id), id + 1, 4))
  {
    AnswerReturns(r, m, id);
    AnswerIsDelivered(queues, r, m, id);
  }

  /** Answers a traceroute request from the node itself. */
  method AnswerTrace(mux: SwbusMultiplexer, m: Message)
    requires mux.first.Some? && Routable(mux.AsRouter(), m) && m.body.TraceRouteRequest?
    modifies mux`nextId, mux`queues
    ensures mux.queues == PutOnQueues(old(mux.queues), Answered(old(mux.AsRouter()), m, old(mux.nextId)))
    ensures AfterAnswer(old(mux.AsRouter()), m, old(mux.nextId)) == Some(mux.nextId)
  {
    ghost var r := mux.AsRouter();
    var id := mux.GenerateMessageId();
    var response := NewResponse(m, Some(mux.first.value), Ok, id, None);
    assert response == TraceResponse(r, m, id) && mux.AsRouter() == r;
    AnswerFacts(mux.queues, r, m, id);
    var _ := mux.RouteMessage(response, 4);
  }

  /** The worker puts on the queues exactly what `Process` says, in that order. */
  method ProcessDataMessage(mux: SwbusMultiplexer, m: Message)
    requires mux.first.Some? && Routable(mux.AsRouter(), m)
    modifies mux`nextId, mux`queues
    ensures mux.queues == PutOnQueues(old(mux.queues), Process(old(mux.AsRouter()), m, old(mux.nextId)))
  {
    ghost var r, id := mux.AsRouter(), mux.nextId;
    if m.body.TraceRouteRequest? {
      AnswerTrace(mux, m);
      PutsAppend(old(mux.queues), Answered(r, m, id), PassedOn(r, m, id));
      if m.header.destination == mux.first.value {
        return;
      }
    }
    RoutingTermination(r, m, mux.nextId);
    EmittedIsDelivered(mux.queues, r, m, mux.nextId);
    var _ := mux.RouteMessage(m, 4);
  }
}
