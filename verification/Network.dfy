/** Any number of routers exchanging messages: the TTL bounds how often a message is queued. */
module Network {
  import opened Messages
  import opened RouteTable
  import opened Routing
  import opened ConnWorker

  /** A message waiting on the queue of a connection of some router. */
  datatype Flight = Flight(router: nat, conn: ConnInfo, message: Message)

  datatype Put = Put(origin: nat, ttl: nat)

  /** `births[o]` is the TTL message `o` started with, `flights` what now waits on remote queues, and
      `puts` everything ever put on one. A message is moved, never copied, so it waits at most once. */
  datatype Net = Net(births: seq<nat>, flights: map<nat, Flight>, puts: seq<Put>)

  const EMPTY_NET := Net([], map[], [])

  /** Every step names the table its router has at that moment: tables are arbitrary and may change. */
  datatype NetStep =
    | Inject(router: nat, table: Router, message: Message, id: nat)
    | Receive(origin: nat, router: nat, table: Router, id: nat)
    | Leave(origin: nat)

  function PutOne(net: Net, router: nat, origin: nat, e: Emission): Net {
    var o, births := if e.continued then origin else |net.births|,
                     if e.continued then net.births else net.births + [INITIAL_TTL];
    Net(births, net.flights[o := Flight(router, e.conn, e.message)], net.puts + [Put(o, e.message.header.ttl)])
  }

  function PutAll(net: Net, router: nat, origin: nat, es: seq<Emission>): Net {
    if es == [] then net else PutOne(PutAll(net, router, origin, es[..|es| - 1]), router, origin, es[|es| - 1])
  }

  predicate Enabled(net: Net, step: NetStep) {
    match step
    case Inject(_, _, m, _) => m.header.ttl >= 1
    case Receive(o, _, _, _) => o in net.flights
    case Leave(o) => o in net.flights
  }

  function Next(net: Net, step: NetStep): Net
    requires Enabled(net, step)
  {
    match step
    case Inject(router, table, m, id) =>
      PutAll(net.(births := net.births + [m.header.ttl]), router, |net.births|, Process(table, m, id))
    case Receive(o, router, table, id) =>
      PutAll(net.(flights := net.flights - {o}), router, o, Process(table, net.flights[o].message, id))
    case Leave(o) => net.(flights := net.flights - {o})
  }

  predicate IsRun(net: Net, steps: seq<NetStep>)
    decreases |steps|
  {
    steps == [] || (Enabled(net, steps[0]) && IsRun(Next(net, steps[0]), steps[1..]))
  }

  function After(net: Net, steps: seq<NetStep>): Net
    requires IsRun(net, steps)
    decreases |steps|
  {
    if steps == [] then net else After(Next(net, steps[0]), steps[1..])
  }

  function Count(puts: seq<Put>, origin: nat): nat {
    if puts == [] then 0
    else Count(puts[..|puts| - 1], origin) + (if puts[|puts| - 1].origin == origin then 1 else 0)
  }

  /** Each time it is queued, a message has spent exactly one unit of the TTL it was born with. */
  ghost predicate Accounted(net: Net) {
    && (forall o :: 0 <= o < |net.births| ==> Count(net.puts, o) + 1 <= net.births[o])
    && (forall o :: o in net.flights ==>
          && o < |net.births| && net.flights[o].message.header.ttl >= 1
          && Count(net.puts, o) + net.flights[o].message.header.ttl == net.births[o])
    && (forall o :: o >= |net.births| ==> Count(net.puts, o) == 0)
    && (forall p :: p in net.puts ==> p.ttl >= 1)
  }

  lemma CountPut(puts: seq<Put>, p: Put, o: nat)
    ensures Count(puts + [p], o) == Count(puts, o) + (if p.origin == o then 1 else 0)
  {
    assert (puts + [p])[..|puts|] == puts;
  }

  lemma FreshPut(net: Net, router: nat, origin: nat, e: Emission)
    requires Accounted(net) && !e.continued && e.message.header.ttl == INITIAL_TTL - 1
    ensures Accounted(PutOne(net, router, origin, e))
  {
    var net' := PutOne(net, router, origin, e);
    forall o: nat ensures Count(net'.puts, o) == Count(net.puts, o) + (if o == |net.births| then 1 else 0) {
      CountPut(net.puts, Put(|net.births|, e.message.header.ttl), o);
    }
  }

  lemma ContinuedPut(net: Net, router: nat, origin: nat, m: Message, e: Emission)
    requires Accounted(net) && e.continued && OneHopFurther(m, e.message)
    requires origin < |net.births| && origin !in net.flights
    requires Count(net.puts, origin) + m.header.ttl == net.births[origin]
    ensures Accounted(PutOne(net, router, origin, e))
  {
    var net' := PutOne(net, router, origin, e);
    forall o: nat ensures Count(net'.puts, o) == Count(net.puts, o) + (if o == origin then 1 else 0) {
      CountPut(net.puts, Put(origin, e.message.header.ttl), o);
    }
  }

  lemma OtherPut(net: Net, router: nat, origin: nat, e: Emission)
    requires !e.continued && origin < |net.births| && origin !in net.flights
    ensures var net' := PutOne(net, router, origin, e);
            && origin < |net'.births| && origin !in net'.flights
            && net'.births[origin] == net.births[origin]
            && Count(net'.puts, origin) == Count(net.puts, origin)
  {
    CountPut(net.puts, Put(|net.births|, e.message.header.ttl), origin);
  }

  lemma PutAccounted(net: Net, router: nat, origin: nat, m: Message, e: Emission)
    requires Accounted(net) && origin < |net.births| && origin !in net.flights
    requires Count(net.puts, origin) + m.header.ttl == net.births[origin]
    requires if e.continued then OneHopFurther(m, e.message) else e.message.header.ttl == INITIAL_TTL - 1
    ensures Accounted(PutOne(net, router, origin, e))
  {
    if e.continued {
      ContinuedPut(net, router, origin, m, e);
    } else {
      FreshPut(net, router, origin, e);
    }
  }

  lemma UnrollPuts(net: Net, router: nat, origin: nat, es: seq<Emission>)
    requires |es| <= 2
    ensures |es| == 1 ==> PutAll(net, router, origin, es) == PutOne(net, router, origin, es[0])
    ensures |es| == 2 ==>
              PutAll(net, router, origin, es) == PutOne(PutOne(net, router, origin, es[0]), router, origin, es[1])
  {
    if |es| == 2 {
      assert es[..1][..0] == [] && es[..1][0] == es[0];
    }
  }

  lemma TwoPuts(net: Net, router: nat, origin: nat, m: Message, e0: Emission, e1: Emission)
    requires Accounted(net) && origin < |net.births| && origin !in net.flights
    requires Count(net.puts, origin) + m.header.ttl == net.births[origin]
    requires !e0.continued && e0.message.header.ttl == INITIAL_TTL - 1
    requires if e1.continued then OneHopFurther(m, e1.message) else e1.message.header.ttl == INITIAL_TTL - 1
    ensures Accounted(PutOne(PutOne(net, router, origin, e0), router, origin, e1))
  {
    FreshPut(net, router, origin, e0);
    OtherPut(net, router, origin, e0);
    PutAccounted(PutOne(net, router, origin, e0), router, origin, m, e1);
  }

  lemma EmissionsAccounted(net: Net, router: nat, origin: nat, m: Message, es: seq<Emission>)
    requires Accounted(net) && origin < |net.births| && origin !in net.flights
    requires Count(net.puts, origin) + m.header.ttl == net.births[origin]
    requires Kinds(m, es)
    ensures Accounted(PutAll(net, router, origin, es))
  {
    UnrollPuts(net, router, origin, es);
    if |es| == 1 {
      PutAccounted(net, router, origin, m, es[0]);
    } else if |es| == 2 {
      TwoPuts(net, router, origin, m, es[0], es[1]);
    }
  }

  lemma NextAccounted(net: Net, step: NetStep)
    requires Accounted(net) && Enabled(net, step)
    ensures Accounted(Next(net, step))
  {
    match step
    case Inject(router, table, m, id) =>
      var net' := net.(births := net.births + [m.header.ttl]);
      assert |net.births| !in net.flights;
      ProcessKinds(table, m, id);
      EmissionsAccounted(net', router, |net.births|, m, Process(table, m, id));
    case Receive(o, router, table, id) =>
      var net' := net.(flights := net.flights - {o});
      var m := net.flights[o].message;
      ProcessKinds(table, m, id);
      EmissionsAccounted(net', router, o, m, Process(table, m, id));
    case Leave(o) =>
  }

  lemma {:induction false} RunAccounted(net: Net, steps: seq<NetStep>)
    requires Accounted(net) && IsRun(net, steps)
    ensures Accounted(After(net, steps))
    decreases |steps|
  {
    if steps != [] {
      NextAccounted(net, steps[0]);
      RunAccounted(Next(net, steps[0]), steps[1..]);
    }
  }

  /** In every run of every network, a message born with TTL t is put on remote queues at most t - 1
      times, what waits on a queue has spent exactly its queueings, and no queued TTL is ever zero. */
  lemma TtlBoundsQueueing(steps: seq<NetStep>)
    requires IsRun(EMPTY_NET, steps)
    ensures var net := After(EMPTY_NET, steps);
            && (forall o :: 0 <= o < |net.births| ==> Count(net.puts, o) + 1 <= net.births[o])
            && (forall o :: o in net.flights ==>
                  o < |net.births| && net.flights[o].message.header.ttl + Count(net.puts, o) == net.births[o])
            && (forall p :: p in net.puts ==> p.ttl >= 1)
  {
    RunAccounted(EMPTY_NET, steps);
  }
}
