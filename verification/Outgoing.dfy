/** The outgoing state table: queue, unacked map, sent record, resend
    (crates/swbus-actor/src/state/outgoing.rs). */
module OutgoingTable {
  import opened Wrappers
  import opened ServicePaths
  import opened Messages
  import opened Orders

  /** Times are in nanoseconds since the epoch, as `SystemTime` has them. */
  const SECOND: nat := 1_000_000_000
  const RESEND_SECS: nat := 60
  const EXPIRY_SECS: nat := 3600

  datatype Unacked = Unacked(key: string, data: string, dest: ServicePath, id: nat, timeSent: nat)

  /** Whole seconds since the message was queued; a clock that went back gives 0. */
  function Elapsed(m: Unacked, now: nat): nat {
    if now < m.timeSent then 0 else (now - m.timeSent) / SECOND
  }

  datatype SentEntry = SentEntry(
    data: string, id: nat, createdTime: nat, lastUpdatedTime: nat, lastSentTime: nat, version: nat,
    acked: bool, response: Option<ErrorCode>, responseSource: Option<ServicePath>)

  /** What happened to messages, in order. It is a record for stating properties and is never read. */
  datatype LogItem =
    | Sent(key: string, id: nat)
    | Resent(id: nat, timeSent: nat, at: nat)
    | Acked(id: nat)
    | Expired(id: nat)

  datatype Out = Out(
    nextId: nat, queued: seq<Unacked>, unacked: map<nat, Unacked>, sent: map<string, SentEntry>, log: seq<LogItem>)

  function EmptyOut(startId: nat): Out { Out(startId, [], map[], map[], []) }

  // ------------------------------------------------------------- operations

  function Send(o: Out, dest: ServicePath, key: string, data: string, now: nat): Out {
    o.(queued := o.queued + [Unacked(key, data, dest, o.nextId, now)], nextId := o.nextId + 1)
  }

  /** The ids of responses and other messages come from the same generator. */
  function SkipId(o: Out): Out { o.(nextId := o.nextId + 1) }

  function RecordSent(sent: map<string, SentEntry>, m: Unacked, secs: nat): map<string, SentEntry> {
    if m.key in sent then
      sent[m.key := sent[m.key].(data := m.data, id := m.id, lastUpdatedTime := secs, lastSentTime := secs,
                                 version := sent[m.key].version + 1, acked := false, response := None,
                                 responseSource := None)]
    else sent[m.key := SentEntry(m.data, m.id, secs, secs, secs, 1, false, None, None)]
  }

  function FlushOne(o: Out, m: Unacked, now: nat): Out {
    o.(sent := RecordSent(o.sent, m, now / SECOND), unacked := o.unacked[m.id := m], log := o.log + [Sent(m.key, m.id)])
  }

  function FlushAll(o: Out, ms: seq<Unacked>, now: nat): Out
    decreases |ms|
  {
    if ms == [] then o else FlushAll(FlushOne(o, ms[0], now), ms[1..], now)
  }

  function SendQueued(o: Out, now: nat): Out { FlushAll(o.(queued := []), o.queued, now) }

  function DropQueued(o: Out): Out { o.(queued := []) }

  function HandleResponse(o: Out, id: nat, code: ErrorCode, source: ServicePath): Out
    requires id in o.unacked ==> o.unacked[id].key in o.sent
  {
    if id !in o.unacked then o
    else
      var key := o.unacked[id].key;
      var e := o.sent[key];
      var e' := e.(acked := code == Ok, response := Some(code), responseSource := Some(source));
      var sent := if id == e.id then o.sent[key := e'] else o.sent;
      if code == Ok then o.(sent := sent, unacked := o.unacked - {id}, log := o.log + [Acked(id)])
      else o.(sent := sent)
  }

  function Fresh(o: Out, now: nat): map<nat, Unacked> {
    map id | id in o.unacked && Elapsed(o.unacked[id], now) < EXPIRY_SECS :: o.unacked[id]
  }

  /** The messages a tick resends: not yet expired, and at least one period old. */
  function Due(o: Out, now: nat): set<nat> {
    set id | id in o.unacked && RESEND_SECS <= Elapsed(o.unacked[id], now) < EXPIRY_SECS
  }

  function Gone(o: Out, now: nat): set<nat> {
    set id | id in o.unacked && Elapsed(o.unacked[id], now) >= EXPIRY_SECS
  }

  function Expirations(ids: seq<nat>): (items: seq<LogItem>)
    ensures |items| == |ids| && forall i :: 0 <= i < |ids| ==> items[i] == Expired(ids[i])
  {
    seq(|ids|, i requires 0 <= i < |ids| => Expired(ids[i]))
  }

  function ResendOne(o: Out, id: nat, now: nat): Out
    requires id in o.unacked && o.unacked[id].key in o.sent
  {
    var key := o.unacked[id].key;
    o.(sent := o.sent[key := o.sent[key].(lastSentTime := now / SECOND)],
       log := o.log + [Resent(id, o.unacked[id].timeSent, now)])
  }

  function ResendAll(o: Out, ids: seq<nat>, now: nat): Out
    requires forall id :: id in ids ==> id in o.unacked && o.unacked[id].key in o.sent
    decreases |ids|
  {
    if ids == [] then o else ResendAll(ResendOne(o, ids[0], now), ids[1..], now)
  }

  function Picked(unacked: map<nat, Unacked>, ids: seq<nat>): (ms: seq<Unacked>)
    requires forall id :: id in ids ==> id in unacked
    ensures |ms| == |ids| && forall i :: 0 <= i < |ids| ==> ms[i] == unacked[ids[i]]
  {
    seq(|ids|, i requires 0 <= i < |ids| => unacked[ids[i]])
  }

  function Expire(o: Out, now: nat, gone: seq<nat>): Out {
    o.(unacked := Fresh(o, now), log := o.log + Expirations(gone))
  }

  /** One round of the resend loop. The hash map is walked in any order: `gone` and `due` list the
      expired and the resent messages in the order met. */
  function Tick(o: Out, now: nat, gone: seq<nat>, due: seq<nat>): Out
    requires forall id :: id in due ==> id in Due(o, now) && o.unacked[id].key in o.sent
  {
    assert forall id :: id in due ==> id in Due(o, now) && id in Fresh(o, now);
    ResendAll(Expire(o, now, gone), due, now)
  }

  // ------------------------------------------------------- cross-table invariant

  /** Every unacked message is stored under its own id and has a sent record for its key, so neither
      lookup in the code can fail. */
  ghost predicate Recorded(o: Out) {
    forall id :: id in o.unacked ==>
      && o.unacked[id].id == id && id < o.nextId
      && o.unacked[id].key in o.sent && id <= o.sent[o.unacked[id].key].id
      && Sent(o.unacked[id].key, id) in o.log
  }

  /** Queued messages carry increasing ids above everything ever sent. */
  ghost predicate QueueFresh(o: Out) {
    && (forall i :: 0 <= i < |o.queued| ==> o.queued[i].id < o.nextId)
    && (forall i, j :: 0 <= i < j < |o.queued| ==> o.queued[i].id < o.queued[j].id)
    && (forall i, item :: 0 <= i < |o.queued| && item in o.log && item.Sent? ==> item.id < o.queued[i].id)
    && (forall item :: item in o.log ==> item.id < o.nextId)
  }

  /** The record of a key is about the last, and largest, id sent with it; it is acked only if that
      message is no longer waiting, and that message is gone only if it was acked or expired. */
  ghost predicate RecordsLatest(o: Out) {
    && (forall item :: item in o.log && item.Sent? ==> item.key in o.sent && item.id <= o.sent[item.key].id)
    && (forall key :: key in o.sent ==>
          && Sent(key, o.sent[key].id) in o.log
          && (o.sent[key].id in o.unacked ==> o.unacked[o.sent[key].id].key == key)
          && (o.sent[key].acked ==> o.sent[key].id !in o.unacked && Acked(o.sent[key].id) in o.log)
          && (o.sent[key].id !in o.unacked ==> o.sent[key].acked || Expired(o.sent[key].id) in o.log))
  }

  ghost predicate Consistent(o: Out) { Recorded(o) && QueueFresh(o) && RecordsLatest(o) }

  lemma SendConsistent(o: Out, dest: ServicePath, key: string, data: string, now: nat)
    requires Consistent(o)
    ensures Consistent(Send(o, dest, key, data, now)) && Consistent(SkipId(o)) && Consistent(DropQueued(o))
  {
  }

  lemma Appended(log: seq<LogItem>, last: LogItem)
    ensures forall item :: item in log + [last] <==> item in log || item == last
  {
  }

  lemma FlushOneConsistent(o: Out, m: Unacked, now: nat)
    requires Consistent(o) && m.id < o.nextId
    requires forall item :: item in o.log && item.Sent? ==> item.id < m.id
    requires forall i :: 0 <= i < |o.queued| ==> m.id < o.queued[i].id
    ensures Consistent(FlushOne(o, m, now))
  {
    var o' := FlushOne(o, m, now);
    Appended(o.log, Sent(m.key, m.id));
    assert forall key :: key in o.sent ==> Sent(key, o.sent[key].id) in o.log && o.sent[key].id < m.id;
    assert Recorded(o');
    assert QueueFresh(o');
    FlushOneRecords(o, m, now);
  }

  lemma FlushOneRecords(o: Out, m: Unacked, now: nat)
    requires RecordsLatest(o)
    requires forall key :: key in o.sent ==> o.sent[key].id < m.id
    ensures RecordsLatest(FlushOne(o, m, now))
  {
    var o' := FlushOne(o, m, now);
    Appended(o.log, Sent(m.key, m.id));
    forall key | key in o'.sent
      ensures Sent(key, o'.sent[key].id) in o'.log
      ensures o'.sent[key].id in o'.unacked ==> o'.unacked[o'.sent[key].id].key == key
      ensures o'.sent[key].acked ==> o'.sent[key].id !in o'.unacked && Acked(o'.sent[key].id) in o'.log
      ensures o'.sent[key].id !in o'.unacked ==> o'.sent[key].acked || Expired(o'.sent[key].id) in o'.log
    {
      if key != m.key {
        assert o'.sent[key] == o.sent[key];
      }
    }
  }

  /** What is still to be flushed stays above everything sent. */
  ghost predicate Above(o: Out, ms: seq<Unacked>) {
    && (forall i :: 0 <= i < |ms| ==> ms[i].id < o.nextId)
    && (forall i, j :: 0 <= i < j < |ms| ==> ms[i].id < ms[j].id)
    && (forall i, item :: 0 <= i < |ms| && item in o.log && item.Sent? ==> item.id < ms[i].id)
  }

  lemma {:induction false} FlushAllConsistent(o: Out, ms: seq<Unacked>, now: nat)
    requires Consistent(o) && o.queued == [] && Above(o, ms)
    ensures Consistent(FlushAll(o, ms, now)) && FlushAll(o, ms, now).queued == []
    decreases |ms|
  {
    if ms != [] {
      FlushOneConsistent(o, ms[0], now);
      var o' := FlushOne(o, ms[0], now);
      assert forall item :: item in o'.log && item.Sent? ==> item in o.log || item.id == ms[0].id;
      FlushAllConsistent(o', ms[1..], now);
    }
  }

  lemma ResponseConsistent(o: Out, id: nat, code: ErrorCode, source: ServicePath)
    requires Consistent(o)
    ensures Consistent(HandleResponse(o, id, code, source))
  {
    if id in o.unacked {
      var o' := HandleResponse(o, id, code, source);
      Appended(o.log, Acked(id));
      assert Sent(o.unacked[id].key, id) in o.log;
      assert Recorded(o');
      assert QueueFresh(o');
      ResponseRecords(o, id, code, source);
    }
  }

  lemma ResponseRecords(o: Out, id: nat, code: ErrorCode, source: ServicePath)
    requires RecordsLatest(o) && id in o.unacked && o.unacked[id].key in o.sent
    ensures RecordsLatest(HandleResponse(o, id, code, source))
  {
    var o' := HandleResponse(o, id, code, source);
    var k := o.unacked[id].key;
    Appended(o.log, Acked(id));
    forall key | key in o'.sent
      ensures Sent(key, o'.sent[key].id) in o'.log
      ensures o'.sent[key].id in o'.unacked ==> o'.unacked[o'.sent[key].id].key == key
      ensures o'.sent[key].acked ==> o'.sent[key].id !in o'.unacked && Acked(o'.sent[key].id) in o'.log
      ensures o'.sent[key].id !in o'.unacked ==> o'.sent[key].acked || Expired(o'.sent[key].id) in o'.log
    {
      assert o'.sent[key].id == o.sent[key].id;
      if key != k {
        assert o'.sent[key] == o.sent[key] && o.sent[key].id != id;
      }
    }
  }

  lemma ExpireConsistent(o: Out, now: nat, gone: seq<nat>)
    requires Consistent(o) && Enumerates(gone, Gone(o, now))
    ensures Consistent(Expire(o, now, gone))
  {
    var o' := Expire(o, now, gone);
    var items := Expirations(gone);
    assert forall item :: item in o.log ==> item in o'.log;
    forall item | item in items ensures item.Expired? && item.id in gone {
      var i :| 0 <= i < |items| && items[i] == item;
    }
    forall id | id in gone ensures Expired(id) in o'.log {
      var i :| 0 <= i < |gone| && gone[i] == id;
      assert items[i] in items;
    }
    assert forall item :: item in o'.log ==> item in o.log || item in items;
  }

  lemma ResendOneConsistent(o: Out, id: nat, now: nat)
    requires Consistent(o) && id in o.unacked
    ensures Consistent(ResendOne(o, id, now))
  {
    var o' := ResendOne(o, id, now);
    assert forall item :: item in o.log ==> item in o'.log;
    assert forall item :: item in o'.log ==> item in o.log || item == Resent(id, o.unacked[id].timeSent, now);
  }

  lemma {:induction false} ResendAllConsistent(o: Out, ids: seq<nat>, now: nat)
    requires Consistent(o) && forall id :: id in ids ==> id in o.unacked && o.unacked[id].key in o.sent
    ensures Consistent(ResendAll(o, ids, now))
    decreases |ids|
  {
    if ids != [] {
      ResendOneConsistent(o, ids[0], now);
      ResendAllConsistent(ResendOne(o, ids[0], now), ids[1..], now);
    }
  }

  // -------------------------------------------------------------- every run

  datatype OutEvent =
    | Queue(dest: ServicePath, key: string, data: string, now: nat)
    | DrawId
    | Flush(now: nat)
    | Discard
    | Respond(id: nat, code: ErrorCode, source: ServicePath)
    | Ticked(now: nat, gone: seq<nat>, due: seq<nat>)

  ghost predicate Possible(o: Out, ev: OutEvent) {
    ev.Ticked? ==> Enumerates(ev.gone, Gone(o, ev.now)) && Enumerates(ev.due, Due(o, ev.now))
  }

  /** Any event takes a consistent table to a consistent table, and no lookup on the way can fail. */
  ghost function Next(o: Out, ev: OutEvent): (o': Out)
    requires Consistent(o) && Possible(o, ev)
    ensures Consistent(o')
  {
    match ev
    case Queue(dest, key, data, now) => SendConsistent(o, dest, key, data, now); Send(o, dest, key, data, now)
    case DrawId => SendConsistent(o, EmptyPath, "", "", 0); SkipId(o)
    case Flush(now) => FlushAllConsistent(o.(queued := []), o.queued, now); SendQueued(o, now)
    case Discard => SendConsistent(o, EmptyPath, "", "", 0); DropQueued(o)
    case Respond(id, code, source) => ResponseConsistent(o, id, code, source); HandleResponse(o, id, code, source)
    case Ticked(now, gone, due) => TickConsistent(o, now, gone, due); Tick(o, now, gone, due)
  }

  lemma TickConsistent(o: Out, now: nat, gone: seq<nat>, due: seq<nat>)
    requires Consistent(o) && Enumerates(gone, Gone(o, now)) && Enumerates(due, Due(o, now))
    ensures Consistent(Tick(o, now, gone, due))
  {
    ExpireConsistent(o, now, gone);
    assert forall id :: id in due ==> id in Due(o, now) && id in Fresh(o, now);
    ResendAllConsistent(Expire(o, now, gone), due, now);
  }

  ghost predicate IsRun(o: Out, evs: seq<OutEvent>)
    requires Consistent(o)
    decreases |evs|
  {
    evs == [] || (Possible(o, evs[0]) && IsRun(Next(o, evs[0]), evs[1..]))
  }

  /** In particular, every reachable table is consistent. */
  ghost function After(o: Out, evs: seq<OutEvent>): (o': Out)
    requires Consistent(o) && IsRun(o, evs)
    ensures Consistent(o')
    decreases |evs|
  {
    if evs == [] then o else After(Next(o, evs[0]), evs[1..])
  }

  // -------------------------------------------------------------- the object

  lemma FlushNext(o: Out, ms: seq<Unacked>, i: nat, now: nat)
    requires i < |ms|
    ensures FlushAll(o, ms[i..], now) == FlushAll(FlushOne(o, ms[i], now), ms[i + 1..], now)
    ensures ms[..i + 1] == ms[..i] + [ms[i]]
  {
    assert ms[i..][0] == ms[i] && ms[i..][1..] == ms[i + 1..];
  }

  lemma ResendNext(o: Out, ids: seq<nat>, i: nat, now: nat)
    requires i < |ids| && forall id :: id in ids ==> id in o.unacked && o.unacked[id].key in o.sent
    ensures ids[i] in ids
    ensures ResendAll(o, ids[i..], now) == ResendAll(ResendOne(o, ids[i], now), ids[i + 1..], now)
    ensures Picked(o.unacked, ids[..i + 1]) == Picked(o.unacked, ids[..i]) + [o.unacked[ids[i]]]
  {
    assert ids[i..][0] == ids[i] && ids[i..][1..] == ids[i + 1..];
  }

  /** Of the messages `done`, the fresh ones are kept and the others gone, each once. */
  ghost predicate Sifted(unacked: map<nat, Unacked>, done: set<nat>, kept: map<nat, Unacked>, gone: seq<nat>,
                         now: nat) {
    && done <= unacked.Keys
    && (forall id :: id in kept <==> id in done && Elapsed(unacked[id], now) < EXPIRY_SECS)
    && (forall id :: id in kept ==> kept[id] == unacked[id])
    && (forall id :: id in gone <==> id in done && Elapsed(unacked[id], now) >= EXPIRY_SECS)
    && (forall i, j :: 0 <= i < j < |gone| ==> gone[i] != gone[j])
  }

  lemma SiftOne(unacked: map<nat, Unacked>, done: set<nat>, kept: map<nat, Unacked>, gone: seq<nat>, now: nat, id: nat)
    requires Sifted(unacked, done, kept, gone, now) && id in unacked && id !in done
    ensures Elapsed(unacked[id], now) < EXPIRY_SECS ==>
              Sifted(unacked, done + {id}, kept[id := unacked[id]], gone, now)
    ensures Elapsed(unacked[id], now) >= EXPIRY_SECS ==> Sifted(unacked, done + {id}, kept, gone + [id], now)
  {
  }

  lemma SiftedAll(o: Out, kept: map<nat, Unacked>, gone: seq<nat>, now: nat)
    requires Sifted(o.unacked, o.unacked.Keys, kept, gone, now)
    ensures kept == Fresh(o, now) && Enumerates(gone, Gone(o, now))
  {
  }

  class Outgoing {
    var nextId: nat
    var queued: seq<Unacked>
    var unacked: map<nat, Unacked>
    var sent: map<string, SentEntry>
    /** Everything handed to the client, resends included. */
    var wire: seq<Unacked>
    ghost var log: seq<LogItem>

    ghost function Abs(): Out
      reads this
    {
      Out(nextId, queued, unacked, sent, log)
    }

    ghost predicate Valid()
      reads this
    {
      Consistent(Abs())
    }

    constructor (startId: nat)
      ensures Valid() && Abs() == EmptyOut(startId) && wire == []
    {
      nextId, queued, unacked, sent, wire, log := startId, [], map[], map[], [], [];
    }

    method Enqueue(dest: ServicePath, key: string, data: string, now: nat)
      requires Valid()
      modifies this`nextId, this`queued
      ensures Valid() && Abs() == Send(old(Abs()), dest, key, data, now)
    {
      SendConsistent(Abs(), dest, key, data, now);
      queued := queued + [Unacked(key, data, dest, nextId, now)];
      nextId := nextId + 1;
    }

    method SkipMessageId()
      requires Valid()
      modifies this`nextId
      ensures Valid() && Abs() == SkipId(old(Abs()))
    {
      SendConsistent(Abs(), EmptyPath, "", "", 0);
      nextId := nextId + 1;
    }

    /** Drains the queue: every queued message goes out, in order, and is recorded. */
    method SendQueuedMessages(now: nat)
      requires Valid()
      modifies this`queued, this`sent, this`unacked, this`wire, this`log
      ensures Valid() && Abs() == SendQueued(old(Abs()), now)
      ensures wire == old(wire) + old(queued)
    {
      FlushAllConsistent(Abs().(queued := []), queued, now);
      Drain(now);
    }

    /** Sends one message and records it. */
    method Post(m: Unacked, now: nat)
      modifies this`sent, this`unacked, this`wire, this`log
      ensures Abs() == FlushOne(old(Abs()), m, now) && wire == old(wire) + [m]
    {
      var secs := now / SECOND;
      wire := wire + [m];
      if m.key in sent {
        var e := sent[m.key];
        sent := sent[m.key := e.(data := m.data, id := m.id, lastUpdatedTime := secs, lastSentTime := secs,
                                 version := e.version + 1, acked := false, response := None, responseSource := None)];
      } else {
        sent := sent[m.key := SentEntry(m.data, m.id, secs, secs, secs, 1, false, None, None)];
      }
      unacked := unacked[m.id := m];
      log := log + [Sent(m.key, m.id)];
    }

    method Drain(now: nat)
      modifies this`queued, this`sent, this`unacked, this`wire, this`log
      ensures Abs() == SendQueued(old(Abs()), now)
      ensures wire == old(wire) + old(queued)
    {
      var drained := queued;
      queued := [];
      ghost var goal := FlushAll(Abs(), drained, now);
      for i := 0 to |drained|
        invariant FlushAll(Abs(), drained[i..], now) == goal
        invariant wire == old(wire) + drained[..i]
        invariant queued == []
      {
        FlushNext(Abs(), drained, i, now);
        Post(drained[i], now);
      }
      assert drained[|drained|..] == [] && drained[..|drained|] == drained;
    }

    method DropQueuedMessages()
      requires Valid()
      modifies this`queued
      ensures Valid() && Abs() == DropQueued(old(Abs()))
    {
      SendConsistent(Abs(), EmptyPath, "", "", 0);
      queued := [];
    }

    method Response(id: nat, code: ErrorCode, source: ServicePath)
      requires Valid()
      modifies this`sent, this`unacked, this`log
      ensures Valid() && Abs() == HandleResponse(old(Abs()), id, code, source)
    {
      ResponseConsistent(Abs(), id, code, source);
      ApplyResponse(id, code, source);
    }

    method ApplyResponse(id: nat, code: ErrorCode, source: ServicePath)
      requires id in unacked ==> unacked[id].key in sent
      modifies this`sent, this`unacked, this`log
      ensures Abs() == HandleResponse(old(Abs()), id, code, source)
    {
      if id !in unacked {
        return;
      }
      var key := unacked[id].key;
      var e := sent[key];
      if id == e.id {
        sent := sent[key := e.(acked := code == Ok, response := Some(code), responseSource := Some(source))];
      }
      if code == Ok {
        unacked := unacked - {id};
        log := log + [Acked(id)];
      }
    }

    /** `retain`: expired messages leave the map. */
    method RetainFresh(now: nat) returns (ghost gone: seq<nat>)
      modifies this`unacked, this`log
      ensures Enumerates(gone, Gone(old(Abs()), now)) && Abs() == Expire(old(Abs()), now, gone)
    {
      var todo := unacked.Keys;
      var kept: map<nat, Unacked> := map[];
      gone := [];
      while todo != {}
        invariant todo <= unacked.Keys && unacked == old(unacked) && log == old(log)
        invariant Sifted(unacked, unacked.Keys - todo, kept, gone, now)
        decreases |todo|
      {
        var id :| id in todo;
        SiftOne(unacked, unacked.Keys - todo, kept, gone, now, id);
        if Elapsed(unacked[id], now) < EXPIRY_SECS {
          kept := kept[id := unacked[id]];
        } else {
          gone := gone + [id];
        }
        assert unacked.Keys - (todo - {id}) == unacked.Keys - todo + {id};
        todo := todo - {id};
      }
      SiftedAll(Abs(), kept, gone, now);
      unacked := kept;
      log := log + Expirations(gone);
    }

    /** Walks the map in some order and lists what is due. */
    method ListDue(now: nat) returns (due: seq<nat>)
      ensures Enumerates(due, Due(Abs(), now))
    {
      var todo := unacked.Keys;
      due := [];
      while todo != {}
        invariant todo <= unacked.Keys
        invariant forall id :: id in due <==>
                    id in unacked.Keys - todo && RESEND_SECS <= Elapsed(unacked[id], now) < EXPIRY_SECS
        invariant forall i, j :: 0 <= i < j < |due| ==> due[i] != due[j]
        decreases |todo|
      {
        var id :| id in todo;
        if RESEND_SECS <= Elapsed(unacked[id], now) < EXPIRY_SECS {
          due := due + [id];
        }
        todo := todo - {id};
      }
    }

    /** Resends what is due, in the order the map is walked. */
    method ResendDue(now: nat) returns (due: seq<nat>)
      requires forall id :: id in unacked ==> unacked[id].key in sent
      modifies this`sent, this`wire, this`log
      ensures Enumerates(due, Due(old(Abs()), now))
      ensures Abs() == ResendAll(old(Abs()), due, now)
      ensures wire == old(wire) + Picked(unacked, due)
    {
      due := ListDue(now);
      assert forall id :: id in due ==> id in Due(Abs(), now);
      ghost var goal := ResendAll(Abs(), due, now);
      for i := 0 to |due|
        invariant sent.Keys == old(sent).Keys
        invariant ResendAll(Abs(), due[i..], now) == goal
        invariant wire == old(wire) + Picked(unacked, due[..i])
      {
        ResendNext(Abs(), due, i, now);
        Resend(due[i], now);
      }
      assert due[|due|..] == [] && due[..|due|] == due;
    }

    method Resend(id: nat, now: nat)
      requires id in unacked && unacked[id].key in sent
      modifies this`sent, this`wire, this`log
      ensures Abs() == ResendOne(old(Abs()), id, now)
      ensures wire == old(wire) + [unacked[id]]
    {
      var key := unacked[id].key;
      wire := wire + [unacked[id]];
      log := log + [Resent(id, unacked[id].timeSent, now)];
      sent := sent[key := sent[key].(lastSentTime := now / SECOND)];
    }

    method Round(now: nat) returns (ghost gone: seq<nat>, ghost due: seq<nat>)
      requires forall id :: id in unacked ==> unacked[id].key in sent
      modifies this`unacked, this`sent, this`wire, this`log
      ensures Enumerates(gone, Gone(old(Abs()), now)) && Enumerates(due, Due(old(Abs()), now))
      ensures Abs() == Tick(old(Abs()), now, gone, due)
      ensures wire == old(wire) + Picked(old(unacked), due)
    {
      ghost var before := Abs();
      gone := RetainFresh(now);
      assert Due(Abs(), now) == Due(before, now);
      due := ResendDue(now);
      assert Picked(unacked, due) == Picked(before.unacked, due);
    }

    /** One round of `drive_resend_loop`. */
    method OnTick(now: nat) returns (ghost gone: seq<nat>, ghost due: seq<nat>)
      requires Valid()
      modifies this`unacked, this`sent, this`wire, this`log
      ensures Possible(old(Abs()), Ticked(now, gone, due))
      ensures Valid() && Abs() == Next(old(Abs()), Ticked(now, gone, due))
      ensures wire == old(wire) + Picked(old(unacked), due)
    {
      ghost var before := Abs();
      gone, due := Round(now);
      TickConsistent(before, now, gone, due);
    }
  }
}
