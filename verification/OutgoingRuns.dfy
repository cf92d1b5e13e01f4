/** What the outgoing tables hold over any run, told by its events (crates/swbus-actor/src/state/outgoing.rs). */
module OutgoingRuns {
  import opened Wrappers
  import opened ServicePaths
  import opened Messages
  import opened Orders
  import opened OutgoingTable

  // ------------------------------------------------------ unacked messages

  /** What ends the waiting of a message: an Ok response to it, or a round an hour after it was queued. */
  predicate Ends(ev: OutEvent, m: Unacked) {
    || (ev.Respond? && ev.id == m.id && ev.code == Ok)
    || (ev.Ticked? && ev.now >= m.timeSent + 3600 * 1_000_000_000)
  }

  lemma ExpiryAge(m: Unacked, now: nat)
    ensures Elapsed(m, now) >= EXPIRY_SECS <==> now >= m.timeSent + 3600 * 1_000_000_000
    ensures Elapsed(m, now) >= RESEND_SECS <==> now >= m.timeSent + 60 * 1_000_000_000
  {
  }

  ghost predicate Holds(ms: seq<Unacked>, m: Unacked) { exists i :: 0 <= i < |ms| && ms[i] == m }

  lemma {:induction false} FlushAllUnacked(o: Out, ms: seq<Unacked>, now: nat, id: nat)
    requires forall i, j :: 0 <= i < j < |ms| ==> ms[i].id < ms[j].id
    ensures var o' := FlushAll(o, ms, now);
            && (forall i :: 0 <= i < |ms| && ms[i].id == id ==> id in o'.unacked && o'.unacked[id] == ms[i])
            && ((forall i :: 0 <= i < |ms| ==> ms[i].id != id) ==>
                  && (id in o'.unacked <==> id in o.unacked)
                  && (id in o'.unacked ==> o'.unacked[id] == o.unacked[id]))
    decreases |ms|
  {
    if ms != [] {
      FlushAllUnacked(FlushOne(o, ms[0], now), ms[1..], now, id);
      assert forall i :: 0 < i < |ms| ==> ms[i] == ms[1..][i - 1];
    }
  }

  lemma {:induction false} ResendAllKeeps(o: Out, ids: seq<nat>, now: nat)
    requires forall id :: id in ids ==> id in o.unacked && o.unacked[id].key in o.sent
    ensures var o' := ResendAll(o, ids, now);
            o'.unacked == o.unacked && o'.queued == o.queued && o'.nextId == o.nextId
    decreases |ids|
  {
    if ids != [] {
      ResendAllKeeps(ResendOne(o, ids[0], now), ids[1..], now);
    }
  }

  lemma RoundKeeps(o: Out, now: nat, gone: seq<nat>, due: seq<nat>)
    requires forall id :: id in due ==> id in Due(o, now) && o.unacked[id].key in o.sent
    ensures var o' := Tick(o, now, gone, due);
            o'.unacked == Fresh(o, now) && o'.queued == o.queued && o'.nextId == o.nextId
  {
    assert forall id :: id in due ==> id in Due(o, now) && id in Fresh(o, now);
    ResendAllKeeps(Expire(o, now, gone), due, now);
  }

  lemma TickKeeps(o: Out, now: nat, gone: seq<nat>, due: seq<nat>)
    requires Consistent(o) && Possible(o, Ticked(now, gone, due))
    ensures var o' := Next(o, Ticked(now, gone, due));
            o'.unacked == Fresh(o, now) && o'.queued == o.queued && o'.nextId == o.nextId
  {
    RoundKeeps(o, now, gone, due);
  }

  lemma ResponseLeaves(o: Out, id: nat, code: ErrorCode, source: ServicePath)
    requires id in o.unacked ==> o.unacked[id].key in o.sent
    ensures var o' := HandleResponse(o, id, code, source);
            && o'.queued == o.queued && o'.nextId == o.nextId
            && o'.unacked == (if code == Ok then o.unacked - {id} else o.unacked)
            && o'.log == (if code == Ok && id in o.unacked then o.log + [Acked(id)] else o.log)
  {
  }

  lemma FlushLeaves(o: Out, now: nat, id: nat)
    requires QueueFresh(o) && id in o.unacked && Sent(o.unacked[id].key, id) in o.log
    ensures id in SendQueued(o, now).unacked && SendQueued(o, now).unacked[id] == o.unacked[id]
  {
    FlushAllUnacked(o.(queued := []), o.queued, now, id);
  }

  lemma TickLeaves(o: Out, now: nat, gone: seq<nat>, due: seq<nat>, id: nat)
    requires Consistent(o) && Possible(o, Ticked(now, gone, due)) && id in o.unacked
    ensures var o' := Next(o, Ticked(now, gone, due));
            && (id !in o'.unacked <==> now >= o.unacked[id].timeSent + 3600 * 1_000_000_000)
            && (id in o'.unacked ==> o'.unacked[id] == o.unacked[id])
  {
    TickKeeps(o, now, gone, due);
    ExpiryAge(o.unacked[id], now);
  }

  /** A message stops waiting by an Ok response to it or by age, and by nothing else. */
  lemma LeavesExactly(o: Out, ev: OutEvent, id: nat)
    requires Consistent(o) && Possible(o, ev) && id in o.unacked
    ensures id !in Next(o, ev).unacked <==> Ends(ev, o.unacked[id])
    ensures id in Next(o, ev).unacked ==> Next(o, ev).unacked[id] == o.unacked[id]
  {
    match ev
    case Flush(now) => FlushLeaves(o, now, id);
    case Ticked(now, gone, due) => TickLeaves(o, now, gone, due, id);
    case Respond(id', code, source) => ResponseLeaves(o, id', code, source);
    case _ =>
  }

  lemma FlushEnters(o: Out, now: nat, id: nat)
    requires QueueFresh(o) && id !in o.unacked
    ensures id in SendQueued(o, now).unacked ==> Holds(o.queued, SendQueued(o, now).unacked[id])
    ensures forall m :: Holds(o.queued, m) ==>
              m.id in SendQueued(o, now).unacked && SendQueued(o, now).unacked[m.id] == m
  {
    forall m | Holds(o.queued, m) ensures m.id in SendQueued(o, now).unacked && SendQueued(o, now).unacked[m.id] == m {
      FlushAllUnacked(o.(queued := []), o.queued, now, m.id);
    }
    FlushAllUnacked(o.(queued := []), o.queued, now, id);
  }

  /** A message starts to wait when the queue it is in is sent out, and at no other time. */
  lemma EntersExactly(o: Out, ev: OutEvent, id: nat)
    requires Consistent(o) && Possible(o, ev) && id !in o.unacked
    ensures id in Next(o, ev).unacked ==> ev.Flush? && Holds(o.queued, Next(o, ev).unacked[id])
    ensures ev.Flush? ==>
              forall m :: Holds(o.queued, m) ==> m.id in Next(o, ev).unacked && Next(o, ev).unacked[m.id] == m
  {
    match ev
    case Flush(now) => FlushEnters(o, now, id);
    case Ticked(now, gone, due) => TickKeeps(o, now, gone, due);
    case Respond(id', code, source) => ResponseLeaves(o, id', code, source);
    case _ =>
  }

  /** What is queued waits its turn behind the others, until all are sent out or all are discarded. */
  lemma QueuedExactly(o: Out, ev: OutEvent)
    requires Consistent(o) && Possible(o, ev)
    ensures ev.Queue? ==> Next(o, ev).queued == o.queued + [Unacked(ev.key, ev.data, ev.dest, o.nextId, ev.now)]
    ensures ev.Flush? || ev.Discard? ==> Next(o, ev).queued == []
    ensures ev.DrawId? || ev.Respond? || ev.Ticked? ==> Next(o, ev).queued == o.queued
    ensures Next(o, ev).nextId == o.nextId + if ev.Queue? || ev.DrawId? then 1 else 0
  {
    match ev
    case Flush(now) => FlushAllQueued(o.(queued := []), o.queued, now);
    case Ticked(now, gone, due) => TickKeeps(o, now, gone, due);
    case Respond(id, code, source) => ResponseLeaves(o, id, code, source);
    case _ =>
  }

  lemma {:induction false} FlushAllQueued(o: Out, ms: seq<Unacked>, now: nat)
    ensures FlushAll(o, ms, now).queued == o.queued && FlushAll(o, ms, now).nextId == o.nextId
    decreases |ms|
  {
    if ms != [] {
      FlushAllQueued(FlushOne(o, ms[0], now), ms[1..], now);
    }
  }

  // ---------------------------------------------------------------- the log

  lemma {:induction false} FlushAllLog(o: Out, ms: seq<Unacked>, now: nat)
    requires forall i, j :: 0 <= i < j < |ms| ==> ms[i].id < ms[j].id
    ensures var o' := FlushAll(o, ms, now);
            && (forall item :: item in o.log ==> item in o'.log)
            && (forall item :: item in o'.log ==> item in o.log || (item.Sent? && item.id in o'.unacked))
    decreases |ms|
  {
    if ms != [] {
      var o1 := FlushOne(o, ms[0], now);
      assert forall i :: 0 < i < |ms| ==> ms[i] == ms[1..][i - 1];
      Appended(o.log, Sent(ms[0].key, ms[0].id));
      FlushAllUnacked(o1, ms[1..], now, ms[0].id);
      FlushAllLog(o1, ms[1..], now);
    }
  }

  lemma {:induction false} ResendAllLog(o: Out, ids: seq<nat>, now: nat)
    requires forall id :: id in ids ==> id in o.unacked && o.unacked[id].key in o.sent
    ensures var log := ResendAll(o, ids, now).log;
            && (forall item :: item in o.log ==> item in log)
            && (forall item :: item in log ==> item in o.log || item.Resent?)
    decreases |ids|
  {
    if ids != [] {
      Appended(o.log, Resent(ids[0], o.unacked[ids[0]].timeSent, now));
      ResendAllLog(ResendOne(o, ids[0], now), ids[1..], now);
    }
  }

  lemma ExpireLog(o: Out, now: nat, gone: seq<nat>)
    ensures forall item :: item in Expire(o, now, gone).log <==>
              item in o.log || (item.Expired? && item.id in gone)
  {
    var items := Expirations(gone);
    forall item | item in items ensures item.Expired? && item.id in gone {
      var i :| 0 <= i < |items| && items[i] == item;
    }
    forall id | id in gone ensures Expired(id) in items {
      var i :| 0 <= i < |gone| && gone[i] == id;
      assert items[i] in items;
    }
  }

  lemma RoundLog(o: Out, now: nat, gone: seq<nat>, due: seq<nat>)
    requires forall id :: id in due ==> id in Due(o, now) && o.unacked[id].key in o.sent
    requires Enumerates(gone, Gone(o, now))
    ensures var log := Tick(o, now, gone, due).log;
            && (forall item :: item in o.log ==> item in log)
            && (forall id :: id in Gone(o, now) ==> Expired(id) in log)
            && (forall item :: item in log ==>
                  item in o.log || item.Resent? || (item.Expired? && item.id in Gone(o, now)))
  {
    ExpireLog(o, now, gone);
    assert forall id :: id in due ==> id in Due(o, now) && id in Fresh(o, now);
    ResendAllLog(Expire(o, now, gone), due, now);
  }

  lemma TickLog(o: Out, now: nat, gone: seq<nat>, due: seq<nat>)
    requires Consistent(o) && Possible(o, Ticked(now, gone, due))
    ensures var log := Next(o, Ticked(now, gone, due)).log;
            && (forall item :: item in o.log ==> item in log)
            && (forall id :: id in Gone(o, now) ==> Expired(id) in log)
            && (forall item :: item in log ==>
                  item in o.log || item.Resent? || (item.Expired? && item.id in Gone(o, now)))
  {
    RoundLog(o, now, gone, due);
  }

  lemma FlushLogged(o: Out, now: nat, item: LogItem)
    requires QueueFresh(o)
    ensures item in o.log ==> item in SendQueued(o, now).log
    ensures item in SendQueued(o, now).log && item !in o.log ==> item.Sent? && item.id in SendQueued(o, now).unacked
  {
    FlushAllLog(o.(queued := []), o.queued, now);
  }

  lemma TickLogged(o: Out, now: nat, gone: seq<nat>, due: seq<nat>, item: LogItem)
    requires Consistent(o) && Possible(o, Ticked(now, gone, due))
    ensures var log := Next(o, Ticked(now, gone, due)).log;
            && (item in o.log ==> item in log)
            && (item in log && item !in o.log ==>
                  || item.Resent?
                  || (item.Expired? && item.id in o.unacked
                      && now >= o.unacked[item.id].timeSent + 3600 * 1_000_000_000))
  {
    TickLog(o, now, gone, due);
    if item.Expired? && item.id in o.unacked {
      ExpiryAge(o.unacked[item.id], now);
    }
  }

  /** The log only grows, and what it says of acknowledgements and expiry is what ended a wait. */
  lemma LogStep(o: Out, ev: OutEvent, item: LogItem)
    requires Consistent(o) && Possible(o, ev)
    ensures item in o.log ==> item in Next(o, ev).log
    ensures item in Next(o, ev).log && item !in o.log ==>
              match item
              case Sent(_, id) => ev.Flush? && id in Next(o, ev).unacked
              case Resent(id, _, _) => ev.Ticked?
              case Acked(id) => id in o.unacked && ev.Respond? && Ends(ev, o.unacked[id])
              case Expired(id) => id in o.unacked && ev.Ticked? && Ends(ev, o.unacked[id])
  {
    match ev
    case Flush(now) => FlushLogged(o, now, item);
    case Ticked(now, gone, due) => TickLogged(o, now, gone, due, item);
    case Respond(id, code, source) => ResponseLeaves(o, id, code, source);
    case _ =>
  }

  /** Every message ever sent is still waiting, or was acked or expired. */
  ghost predicate Accounted(o: Out) {
    forall item :: item in o.log && item.Sent? ==>
      item.id in o.unacked || Acked(item.id) in o.log || Expired(item.id) in o.log
  }

  lemma LeftInLog(o: Out, ev: OutEvent, id: nat)
    requires Consistent(o) && Possible(o, ev) && id in o.unacked && Ends(ev, o.unacked[id])
    ensures Acked(id) in Next(o, ev).log || Expired(id) in Next(o, ev).log
  {
    if ev.Ticked? {
      TickLog(o, ev.now, ev.gone, ev.due);
      ExpiryAge(o.unacked[id], ev.now);
      assert id in Gone(o, ev.now);
    }
  }

  lemma AccountedStep(o: Out, ev: OutEvent)
    requires Consistent(o) && Possible(o, ev) && Accounted(o)
    ensures Accounted(Next(o, ev))
  {
    var o' := Next(o, ev);
    forall item | item in o'.log && item.Sent?
      ensures item.id in o'.unacked || Acked(item.id) in o'.log || Expired(item.id) in o'.log
    {
      LogStep(o, ev, item);
      LogStep(o, ev, Acked(item.id));
      LogStep(o, ev, Expired(item.id));
      if item.id in o.unacked {
        LeavesExactly(o, ev, item.id);
        if Ends(ev, o.unacked[item.id]) {
          LeftInLog(o, ev, item.id);
        }
      }
    }
  }

  /** In any run, a message that was sent is still waiting, or there was an Ok response to it, or it expired. */
  lemma {:induction false} NothingForgotten(o: Out, evs: seq<OutEvent>)
    requires Consistent(o) && Accounted(o) && IsRun(o, evs)
    ensures Accounted(After(o, evs))
    decreases |evs|
  {
    if evs != [] {
      AccountedStep(o, evs[0]);
      NothingForgotten(Next(o, evs[0]), evs[1..]);
    }
  }

  // ------------------------------------------------- the whole wait of a message

  ghost predicate WasSent(o: Out, id: nat) { exists key :: Sent(key, id) in o.log }

  /** A message that stopped waiting does not start again: its id is never used again. */
  lemma {:induction false} StaysGone(o: Out, evs: seq<OutEvent>, id: nat)
    requires Consistent(o) && IsRun(o, evs) && id !in o.unacked && WasSent(o, id)
    ensures id !in After(o, evs).unacked
    decreases |evs|
  {
    if evs != [] {
      var key :| Sent(key, id) in o.log;
      LogStep(o, evs[0], Sent(key, id));
      EntersExactly(o, evs[0], id);
      StaysGone(Next(o, evs[0]), evs[1..], id);
    }
  }

  predicate NeverEnds(evs: seq<OutEvent>, m: Unacked) { forall k :: 0 <= k < |evs| ==> !Ends(evs[k], m) }

  lemma NeverEndsStep(evs: seq<OutEvent>, m: Unacked)
    requires evs != []
    ensures NeverEnds(evs, m) <==> !Ends(evs[0], m) && NeverEnds(evs[1..], m)
  {
    assert forall k :: 0 < k < |evs| ==> evs[k] == evs[1..][k - 1];
    assert forall k :: 0 <= k < |evs[1..]| ==> evs[1..][k] == evs[k + 1];
  }

  lemma EndedForGood(o: Out, evs: seq<OutEvent>, id: nat)
    requires Consistent(o) && IsRun(o, evs) && evs != [] && id in o.unacked && Ends(evs[0], o.unacked[id])
    ensures id !in After(o, evs).unacked
  {
    assert Sent(o.unacked[id].key, id) in o.log;
    LogStep(o, evs[0], Sent(o.unacked[id].key, id));
    LeavesExactly(o, evs[0], id);
    StaysGone(Next(o, evs[0]), evs[1..], id);
  }

  /** Over any run, a waiting message waits on, unchanged, exactly as long as no Ok response to it and no round an
      hour after it was queued has come. */
  lemma {:induction false} WaitsExactly(o: Out, evs: seq<OutEvent>, id: nat)
    requires Consistent(o) && IsRun(o, evs) && id in o.unacked
    ensures id in After(o, evs).unacked <==> NeverEnds(evs, o.unacked[id])
    ensures id in After(o, evs).unacked ==> After(o, evs).unacked[id] == o.unacked[id]
    decreases |evs|
  {
    if evs != [] {
      NeverEndsStep(evs, o.unacked[id]);
      LeavesExactly(o, evs[0], id);
      if Ends(evs[0], o.unacked[id]) {
        EndedForGood(o, evs, id);
      } else {
        WaitsExactly(Next(o, evs[0]), evs[1..], id);
      }
    }
  }

  // ------------------------------------------------------- records by key

  /** The messages of a list that have this key. */
  function OfKey(ms: seq<Unacked>, key: string): (r: seq<Unacked>)
    ensures forall m :: m in r ==> m in ms && m.key == key
  {
    if ms == [] then [] else (if ms[0].key == key then [ms[0]] else []) + OfKey(ms[1..], key)
  }

  /** The record of a key once these messages have been sent with it. */
  function Rewritten(o: Out, key: string, ms: seq<Unacked>, secs: nat): SentEntry
    requires ms != []
  {
    var last := ms[|ms| - 1];
    SentEntry(last.data, last.id, if key in o.sent then o.sent[key].createdTime else secs, secs, secs,
              (if key in o.sent then o.sent[key].version else 0) + |ms|, false, None, None)
  }

  lemma {:induction false} FlushAllRecord(o: Out, ms: seq<Unacked>, now: nat, key: string)
    ensures var o', mine := FlushAll(o, ms, now), OfKey(ms, key);
            if mine == [] then (key in o'.sent <==> key in o.sent) && (key in o.sent ==> o'.sent[key] == o.sent[key])
            else key in o'.sent && o'.sent[key] == Rewritten(o, key, mine, now / 1_000_000_000)
    decreases |ms|
  {
    if ms != [] {
      FlushAllRecord(FlushOne(o, ms[0], now), ms[1..], now, key);
    }
  }

  /** Sending out the queue: the record of a key tells the last message, the number of messages and the times, and
      waits for a response again. */
  lemma RecordFlushed(o: Out, now: nat, key: string)
    requires Consistent(o)
    ensures var o', mine := Next(o, Flush(now)), OfKey(o.queued, key);
            if mine == [] then (key in o'.sent <==> key in o.sent) && (key in o.sent ==> o'.sent[key] == o.sent[key])
            else key in o'.sent && o'.sent[key] == Rewritten(o, key, mine, now / 1_000_000_000)
  {
    FlushAllRecord(o.(queued := []), o.queued, now, key);
  }

  /** A response is noted in the record of its key, and only if that record is about this very message; an error
      changes nothing else at all. */
  lemma RecordResponded(o: Out, ev: OutEvent, key: string)
    requires Consistent(o) && ev.Respond?
    ensures var o' := Next(o, ev);
            && (key in o'.sent <==> key in o.sent)
            && (key in o.sent ==>
                  o'.sent[key] == if ev.id in o.unacked && o.unacked[ev.id].key == key && o.sent[key].id == ev.id
                                  then o.sent[key].(acked := ev.code == Ok, response := Some(ev.code),
                                                    responseSource := Some(ev.source))
                                  else o.sent[key])
            && (ev.code != Ok ==> o' == o.(sent := o'.sent))
  {
    ResponseNoted(o, ev.id, ev.code, ev.source, key);
  }

  lemma ResponseNoted(o: Out, id: nat, code: ErrorCode, source: ServicePath, key: string)
    requires id in o.unacked ==> o.unacked[id].key in o.sent
    ensures var o' := HandleResponse(o, id, code, source);
            && (key in o'.sent <==> key in o.sent)
            && (key in o.sent ==>
                  o'.sent[key] == if id in o.unacked && o.unacked[id].key == key && o.sent[key].id == id
                                  then o.sent[key].(acked := code == Ok, response := Some(code),
                                                    responseSource := Some(source))
                                  else o.sent[key])
            && (code != Ok ==> o' == o.(sent := o'.sent))
  {
  }

  /** A message is resent by a round from a minute to an hour after it was queued. */
  predicate ResentBy(m: Unacked, now: nat) {
    m.timeSent + 60 * 1_000_000_000 <= now < m.timeSent + 3600 * 1_000_000_000
  }

  ghost predicate SomeResent(o: Out, now: nat, key: string) {
    exists id :: id in o.unacked && o.unacked[id].key == key && ResentBy(o.unacked[id], now)
  }

  lemma {:induction false} ResendAllRecord(o: Out, ids: seq<nat>, now: nat, key: string)
    requires forall id :: id in ids ==> id in o.unacked && o.unacked[id].key in o.sent
    ensures var o' := ResendAll(o, ids, now);
            && (key in o'.sent <==> key in o.sent)
            && (key in o.sent ==>
                  o'.sent[key] == if exists id :: id in ids && o.unacked[id].key == key
                                  then o.sent[key].(lastSentTime := now / 1_000_000_000) else o.sent[key])
    decreases |ids|
  {
    if ids != [] {
      ResendAllRecord(ResendOne(o, ids[0], now), ids[1..], now, key);
    }
  }

  /** A round changes nothing of a record but the time of the last sending, and that if a message of its key goes out
      again. */
  lemma RecordTicked(o: Out, ev: OutEvent, key: string)
    requires Consistent(o) && ev.Ticked? && Possible(o, ev)
    ensures var o' := Next(o, ev);
            && (key in o'.sent <==> key in o.sent)
            && (key in o.sent ==>
                  o'.sent[key] == if SomeResent(o, ev.now, key)
                                  then o.sent[key].(lastSentTime := ev.now / 1_000_000_000) else o.sent[key])
  {
    var o1 := Expire(o, ev.now, ev.gone);
    assert forall id :: id in ev.due ==> id in Due(o, ev.now) && id in Fresh(o, ev.now);
    ResendAllRecord(o1, ev.due, ev.now, key);
    forall id | id in o.unacked ensures id in ev.due <==> ResentBy(o.unacked[id], ev.now) {
      ExpiryAge(o.unacked[id], ev.now);
    }
    assert forall id :: id in ev.due ==> o1.unacked[id] == o.unacked[id];
  }

  // ------------------------------------------------ records over a whole run

  datatype Sending = Sending(m: Unacked, at: nat)

  function SentAt(ms: seq<Unacked>, at: nat): (r: seq<Sending>)
    ensures |r| == |ms| && forall i :: 0 <= i < |ms| ==> r[i] == Sending(ms[i], at)
  {
    seq(|ms|, i requires 0 <= i < |ms| => Sending(ms[i], at))
  }

  /** Every first sending of a message with this key over a run, in order. */
  ghost function Sendings(o: Out, evs: seq<OutEvent>, key: string): seq<Sending>
    requires Consistent(o) && IsRun(o, evs)
    decreases |evs|
  {
    if evs == [] then []
    else
      (if evs[0].Flush? then SentAt(OfKey(o.queued, key), evs[0].now) else [])
      + Sendings(Next(o, evs[0]), evs[1..], key)
  }

  /** The record tells of these sendings: how many there were, the last, and the times of the first and the last. */
  predicate Tells(e: SentEntry, version: nat, created: nat, last: Sending) {
    && e.version == version && e.data == last.m.data && e.id == last.m.id
    && e.createdTime == created && e.lastUpdatedTime == last.at / 1_000_000_000
  }

  predicate SameStory(e: SentEntry, e': SentEntry) {
    && e'.version == e.version && e'.data == e.data && e'.id == e.id
    && e'.createdTime == e.createdTime && e'.lastUpdatedTime == e.lastUpdatedTime
  }

  ghost predicate Told(before: map<string, SentEntry>, after: map<string, SentEntry>, key: string, ss: seq<Sending>) {
    if ss == [] then (key in after <==> key in before) && (key in before ==> SameStory(before[key], after[key]))
    else
      && key in after
      && Tells(after[key], (if key in before then before[key].version else 0) + |ss|,
               if key in before then before[key].createdTime else ss[0].at / 1_000_000_000, ss[|ss| - 1])
  }

  lemma StepTold(o: Out, ev: OutEvent, key: string)
    requires Consistent(o) && Possible(o, ev)
    ensures Told(o.sent, Next(o, ev).sent, key, if ev.Flush? then SentAt(OfKey(o.queued, key), ev.now) else [])
  {
    match ev
    case Flush(now) => RecordFlushed(o, now, key);
    case Respond(_, _, _) => RecordResponded(o, ev, key);
    case Ticked(_, _, _) => RecordTicked(o, ev, key);
    case _ =>
  }

  lemma ToldJoins(a: map<string, SentEntry>, b: map<string, SentEntry>, c: map<string, SentEntry>, key: string,
                  ss: seq<Sending>, ts: seq<Sending>)
    requires Told(a, b, key, ss) && Told(b, c, key, ts)
    ensures Told(a, c, key, ss + ts)
  {
  }

  lemma {:induction false} RunTold(o: Out, evs: seq<OutEvent>, key: string)
    requires Consistent(o) && IsRun(o, evs)
    ensures Told(o.sent, After(o, evs).sent, key, Sendings(o, evs, key))
    decreases |evs|
  {
    if evs != [] {
      var o1 := Next(o, evs[0]);
      StepTold(o, evs[0], key);
      RunTold(o1, evs[1..], key);
      ToldJoins(o.sent, o1.sent, After(o, evs).sent, key,
                if evs[0].Flush? then SentAt(OfKey(o.queued, key), evs[0].now) else [], Sendings(o1, evs[1..], key));
    }
  }

  /** From an empty table: there is a record of a key exactly if something was sent with it, and it tells the number of
      these messages, the last of them, and when the first and the last were sent. */
  lemma RecordTells(startId: nat, evs: seq<OutEvent>, key: string)
    requires IsRun(EmptyOut(startId), evs)
    ensures var sent, ss := After(EmptyOut(startId), evs).sent, Sendings(EmptyOut(startId), evs, key);
            && (key in sent <==> ss != [])
            && (ss != [] ==> Tells(sent[key], |ss|, ss[0].at / 1_000_000_000, ss[|ss| - 1]))
  {
    RunTold(EmptyOut(startId), evs, key);
  }
}
