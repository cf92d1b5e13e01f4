/** How often, when and until when an unacked message is resent
    (crates/swbus-actor/src/state/outgoing.rs, `drive_resend_loop`). */
module ResendRuns {
  import opened ServicePaths
  import opened Messages
  import opened Orders
  import opened OutgoingTable

  const PERIOD: nat := RESEND_SECS * SECOND

  /** The times of the ticks of a run. */
  function TickTimes(evs: seq<OutEvent>): seq<nat>
    decreases |evs|
  {
    if evs == [] then [] else (if evs[0].Ticked? then [evs[0].now] else []) + TickTimes(evs[1..])
  }

  predicate Monotone(ts: seq<nat>) { forall i, j :: 0 <= i < j < |ts| ==> ts[i] <= ts[j] }

  function Resends(log: seq<LogItem>, id: nat): nat {
    if log == [] then 0
    else Resends(log[..|log| - 1], id) + (if log[|log| - 1].Resent? && log[|log| - 1].id == id then 1 else 0)
  }

  lemma ResendsAppend(log: seq<LogItem>, item: LogItem, id: nat)
    ensures Resends(log + [item], id) == Resends(log, id) + (if item.Resent? && item.id == id then 1 else 0)
  {
    assert (log + [item])[..|log|] == log;
  }

  /** Ticks `f` to `j` are at least `n`, the last is the one of this resend, and at the first the message was due. */
  predicate Spans(ts: seq<nat>, f: nat, j: nat, item: LogItem, n: nat)
    requires item.Resent?
  {
    f <= j < |ts| && f + n <= j + 1 && ts[j] == item.at && item.timeSent + PERIOD <= ts[f]
  }

  ghost predicate Met(ts: seq<nat>, item: LogItem, n: nat)
    requires item.Resent?
  {
    exists f: nat, j: nat :: Spans(ts, f, j, item, n)
  }

  /** The age window, and pacing: up to the n-th resend of a message there are n ticks at which it was due. */
  ghost predicate PacedAt(log: seq<LogItem>, i: nat, ts: seq<nat>)
    requires i < |log| && log[i].Resent?
  {
    && log[i].timeSent + PERIOD <= log[i].at < log[i].timeSent + EXPIRY_SECS * SECOND
    && Met(ts, log[i], Resends(log[..i + 1], log[i].id))
  }

  ghost predicate Paced(log: seq<LogItem>, ts: seq<nat>) {
    forall i :: 0 <= i < |log| && log[i].Resent? ==> PacedAt(log, i, ts)
  }

  /** A waiting message was never acked, and its resends are logged with its own time. */
  ghost predicate Tracked(o: Out) {
    && (forall item :: item in o.log && item.Resent? && item.id in o.unacked ==>
          item.timeSent == o.unacked[item.id].timeSent)
    && (forall item :: item in o.log && item.Acked? ==> item.id !in o.unacked)
    && (forall item :: item in o.log && !item.Sent? ==> SentId(o.log, item.id))
  }

  ghost predicate SentId(log: seq<LogItem>, id: nat) { exists key :: Sent(key, id) in log }

  /** Nothing is resent after it was acked. */
  ghost predicate AckedFinal(log: seq<LogItem>) {
    forall i, j :: 0 <= i < j < |log| && log[i].Acked? && log[j].Resent? ==> log[i].id != log[j].id
  }

  /** `ts` are the ticks so far. */
  ghost predicate Disciplined(o: Out, ts: seq<nat>) { Paced(o.log, ts) && Tracked(o) && AckedFinal(o.log) }

  lemma PacedKept(log: seq<LogItem>, item: LogItem, i: nat, ts: seq<nat>)
    requires i < |log| && log[i].Resent? && PacedAt(log, i, ts)
    ensures PacedAt(log + [item], i, ts)
  {
    assert (log + [item])[..i + 1] == log[..i + 1];
  }

  lemma PacedAppend(log: seq<LogItem>, item: LogItem, ts: seq<nat>)
    requires Paced(log, ts) && !item.Resent?
    ensures Paced(log + [item], ts)
  {
    forall i | 0 <= i < |log| && log[i].Resent? ensures PacedAt(log + [item], i, ts) {
      PacedKept(log, item, i, ts);
    }
  }

  lemma PacedLater(log: seq<LogItem>, ts: seq<nat>, now: nat)
    requires Paced(log, ts)
    ensures Paced(log, ts + [now])
  {
    forall i | 0 <= i < |log| && log[i].Resent? ensures PacedAt(log, i, ts + [now]) {
      var n := Resends(log[..i + 1], log[i].id);
      var f: nat, j: nat :| Spans(ts, f, j, log[i], n);
      assert Spans(ts + [now], f, j, log[i], n);
    }
  }

  lemma PacedResend(log: seq<LogItem>, id: nat, timeSent: nat, ts: seq<nat>, now: nat, f: nat)
    requires Paced(log, ts + [now])
    requires timeSent + PERIOD <= now < timeSent + EXPIRY_SECS * SECOND
    requires f <= |ts| && timeSent + PERIOD <= (ts + [now])[f] && f + Resends(log, id) <= |ts|
    ensures Paced(log + [Resent(id, timeSent, now)], ts + [now])
  {
    var item := Resent(id, timeSent, now);
    forall i | 0 <= i < |log| && log[i].Resent? ensures PacedAt(log + [item], i, ts + [now]) {
      PacedKept(log, item, i, ts + [now]);
    }
    assert (log + [item])[..|log| + 1] == log + [item];
    ResendsAppend(log, item, id);
    assert Spans(ts + [now], f, |ts|, item, Resends(log, id) + 1);
    assert PacedAt(log + [item], |log|, ts + [now]);
  }

  lemma {:induction false} LastResend(log: seq<LogItem>, id: nat) returns (i: nat)
    requires Resends(log, id) > 0
    ensures i < |log| && log[i].Resent? && log[i].id == id && Resends(log[..i + 1], id) == Resends(log, id)
  {
    var n := |log| - 1;
    if log[n].Resent? && log[n].id == id {
      i := n;
      assert log[..n + 1] == log;
    } else {
      i := LastResend(log[..n], id);
      assert log[..n][..i + 1] == log[..i + 1];
    }
  }

  /** The resends of these messages so far came at ticks `ts`. */
  ghost predicate Before(log: seq<LogItem>, ids: seq<nat>, ts: seq<nat>) {
    forall i :: 0 <= i < |log| && log[i].Resent? && log[i].id in ids ==> PacedAt(log, i, ts)
  }

  /** A message that is due may be resent at this tick, if all its resends came at earlier ones. */
  lemma RoomForResend(o: Out, id: nat, ts: seq<nat>, now: nat) returns (f: nat)
    requires Before(o.log, [id], ts) && Tracked(o) && id in o.unacked && o.unacked[id].timeSent + PERIOD <= now
    ensures f <= |ts| && o.unacked[id].timeSent + PERIOD <= (ts + [now])[f] && f + Resends(o.log, id) <= |ts|
  {
    f := |ts|;
    if Resends(o.log, id) > 0 {
      var i := LastResend(o.log, id);
      assert o.log[i] in o.log && PacedAt(o.log, i, ts);
      var f0: nat, j0: nat :| Spans(ts, f0, j0, o.log[i], Resends(o.log, id));
      f := f0;
    }
  }

  lemma DueAge(m: Unacked, now: nat)
    requires RESEND_SECS <= Elapsed(m, now) < EXPIRY_SECS
    ensures m.timeSent + PERIOD <= now < m.timeSent + EXPIRY_SECS * SECOND
  {
  }

  lemma AckedFinalAppend(log: seq<LogItem>, item: LogItem)
    requires AckedFinal(log) && (item.Resent? ==> Acked(item.id) !in log)
    ensures AckedFinal(log + [item])
  {
    var log' := log + [item];
    forall i, j | 0 <= i < j < |log'| && log'[i].Acked? && log'[j].Resent? ensures log'[i].id != log'[j].id {
      assert log'[i] in log;
    }
  }

  lemma FlushOneDisciplined(o: Out, m: Unacked, now: nat, ts: seq<nat>)
    requires Disciplined(o, ts) && forall item :: item in o.log && item.Sent? ==> item.id < m.id
    ensures Disciplined(FlushOne(o, m, now), ts)
  {
    var item := Sent(m.key, m.id);
    var o' := FlushOne(o, m, now);
    PacedAppend(o.log, item, ts);
    AckedFinalAppend(o.log, item);
    Appended(o.log, item);
    forall it | it in o'.log && !it.Sent? ensures SentId(o'.log, it.id) && it.id != m.id {
      var key :| Sent(key, it.id) in o.log;
      assert Sent(key, it.id) in o'.log;
    }
  }

  lemma {:induction false} FlushAllDisciplined(o: Out, ms: seq<Unacked>, now: nat, ts: seq<nat>)
    requires Disciplined(o, ts) && Above(o, ms)
    ensures Disciplined(FlushAll(o, ms, now), ts)
    decreases |ms|
  {
    if ms != [] {
      FlushOneDisciplined(o, ms[0], now, ts);
      Appended(o.log, Sent(ms[0].key, ms[0].id));
      FlushAllDisciplined(FlushOne(o, ms[0], now), ms[1..], now, ts);
    }
  }

  lemma AckDisciplined(o: Out, id: nat, code: ErrorCode, source: ServicePath, ts: seq<nat>)
    requires Disciplined(o, ts) && Consistent(o)
    ensures Disciplined(HandleResponse(o, id, code, source), ts)
  {
    if id in o.unacked && code == Ok {
      PacedAppend(o.log, Acked(id), ts);
      AckedFinalAppend(o.log, Acked(id));
      Appended(o.log, Acked(id));
      var o' := HandleResponse(o, id, code, source);
      assert Sent(o.unacked[id].key, id) in o'.log;
      forall it | it in o'.log && !it.Sent? ensures SentId(o'.log, it.id) {
        if it in o.log {
          var key :| Sent(key, it.id) in o.log;
          assert Sent(key, it.id) in o'.log;
        }
      }
    }
  }

  /** Logging expired messages. */
  lemma {:induction false} ExpirationsDisciplined(o: Out, gone: seq<nat>, ts: seq<nat>)
    requires Disciplined(o, ts) && forall id :: id in gone ==> SentId(o.log, id)
    ensures Disciplined(o.(log := o.log + Expirations(gone)), ts)
    decreases |gone|
  {
    if gone == [] {
      assert o.log + Expirations(gone) == o.log;
    } else {
      var item := Expired(gone[0]);
      var o' := o.(log := o.log + [item]);
      PacedAppend(o.log, item, ts);
      AckedFinalAppend(o.log, item);
      Appended(o.log, item);
      forall id | SentId(o.log, id) ensures SentId(o'.log, id) {
        var key :| Sent(key, id) in o.log;
        assert Sent(key, id) in o'.log;
      }
      ExpirationsDisciplined(o', gone[1..], ts);
      assert o'.log + Expirations(gone[1..]) == o.log + Expirations(gone);
    }
  }

  lemma ExpireDisciplined(o: Out, now: nat, gone: seq<nat>, ts: seq<nat>)
    requires Disciplined(o, ts) && Consistent(o) && Enumerates(gone, Gone(o, now))
    ensures Disciplined(Expire(o, now, gone), ts)
  {
    forall id | id in gone ensures SentId(o.log, id) {
      assert id in Gone(o, now) && Sent(o.unacked[id].key, id) in o.log;
    }
    ExpirationsDisciplined(o.(unacked := Fresh(o, now)), gone, ts);
  }

  lemma ResendOneDisciplined(o: Out, id: nat, ts: seq<nat>, now: nat)
    requires Disciplined(o, ts + [now]) && Consistent(o) && Before(o.log, [id], ts)
    requires id in o.unacked && RESEND_SECS <= Elapsed(o.unacked[id], now) < EXPIRY_SECS
    ensures Disciplined(ResendOne(o, id, now), ts + [now])
  {
    var m := o.unacked[id];
    var item := Resent(id, m.timeSent, now);
    var o' := ResendOne(o, id, now);
    DueAge(m, now);
    var f := RoomForResend(o, id, ts, now);
    PacedResend(o.log, id, m.timeSent, ts, now, f);
    AckedFinalAppend(o.log, item);
    Appended(o.log, item);
    assert Sent(m.key, id) in o'.log;
    forall it | it in o'.log && !it.Sent? ensures SentId(o'.log, it.id) {
      if it in o.log {
        var key :| Sent(key, it.id) in o.log;
        assert Sent(key, it.id) in o'.log;
      }
    }
  }

  lemma StillBefore(log: seq<LogItem>, item: LogItem, ids: seq<nat>, ts: seq<nat>)
    requires ids != [] && item.Resent? && item.id == ids[0] && ids[0] !in ids[1..] && Before(log, ids, ts)
    ensures Before(log + [item], ids[1..], ts) && Before(log, [ids[0]], ts)
  {
    var log' := log + [item];
    forall i | 0 <= i < |log'| && log'[i].Resent? && log'[i].id in ids[1..] ensures PacedAt(log', i, ts) {
      PacedKept(log, item, i, ts);
    }
  }

  lemma {:induction false} ResendAllDisciplined(o: Out, ids: seq<nat>, ts: seq<nat>, now: nat)
    requires Disciplined(o, ts + [now]) && Consistent(o) && Before(o.log, ids, ts)
    requires forall i, j :: 0 <= i < j < |ids| ==> ids[i] != ids[j]
    requires forall id :: id in ids ==>
               && id in o.unacked && o.unacked[id].key in o.sent
               && RESEND_SECS <= Elapsed(o.unacked[id], now) < EXPIRY_SECS
    ensures Disciplined(ResendAll(o, ids, now), ts + [now])
    decreases |ids|
  {
    if ids != [] {
      StillBefore(o.log, Resent(ids[0], o.unacked[ids[0]].timeSent, now), ids, ts);
      ResendOneDisciplined(o, ids[0], ts, now);
      ResendOneConsistent(o, ids[0], now);
      ResendAllDisciplined(ResendOne(o, ids[0], now), ids[1..], ts, now);
    }
  }

  lemma TickDisciplined(o: Out, now: nat, gone: seq<nat>, due: seq<nat>, ts: seq<nat>)
    requires Disciplined(o, ts) && Consistent(o) && Possible(o, Ticked(now, gone, due))
    ensures Disciplined(Tick(o, now, gone, due), ts + [now])
  {
    var o' := Expire(o, now, gone);
    ExpireDisciplined(o, now, gone, ts);
    ExpireConsistent(o, now, gone);
    PacedLater(o'.log, ts, now);
    assert forall id :: id in due ==> id in Due(o, now) && id in Fresh(o, now);
    ResendAllDisciplined(o', due, ts, now);
  }

  lemma NextDisciplined(o: Out, ev: OutEvent, ts: seq<nat>)
    requires Disciplined(o, ts) && Consistent(o) && Possible(o, ev)
    ensures Disciplined(Next(o, ev), ts + if ev.Ticked? then [ev.now] else [])
  {
    if !ev.Ticked? {
      assert ts + [] == ts;
    }
    match ev
    case Flush(now) => FlushAllDisciplined(o.(queued := []), o.queued, now, ts);
    case Respond(id, code, source) => AckDisciplined(o, id, code, source, ts);
    case Ticked(now, gone, due) => TickDisciplined(o, now, gone, due, ts);
    case _ =>
  }

  /** Every run is paced by its ticks, whenever they come. */
  lemma {:induction false} RunDisciplined(o: Out, evs: seq<OutEvent>, ts: seq<nat>)
    requires Disciplined(o, ts) && Consistent(o) && IsRun(o, evs)
    ensures Disciplined(After(o, evs), ts + TickTimes(evs))
    decreases |evs|
  {
    if evs == [] {
      assert ts + [] == ts;
    } else {
      var tick := if evs[0].Ticked? then [evs[0].now] else [];
      NextDisciplined(o, evs[0], ts);
      RunDisciplined(Next(o, evs[0]), evs[1..], ts + tick);
      assert ts + tick + TickTimes(evs[1..]) == ts + TickTimes(evs);
    }
  }

  /** In every run, a message is resent only at ages from 60 s up to but not including 3600 s, and never once it was
      acked with Ok. */
  lemma ResendWindow(startId: nat, evs: seq<OutEvent>)
    requires IsRun(EmptyOut(startId), evs)
    ensures var log := After(EmptyOut(startId), evs).log;
            && (forall item :: item in log && item.Resent? ==>
                  item.timeSent + RESEND_SECS * SECOND <= item.at < item.timeSent + EXPIRY_SECS * SECOND)
            && AckedFinal(log)
  {
    RunDisciplined(EmptyOut(startId), evs, []);
    var log := After(EmptyOut(startId), evs).log;
    forall item | item in log && item.Resent?
      ensures item.timeSent + PERIOD <= item.at < item.timeSent + EXPIRY_SECS * SECOND
    {
      var i :| 0 <= i < |log| && log[i] == item;
      assert PacedAt(log, i, [] + TickTimes(evs));
    }
  }

  // -------------------------------------------------------- how often at most

  /** Some `n` successive ticks, the first at least a period after time 0, span less than 59 periods. */
  ghost predicate Window(ts: seq<nat>, n: nat) { exists k: nat :: WindowAt(ts, n, k) }

  predicate WindowAt(ts: seq<nat>, n: nat, k: nat) {
    1 <= n && k + n <= |ts| && PERIOD <= ts[k] && ts[k + n - 1] < ts[k] + 59 * PERIOD
  }

  lemma SpanWindow(ts: seq<nat>, item: LogItem, m: nat, n: nat)
    requires Monotone(ts) && item.Resent? && Met(ts, item, m) && 1 <= n <= m
    requires item.at < item.timeSent + EXPIRY_SECS * SECOND
    ensures Window(ts, n)
  {
    var f: nat, j: nat :| Spans(ts, f, j, item, m);
    assert f + n - 1 < j ==> ts[f + n - 1] <= ts[j];
    assert WindowAt(ts, n, f);
  }

  /** A message that is resent `n` times has met such ticks. */
  lemma ResendsNeedWindow(startId: nat, evs: seq<OutEvent>, id: nat, n: nat)
    requires IsRun(EmptyOut(startId), evs) && Monotone(TickTimes(evs))
    requires 1 <= n <= Resends(After(EmptyOut(startId), evs).log, id)
    ensures Window(TickTimes(evs), n)
  {
    RunDisciplined(EmptyOut(startId), evs, []);
    assert [] + TickTimes(evs) == TickTimes(evs);
    LogWindow(After(EmptyOut(startId), evs).log, TickTimes(evs), id, n);
  }

  lemma LogWindow(log: seq<LogItem>, ts: seq<nat>, id: nat, n: nat)
    requires Paced(log, ts) && Monotone(ts) && 1 <= n <= Resends(log, id)
    ensures Window(ts, n)
  {
    var i := LastResend(log, id);
    assert PacedAt(log, i, ts);
    SpanWindow(ts, log[i], Resends(log, id), n);
  }
}
