/** Exactly how often a message can be resent under given ticks
    (crates/swbus-actor/src/state/outgoing.rs, `drive_resend_loop`). */
module ResendSchedules {
  import opened ServicePaths
  import opened OutgoingTable
  import opened ResendRuns

  // ------------------------------------------------------------------ clocked runs

  /** The times at which events happen. */
  function Times(evs: seq<OutEvent>): seq<nat>
    decreases |evs|
  {
    if evs == [] then []
    else (match evs[0]
          case Queue(_, _, _, now) => [now]
          case Flush(now) => [now]
          case Ticked(now, _, _) => [now]
          case _ => []) + Times(evs[1..])
  }

  /** A run from empty tables with these ticks, under a clock that does not go back. */
  ghost predicate RunWith(startId: nat, evs: seq<OutEvent>, ts: seq<nat>) {
    IsRun(EmptyOut(startId), evs) && TickTimes(evs) == ts && Monotone(Times(evs))
  }

  ghost predicate ResentIn(startId: nat, evs: seq<OutEvent>, id: nat, n: nat)
    requires IsRun(EmptyOut(startId), evs)
  {
    n <= Resends(After(EmptyOut(startId), evs).log, id)
  }

  /** Under these ticks some message can be resent `n` times. */
  ghost predicate CanResend(startId: nat, ts: seq<nat>, n: nat) {
    exists evs, id: nat :: RunWith(startId, evs, ts) && ResentIn(startId, evs, id, n)
  }

  /** One event and then a run. */
  lemma {:induction false} StepFirst(o: Out, ev: OutEvent, rest: seq<OutEvent>)
    requires Consistent(o) && Possible(o, ev) && IsRun(Next(o, ev), rest)
    ensures IsRun(o, [ev] + rest) && After(o, [ev] + rest) == After(Next(o, ev), rest)
  {
    assert ([ev] + rest)[1..] == rest;
  }

  lemma TickFirst(o: Out, ev: OutEvent, rest: seq<OutEvent>)
    requires Consistent(o) && ev.Ticked? && Possible(o, ev) && IsRun(Next(o, ev), rest)
    ensures var evs := [ev] + rest;
            && IsRun(o, evs) && After(o, evs) == After(Next(o, ev), rest)
            && TickTimes(evs) == [ev.now] + TickTimes(rest) && Times(evs) == [ev.now] + Times(rest)
  {
    StepFirst(o, ev, rest);
    TimesFirst(ev, rest);
  }

  lemma {:induction false} TimesFirst(ev: OutEvent, rest: seq<OutEvent>)
    requires ev.Queue? || ev.Flush? || ev.Ticked?
    ensures Times([ev] + rest) == [ev.now] + Times(rest)
    ensures TickTimes([ev] + rest) == (if ev.Ticked? then [ev.now] else []) + TickTimes(rest)
  {
    assert ([ev] + rest)[1..] == rest;
  }

  // ---------------------------------------------------------- ticks, one after another

  /** Nothing waits, so a tick does nothing. */
  lemma IdleTick(o: Out, now: nat)
    requires Consistent(o) && o.unacked == map[]
    ensures Possible(o, Ticked(now, [], [])) && Next(o, Ticked(now, [], [])) == o
  {
    assert Gone(o, now) == {} && Due(o, now) == {};
    assert Fresh(o, now) == o.unacked;
    assert o.log + Expirations([]) == o.log;
  }

  lemma Peel(ts: seq<nat>, more: seq<nat>)
    requires ts != []
    ensures [ts[0]] + (ts[1..] + more) == ts + more && [ts[0]] + ts[1..] == ts
  {
  }

  lemma IdleStep(o: Out, now: nat, rest: seq<OutEvent>)
    requires Consistent(o) && o.unacked == map[] && IsRun(o, rest)
    ensures var evs := [Ticked(now, [], [])] + rest;
            && IsRun(o, evs) && After(o, evs) == After(o, rest)
            && TickTimes(evs) == [now] + TickTimes(rest) && Times(evs) == [now] + Times(rest)
  {
    IdleTick(o, now);
    TickFirst(o, Ticked(now, [], []), rest);
  }

  /** Any run may come after ticks that find nothing waiting. */
  lemma {:induction false} IdleFirst(o: Out, ts: seq<nat>, rest: seq<OutEvent>) returns (evs: seq<OutEvent>)
    requires Consistent(o) && o.unacked == map[] && IsRun(o, rest)
    ensures IsRun(o, evs) && After(o, evs) == After(o, rest)
    ensures TickTimes(evs) == ts + TickTimes(rest) && Times(evs) == ts + Times(rest)
    decreases |ts|
  {
    evs := rest;
    if ts != [] {
      var later := IdleFirst(o, ts[1..], rest);
      IdleStep(o, ts[0], later);
      evs := [Ticked(ts[0], [], [])] + later;
      Peel(ts, TickTimes(rest));
      Peel(ts, Times(rest));
    }
  }

  lemma IdleRun(o: Out, ts: seq<nat>) returns (evs: seq<OutEvent>)
    requires Consistent(o) && o.unacked == map[]
    ensures IsRun(o, evs) && After(o, evs) == o && TickTimes(evs) == ts == Times(evs)
  {
    evs := IdleFirst(o, ts, []);
    assert ts + [] == ts;
  }

  /** Only this message waits, with its record. */
  ghost predicate Waits(o: Out, m: Unacked) { Consistent(o) && o.unacked == map[m.id := m] && m.key in o.sent }

  predicate DueAt(m: Unacked, now: nat) { m.timeSent + PERIOD <= now < m.timeSent + EXPIRY_SECS * SECOND }

  lemma DueByAge(m: Unacked, now: nat)
    ensures DueAt(m, now) <==> RESEND_SECS <= Elapsed(m, now) < EXPIRY_SECS
    ensures now >= m.timeSent + EXPIRY_SECS * SECOND <==> Elapsed(m, now) >= EXPIRY_SECS
  {
  }

  /** At a tick the message is resent, or left alone, or it expires. */
  lemma WaitingTick(o: Out, m: Unacked, now: nat) returns (ev: OutEvent)
    requires Waits(o, m)
    ensures ev.Ticked? && ev.now == now && Possible(o, ev)
    ensures now < m.timeSent + EXPIRY_SECS * SECOND ==> Waits(Next(o, ev), m)
    ensures now >= m.timeSent + EXPIRY_SECS * SECOND ==> Next(o, ev).unacked == map[]
    ensures Resends(Next(o, ev).log, m.id) == Resends(o.log, m.id) + if DueAt(m, now) then 1 else 0
  {
    DueByAge(m, now);
    if now >= m.timeSent + EXPIRY_SECS * SECOND {
      ev := Ticked(now, [m.id], []);
      ExpiringTick(o, m, now);
      ResendsAppend(o.log, Expired(m.id), m.id);
    } else if DueAt(m, now) {
      ev := Ticked(now, [], [m.id]);
      ResendingTick(o, m, now);
    } else {
      ev := Ticked(now, [], []);
      EarlyTick(o, m, now);
    }
  }

  lemma ExpiresNow(o: Out, m: Unacked, now: nat)
    requires Waits(o, m) && Elapsed(m, now) >= EXPIRY_SECS
    ensures Gone(o, now) == {m.id} && Due(o, now) == {}
    ensures Tick(o, now, [m.id], []) == o.(unacked := map[], log := o.log + [Expired(m.id)])
  {
    assert Fresh(o, now) == map[];
    assert Expirations([m.id]) == [Expired(m.id)];
  }

  lemma ExpiringTick(o: Out, m: Unacked, now: nat)
    requires Waits(o, m) && Elapsed(m, now) >= EXPIRY_SECS
    ensures var ev := Ticked(now, [m.id], []);
            Possible(o, ev) && Next(o, ev) == o.(unacked := map[], log := o.log + [Expired(m.id)])
  {
    ExpiresNow(o, m, now);
  }

  lemma DueNow(o: Out, m: Unacked, now: nat)
    requires o.unacked == map[m.id := m] && RESEND_SECS <= Elapsed(m, now) < EXPIRY_SECS
    ensures Gone(o, now) == {} && Due(o, now) == {m.id} && Fresh(o, now) == o.unacked
  {
  }

  lemma ResentNow(o: Out, m: Unacked, now: nat)
    requires Waits(o, m) && Due(o, now) == {m.id} && Fresh(o, now) == o.unacked
    ensures Tick(o, now, [], [m.id]) == ResendOne(o, m.id, now)
  {
    assert o.log + Expirations([]) == o.log;
    assert Expire(o, now, []) == o;
    ResendSingle(o, m.id, now);
  }

  lemma ResendSingle(o: Out, id: nat, now: nat)
    requires id in o.unacked && o.unacked[id].key in o.sent
    ensures ResendAll(o, [id], now) == ResendOne(o, id, now)
  {
    assert [id][1..] == [];
  }

  lemma ResendingTick(o: Out, m: Unacked, now: nat)
    requires Waits(o, m) && RESEND_SECS <= Elapsed(m, now) < EXPIRY_SECS
    ensures var ev := Ticked(now, [], [m.id]);
            && Possible(o, ev) && Waits(Next(o, ev), m)
            && Resends(Next(o, ev).log, m.id) == Resends(o.log, m.id) + 1
  {
    DueNow(o, m, now);
    ResentNow(o, m, now);
    ResendsAppend(o.log, Resent(m.id, m.timeSent, now), m.id);
  }

  lemma EarlyTick(o: Out, m: Unacked, now: nat)
    requires Waits(o, m) && Elapsed(m, now) < RESEND_SECS
    ensures var ev := Ticked(now, [], []); Possible(o, ev) && Next(o, ev) == o
  {
    assert Gone(o, now) == {} && Due(o, now) == {} && Fresh(o, now) == o.unacked;
    assert o.log + Expirations([]) == o.log;
  }

  /** At how many of the ticks the message is due. */
  function DueCount(m: Unacked, ts: seq<nat>): nat
    decreases |ts|
  {
    if ts == [] then 0 else (if DueAt(m, ts[0]) then 1 else 0) + DueCount(m, ts[1..])
  }

  lemma {:induction false} NoneDue(m: Unacked, ts: seq<nat>)
    requires forall i :: 0 <= i < |ts| ==> !DueAt(m, ts[i])
    ensures DueCount(m, ts) == 0
    decreases |ts|
  {
    if ts != [] {
      NoneDue(m, ts[1..]);
    }
  }

  lemma {:induction false} ManyDue(m: Unacked, ts: seq<nat>, k: nat, n: nat)
    requires k + n <= |ts| && forall i :: k <= i < k + n ==> DueAt(m, ts[i])
    ensures DueCount(m, ts) >= n
    decreases |ts|
  {
    if n > 0 {
      if k > 0 {
        ManyDue(m, ts[1..], k - 1, n);
      } else {
        ManyDue(m, ts[1..], 0, n - 1);
      }
    }
  }

  /** Over ticks in order a waiting message is resent at each at which it is due. */
  lemma {:induction false} WaitingRun(o: Out, m: Unacked, ts: seq<nat>) returns (evs: seq<OutEvent>)
    requires Waits(o, m) && Monotone(ts)
    ensures IsRun(o, evs) && TickTimes(evs) == ts == Times(evs)
    ensures Resends(After(o, evs).log, m.id) == Resends(o.log, m.id) + DueCount(m, ts)
    decreases |ts|
  {
    evs := [];
    if ts != [] {
      var ev := WaitingTick(o, m, ts[0]);
      var o' := Next(o, ev);
      var rest;
      if ts[0] < m.timeSent + EXPIRY_SECS * SECOND {
        rest := WaitingRun(o', m, ts[1..]);
      } else {
        rest := IdleRun(o', ts[1..]);
        NoneDue(m, ts[1..]);
      }
      TickFirst(o, ev, rest);
      evs := [ev] + rest;
      Peel(ts, []);
    }
  }

  // ------------------------------------------------------------ a message in its place

  lemma FlushSingle(o: Out, m: Unacked, now: nat)
    ensures FlushAll(o, [m], now) == FlushOne(o, m, now)
  {
    assert [m][1..] == [];
  }

  function Mail(id: nat, time: nat): Unacked { Unacked("key", "data", EmptyPath, id, time) }

  function Queued(startId: nat, time: nat): Out
    ensures Consistent(Queued(startId, time))
  {
    Out(startId + 1, [Mail(startId, time)], map[], map[], [])
  }

  lemma MailQueued(startId: nat, time: nat)
    ensures var ev := Queue(EmptyPath, "key", "data", time);
            Possible(EmptyOut(startId), ev) && Next(EmptyOut(startId), ev) == Queued(startId, time)
  {
    assert [] + [Mail(startId, time)] == [Mail(startId, time)];
  }

  lemma MailSent(startId: nat, time: nat)
    ensures Possible(Queued(startId, time), Flush(time))
    ensures var o := Next(Queued(startId, time), Flush(time));
            Waits(o, Mail(startId, time)) && Resends(o.log, startId) == 0
  {
    var o := Queued(startId, time);
    FlushSingle(o.(queued := []), Mail(startId, time), time);
    assert Next(o, Flush(time)).log == [Sent("key", startId)];
  }

  // -------------------------------------------------------- the exact condition

  /** The message is queued a period before the first tick of the window. */
  function Start(ts: seq<nat>, k: nat): nat
    requires k < |ts| && PERIOD <= ts[k]
  {
    ts[k] - PERIOD
  }

  lemma {:induction false} Split(ts: seq<nat>, time: nat) returns (p: nat)
    ensures p <= |ts| && (forall i :: 0 <= i < p ==> ts[i] < time) && (p < |ts| ==> time <= ts[p])
    decreases |ts|
  {
    p := 0;
    if ts != [] && ts[0] < time {
      p := Split(ts[1..], time);
      p := p + 1;
    }
  }

  lemma WindowDue(ts: seq<nat>, n: nat, k: nat, p: nat, id: nat)
    requires Monotone(ts) && WindowAt(ts, n, k) && p <= k
    ensures DueCount(Mail(id, Start(ts, k)), ts[p..]) >= n
  {
    var m := Mail(id, Start(ts, k));
    forall i | k - p <= i < k - p + n ensures DueAt(m, ts[p..][i]) {
      assert ts[p..][i] == ts[p + i] && ts[k] <= ts[p + i] <= ts[k + n - 1];
    }
    ManyDue(m, ts[p..], k - p, n);
  }

  lemma InPlace(ts: seq<nat>, p: nat, time: nat)
    requires Monotone(ts) && p <= |ts| && (forall i :: 0 <= i < p ==> ts[i] < time) && (p < |ts| ==> time <= ts[p])
    ensures Monotone(ts[..p] + [time, time] + ts[p..])
  {
  }

  lemma MailFirst(startId: nat, time: nat, late: seq<OutEvent>)
    requires IsRun(Next(Queued(startId, time), Flush(time)), late)
    ensures var evs := [Queue(EmptyPath, "key", "data", time)] + ([Flush(time)] + late);
            && IsRun(EmptyOut(startId), evs)
            && After(EmptyOut(startId), evs) == After(Next(Queued(startId, time), Flush(time)), late)
            && TickTimes(evs) == TickTimes(late) && Times(evs) == [time, time] + Times(late)
  {
    var a, b := Queue(EmptyPath, "key", "data", time), Flush(time);
    MailQueued(startId, time);
    StepFirst(Queued(startId, time), b, late);
    StepFirst(EmptyOut(startId), a, [b] + late);
    TimesFirst(b, late);
    TimesFirst(a, [b] + late);
    Twice(time, Times(late));
    NoTicks(TickTimes(late));
  }

  lemma Twice(time: nat, more: seq<nat>)
    ensures [time] + ([time] + more) == [time, time] + more
  {
  }

  lemma NoTicks(more: seq<nat>)
    ensures [] + ([] + more) == more
  {
  }

  /** The run from the queueing of the message on. */
  lemma LateRun(startId: nat, ts: seq<nat>, n: nat, k: nat, p: nat) returns (evs: seq<OutEvent>)
    requires Monotone(ts) && WindowAt(ts, n, k) && p <= k
    ensures IsRun(EmptyOut(startId), evs) && ResentIn(startId, evs, startId, n)
    ensures TickTimes(evs) == ts[p..] && Times(evs) == [Start(ts, k), Start(ts, k)] + ts[p..]
  {
    var time := Start(ts, k);
    MailSent(startId, time);
    var late := WaitingRun(Next(Queued(startId, time), Flush(time)), Mail(startId, time), ts[p..]);
    WindowDue(ts, n, k, p, startId);
    MailFirst(startId, time, late);
    evs := [Queue(EmptyPath, "key", "data", time)] + ([Flush(time)] + late);
  }

  /** In a window of `n` ticks some message is resent `n` times. */
  lemma WindowResends(startId: nat, ts: seq<nat>, n: nat, k: nat) returns (evs: seq<OutEvent>)
    requires Monotone(ts) && WindowAt(ts, n, k)
    ensures RunWith(startId, evs, ts) && ResentIn(startId, evs, startId, n)
  {
    var time := Start(ts, k);
    var p := Split(ts, time);
    var late := LateRun(startId, ts, n, k, p);
    evs := IdleFirst(EmptyOut(startId), ts[..p], late);
    InPlace(ts, p, time);
    Regroup(ts, p, [time, time]);
  }

  lemma Regroup(ts: seq<nat>, p: nat, mid: seq<nat>)
    requires p <= |ts|
    ensures ts[..p] + ts[p..] == ts && ts[..p] + (mid + ts[p..]) == ts[..p] + mid + ts[p..]
  {
  }

  /** Under given ticks a message can be resent `n` times if and only if some `n` successive ticks span less than 59
      periods. */
  lemma ResendsExactly(startId: nat, ts: seq<nat>, n: nat)
    requires Monotone(ts) && n >= 1
    ensures CanResend(startId, ts, n) <==> Window(ts, n)
  {
    if evs, id: nat :| RunWith(startId, evs, ts) && ResentIn(startId, evs, id, n) {
      ResendsNeedWindow(startId, evs, id, n);
    }
    if k: nat :| WindowAt(ts, n, k) {
      var evs := WindowResends(startId, ts, n, k);
    }
  }

  // ------------------------------------------------------------ the resend interval

  /** The slot of the resend interval, created at `start`, in which a time lies. */
  function Slot(start: nat, time: nat): int { (time - start) / PERIOD }

  /** A late tick does not move the ones after it: the interval skips what it missed and fires next on the grid of
      its period, in a later slot. The two may be less than a period apart. */
  predicate OnGrid(start: nat, ts: seq<nat>) { forall i :: 0 <= i < |ts| - 1 ==> Fires(start, ts[i], ts[i + 1]) }

  predicate Fires(start: nat, last: nat, now: nat) { Slot(start, last) < Slot(start, now) }

  /** The first point of the grid after the interval last fired, which is where it is due next. */
  function NextDeadline(start: nat, fired: nat): int { start + (Slot(start, fired) + 1) * PERIOD }

  lemma FiresFromDeadline(start: nat, fired: nat, now: nat)
    ensures Fires(start, fired, now) <==> NextDeadline(start, fired) <= now
    ensures fired < NextDeadline(start, fired) <= fired + PERIOD
  {
  }

  /** Ticks a full period apart, as they are while none is late. */
  predicate Apart(ts: seq<nat>) { forall i :: 0 <= i < |ts| - 1 ==> ts[i] + PERIOD <= ts[i + 1] }

  lemma {:induction false} SlotsSpread(start: nat, ts: seq<nat>, i: nat, j: nat)
    requires OnGrid(start, ts) && i <= j < |ts|
    ensures Slot(start, ts[i]) + (j - i) <= Slot(start, ts[j]) && ts[i] <= ts[j]
    decreases j - i
  {
    if i < j {
      SlotsSpread(start, ts, i, j - 1);
      assert Fires(start, ts[j - 1], ts[j - 1 + 1]);
    }
  }

  lemma {:induction false} TicksSpread(ts: seq<nat>, i: nat, j: nat)
    requires Apart(ts) && i <= j < |ts|
    ensures ts[i] + (j - i) * PERIOD <= ts[j]
    decreases j - i
  {
    if i < j {
      TicksSpread(ts, i, j - 1);
      assert ts[j - 1] + PERIOD <= ts[j - 1 + 1];
    }
  }

  lemma GridMonotone(start: nat, ts: seq<nat>)
    requires OnGrid(start, ts)
    ensures Monotone(ts)
  {
    forall i, j | 0 <= i < j < |ts| ensures ts[i] <= ts[j] {
      SlotsSpread(start, ts, i, j);
    }
  }

  lemma ApartMonotone(ts: seq<nat>)
    requires Apart(ts)
    ensures Monotone(ts)
  {
    forall i, j | 0 <= i < j < |ts| ensures ts[i] <= ts[j] {
      TicksSpread(ts, i, j);
    }
  }

  lemma GridWindow(start: nat, ts: seq<nat>, n: nat)
    requires OnGrid(start, ts) && Window(ts, n)
    ensures n <= 60
  {
    var k: nat :| WindowAt(ts, n, k);
    SlotsSpread(start, ts, k, k + n - 1);
  }

  lemma ApartWindow(ts: seq<nat>, n: nat)
    requires Apart(ts) && Window(ts, n)
    ensures n <= 59
  {
    var k: nat :| WindowAt(ts, n, k);
    TicksSpread(ts, k, k + n - 1);
  }

  /** In every run, however late its ticks, a message is resent at most 60 times. */
  lemma ResendBound(startId: nat, start: nat, evs: seq<OutEvent>, id: nat)
    requires IsRun(EmptyOut(startId), evs) && OnGrid(start, TickTimes(evs))
    ensures Resends(After(EmptyOut(startId), evs).log, id) <= 60
  {
    var n := Resends(After(EmptyOut(startId), evs).log, id);
    if n > 0 {
      GridMonotone(start, TickTimes(evs));
      ResendsNeedWindow(startId, evs, id, n);
      GridWindow(start, TickTimes(evs), n);
    }
  }

  /** While no tick is late, at most 59 times. */
  lemma ResendBoundOnTime(startId: nat, evs: seq<OutEvent>, id: nat)
    requires IsRun(EmptyOut(startId), evs) && Apart(TickTimes(evs))
    ensures Resends(After(EmptyOut(startId), evs).log, id) <= 59
  {
    var n := Resends(After(EmptyOut(startId), evs).log, id);
    if n > 0 {
      ApartMonotone(TickTimes(evs));
      ResendsNeedWindow(startId, evs, id, n);
      ApartWindow(TickTimes(evs), n);
    }
  }

  /** Under the ticks of the interval no message can be resent 61 times, and one can be resent 60 times if and only
      if sixty successive ticks span less than 59 periods. */
  lemma SixtyExactly(startId: nat, start: nat, ts: seq<nat>)
    requires OnGrid(start, ts)
    ensures !CanResend(startId, ts, 61)
    ensures CanResend(startId, ts, 60) <==> Window(ts, 60)
  {
    GridMonotone(start, ts);
    ResendsExactly(startId, ts, 61);
    if Window(ts, 61) {
      GridWindow(start, ts, 61);
    }
    ResendsExactly(startId, ts, 60);
  }

  /** Sixty ticks of which the first is five seconds late. */
  function LateTicks(): (ts: seq<nat>)
    ensures |ts| == 60 && forall i :: 0 <= i < 60 ==> ts[i] == (if i == 0 then 65 else 60 * (i + 1)) * SECOND
  {
    seq(60, i requires 0 <= i < 60 => (if i == 0 then 65 else 60 * (i + 1)) * SECOND)
  }

  /** One late tick makes room for a sixtieth resend. */
  lemma SixtyResends(startId: nat)
    ensures OnGrid(0, LateTicks()) && CanResend(startId, LateTicks(), 60)
  {
    var ts := LateTicks();
    forall i | 0 <= i < |ts| - 1 ensures Fires(0, ts[i], ts[i + 1]) {
      assert Slot(0, ts[i]) == i + 1 && Slot(0, ts[i + 1]) == i + 2;
    }
    assert WindowAt(ts, 60, 0);
    SixtyExactly(startId, 0, ts);
  }
}
