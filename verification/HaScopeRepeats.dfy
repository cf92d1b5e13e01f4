/** Exactly when the HA-scope actor asks the DPU twice for the same operation
    (crates/hamgrd/src/actors/ha_scope.rs). */
module HaScopeRepeats {
  import opened NpuRow
  import opened HaScope
  import opened HaScopeRuns
  import opened HaScopeLedger
  import opened HaScopeRequests

  // -------------------------------------------------------- messages and events

  /** What the event sends to the DPU. */
  function SentBy(s: Scope, ev: Event): (sent: seq<Request>)
    ensures |sent| <= 1
  {
    if Crashes(s, ev) then [] else Sent(s, ev)
  }

  ghost predicate RaisedAt(states: seq<Scope>, evs: seq<Event>, i: nat, id: string)
    requires i < |evs| < |states|
  {
    SentBy(states[i], evs[i]) != [] && id in SentBy(states[i], evs[i])[0].raisedBy
  }

  lemma RequestsGrow(cx: Codec, states: seq<Scope>, evs: seq<Event>, i: nat)
    requires Run(cx, states, evs) && i < |evs|
    ensures states[i + 1].requests == states[i].requests + SentBy(states[i], evs[i])
    ensures PendingOps(states[i + 1]) == NextPending(states[i], evs[i])
  {
    RunSound(cx, states, evs, i);
  }

  /** Successive logs: each extends the one before by what was sent, at most one message. */
  ghost predicate Grows(logs: seq<seq<Request>>, sent: seq<seq<Request>>) {
    && |logs| == |sent| + 1 && logs[0] == []
    && (forall i :: 0 <= i < |sent| ==> |sent[i]| <= 1 && logs[i + 1] == logs[i] + sent[i])
  }

  /** The message sent with event `i` stands where the messages before it end. */
  lemma {:induction false} MessageOf(logs: seq<seq<Request>>, sent: seq<seq<Request>>, i: nat, n: nat)
    requires Grows(logs, sent) && i <= n <= |sent|
    ensures |logs[i]| <= |logs[n]|
    ensures i < n && sent[i] != [] ==> |logs[i]| < |logs[n]| && logs[n][|logs[i]|] == sent[i][0]
  {
    if i < n {
      MessageOf(logs, sent, i, n - 1);
      assert logs[n - 1 + 1] == logs[n - 1] + sent[n - 1];
    }
  }

  lemma {:induction false} EventOf(logs: seq<seq<Request>>, sent: seq<seq<Request>>, n: nat, p: nat) returns (i: nat)
    requires Grows(logs, sent) && n <= |sent| && p < |logs[n]|
    ensures i < n && |logs[i]| == p && sent[i] == [logs[n][p]]
  {
    i := n - 1;
    assert logs[i + 1] == logs[i] + sent[i];
    if p < |logs[i]| {
      i := EventOf(logs, sent, i, p);
    }
  }

  ghost predicate RaisedTwice(states: seq<Scope>, evs: seq<Event>, n: nat)
    requires n <= |evs| < |states|
  {
    exists i, j, id :: 0 <= i < j < n && RaisedAt(states, evs, i, id) && RaisedAt(states, evs, j, id)
  }

  lemma RequestLogs(cx: Codec, states: seq<Scope>, evs: seq<Event>)
    returns (logs: seq<seq<Request>>, sent: seq<seq<Request>>)
    requires Run(cx, states, evs)
    ensures Grows(logs, sent) && |sent| == |evs|
    ensures forall i :: 0 <= i < |states| ==> logs[i] == states[i].requests
    ensures forall i :: 0 <= i < |evs| ==> sent[i] == SentBy(states[i], evs[i])
  {
    logs := seq(|states|, i requires 0 <= i < |states| => states[i].requests);
    sent := seq(|evs|, i requires 0 <= i < |evs| => SentBy(states[i], evs[i]));
    forall i | 0 <= i < |evs| ensures logs[i + 1] == logs[i] + sent[i] {
      RequestsGrow(cx, states, evs, i);
    }
  }

  lemma RepeatsAreRaised(cx: Codec, states: seq<Scope>, evs: seq<Event>, n: nat)
    requires Run(cx, states, evs) && n <= |evs|
    ensures Repeats(states[n].requests) <==> RaisedTwice(states, evs, n)
  {
    var rs := states[n].requests;
    var logs, sent := RequestLogs(cx, states, evs);
    if p, q, id :| 0 <= p < q < |rs| && id in rs[p].raisedBy && id in rs[q].raisedBy {
      var i := EventOf(logs, sent, n, p);
      var j := EventOf(logs, sent, n, q);
      if j <= i {
        MessageOf(logs, sent, j, i);
      }
      assert RaisedAt(states, evs, i, id) && RaisedAt(states, evs, j, id);
    }
    if i, j, id :| 0 <= i < j < n && RaisedAt(states, evs, i, id) && RaisedAt(states, evs, j, id) {
      MessageOf(logs, sent, i, n);
      MessageOf(logs, sent, j, n);
      MessageOf(logs, sent, i, j);
      assert id in rs[|logs[i]|].raisedBy && id in rs[|logs[j]|].raisedBy;
    }
  }

  // ------------------------------------------------------------------ exposures

  /** The approvals the table sent with this event is built from. */
  function ApprovedFor(s: Scope, ev: Event): seq<string> {
    if ev.ConfigMsg? && ev.update.Put? then ev.update.config.ApprovedIds() else ApprovedNow(s)
  }

  /** Whether the event makes the actor send its table. */
  predicate SendsTable(s: Scope, ev: Event) {
    if ev.ConfigMsg? then ev.update.Put? && Managed(s) && s.row.Some? else ManagedUpdate(ev) && s.config.Some?
  }

  /** A vDPU update finds an approved operation of a kind that is requested still pending. */
  predicate Exposed(s: Scope, ev: Event, id: string) {
    && ManagedUpdate(ev) && s.config.Some? && id in ApprovedNow(s)
    && id in NextPending(s, ev) && Requestable(NextPending(s, ev)[id])
  }

  /** The operation is not cleared between the two events. */
  predicate UnclearedBetween(states: seq<Scope>, evs: seq<Event>, i: nat, j: nat, id: string)
    requires i < j < |evs| < |states|
  {
    forall k :: i < k < j ==> id !in Clearing(states[k], evs[k])
  }

  ghost predicate AskedAgain(states: seq<Scope>, evs: seq<Event>, i: nat, j: nat, id: string)
    requires i < j < |evs| < |states|
  {
    && Exposed(states[i], evs[i], id) && SendsTable(states[j], evs[j]) && id in ApprovedFor(states[j], evs[j])
    && UnclearedBetween(states, evs, i, j, id)
  }

  /** The operations a table sent with this event is built from. */
  function Considered(s: Scope, ev: Event): Pending { if ev.VDpuMsg? then NextPending(s, ev) else PendingOps(s) }

  lemma RaisesExactly(s: Scope, ev: Event, id: string)
    ensures SendsTable(s, ev) <==> SentBy(s, ev) != []
    ensures (SentBy(s, ev) != [] && id in SentBy(s, ev)[0].raisedBy) <==>
            (&& SendsTable(s, ev) && id in ApprovedFor(s, ev)
             && id in Considered(s, ev) && Requestable(Considered(s, ev)[id]))
  {
    if ev.ConfigMsg? && ev.update.Put? {
      ApprovedRaised(ev.update.config, PendingOps(s), id);
    } else if ManagedUpdate(ev) && s.config.Some? {
      ApprovedRaised(s.config.value, NextPending(s, ev), id);
    }
  }

  // ------------------------------------------------------------- the exact condition

  /** Where a pending operation came from: it entered once, and has not been cleared since. */
  lemma Origin(cx: Codec, states: seq<Scope>, evs: seq<Event>, n: nat, id: string) returns (e: nat)
    requires Run(cx, states, evs) && EntersOnce(states, evs) && n <= |evs| && id in PendingOps(states[n])
    ensures e < n && StillPending(states, evs, e, n, id, PendingOps(states[n])[id])
  {
    PendingExactly(cx, states, evs, n, id, PendingOps(states[n])[id]);
    e :| 0 <= e < n && StillPending(states, evs, e, n, id, PendingOps(states[n])[id]);
  }

  /** An operation pending after event `i` and not cleared before event `j` is still pending, with its kind. */
  lemma StaysPending(cx: Codec, states: seq<Scope>, evs: seq<Event>, i: nat, j: nat, id: string)
    requires Run(cx, states, evs) && EntersOnce(states, evs) && i < j < |evs|
    requires id in PendingOps(states[i + 1]) && UnclearedBetween(states, evs, i, j, id)
    ensures id in PendingOps(states[j]) && PendingOps(states[j])[id] == PendingOps(states[i + 1])[id]
  {
    var kind := PendingOps(states[i + 1])[id];
    var e := Origin(cx, states, evs, i + 1, id);
    assert StillPending(states, evs, e, j, id, kind);
    PendingExactly(cx, states, evs, j, id, kind);
  }

  lemma EnteredOnce(states: seq<Scope>, evs: seq<Event>, i: nat, j: nat, id: string)
    requires |states| == |evs| + 1 && EntersOnce(states, evs) && i < |evs| && j < |evs|
    requires id in Entering(states[i], evs[i]) && id in Entering(states[j], evs[j])
    ensures i == j
  {
    assert id in Entering(states[i], evs[i]).Keys && id in Entering(states[j], evs[j]).Keys;
  }

  /** An operation that is raised at two events has not been cleared since before the first. */
  lemma RaisedUncleared(cx: Codec, states: seq<Scope>, evs: seq<Event>, i: nat, j: nat, id: string) returns (e: nat)
    requires Run(cx, states, evs) && EntersOnce(states, evs) && i < j < |evs|
    requires id in Considered(states[i], evs[i]) && id in Considered(states[j], evs[j])
    ensures e <= i && id in Entering(states[e], evs[e])
    ensures forall k :: e < k < j ==> id !in Clearing(states[k], evs[k])
    ensures !evs[i].VDpuMsg? ==> e < i
  {
    RequestsGrow(cx, states, evs, i);
    e := Origin(cx, states, evs, if evs[i].VDpuMsg? then i + 1 else i, id);
    LedgerMoves(states[j], evs[j]);
    if id !in PendingOps(states[j]) {
      EnteredOnce(states, evs, e, j, id);
    }
    var e' := Origin(cx, states, evs, j, id);
    EnteredOnce(states, evs, e, e', id);
  }

  /** A configuration that raises an operation clears it. */
  lemma RaisedByConfigCleared(s: Scope, ev: Event, id: string)
    requires SendsTable(s, ev) && !ev.VDpuMsg? && id in ApprovedFor(s, ev) && id in PendingOps(s)
    ensures id in Clearing(s, ev)
  {
    PendingMeansPopulated(s);
  }

  lemma RaisedMeansAsked(cx: Codec, states: seq<Scope>, evs: seq<Event>, i: nat, j: nat, id: string)
    requires Run(cx, states, evs) && EntersOnce(states, evs) && i < j < |evs|
    requires RaisedAt(states, evs, i, id) && RaisedAt(states, evs, j, id)
    ensures AskedAgain(states, evs, i, j, id)
  {
    RaisesExactly(states[i], evs[i], id);
    RaisesExactly(states[j], evs[j], id);
    var e := RaisedUncleared(cx, states, evs, i, j, id);
    if !evs[i].VDpuMsg? {
      RaisedByConfigCleared(states[i], evs[i], id);
    }
  }

  lemma AskedMeansRaised(cx: Codec, states: seq<Scope>, evs: seq<Event>, i: nat, j: nat, id: string)
    requires Run(cx, states, evs) && EntersOnce(states, evs) && i < j < |evs| && AskedAgain(states, evs, i, j, id)
    ensures RaisedAt(states, evs, i, id) && RaisedAt(states, evs, j, id)
  {
    RequestsGrow(cx, states, evs, i);
    StaysPending(cx, states, evs, i, j, id);
    RaisesExactly(states[i], evs[i], id);
    RaisesExactly(states[j], evs[j], id);
    PendingMeansPopulated(states[j]);
  }

  /** Over any run, two messages to the DPU are raised by the same operation if and only if a vDPU update finds an
      approved operation still pending, and another table with its approval is sent before it is cleared. */
  lemma RepeatsExactly(cx: Codec, states: seq<Scope>, evs: seq<Event>, n: nat)
    requires Run(cx, states, evs) && EntersOnce(states, evs) && n <= |evs|
    ensures Repeats(states[n].requests) <==> exists i, j, id :: 0 <= i < j < n && AskedAgain(states, evs, i, j, id)
  {
    RepeatsAreRaised(cx, states, evs, n);
    if i, j, id :| 0 <= i < j < n && RaisedAt(states, evs, i, id) && RaisedAt(states, evs, j, id) {
      RaisedMeansAsked(cx, states, evs, i, j, id);
    }
    if i, j, id :| 0 <= i < j < n && AskedAgain(states, evs, i, j, id) {
      AskedMeansRaised(cx, states, evs, i, j, id);
    }
  }
}
