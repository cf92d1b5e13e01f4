/** The order in which the ledger is written back matters only when it is written
    (crates/hamgrd/src/actors/ha_scope.rs). */
module HaScopeOrders {
  import opened Wrappers
  import opened Orders
  import opened NpuRow
  import opened HaScope
  import opened HaScopeRuns
  import opened HaScopeDatabase
  import Table = InternalTable

  /** The ledger that the pending update writes, if it changes. */
  function LedgerWritten(s: Scope, added: seq<(string, string)>, approved: seq<string>): Option<Pending> {
    if LedgerChanges(s, added, approved)
    then Some(Amended(PendingOf(NpuOf(s.codec, s.row.value).value).value, added, approved))
    else None
  }

  /** The ledger that a handler writes, if it does. */
  function Written(s: Scope, ev: Event): Option<Pending> {
    match ev
    case ConfigMsg(Put(c), _, _) => WrittenByConfig(s, c)
    case DpuMsg(Some(d), ids, _, _) => WrittenByDpu(s, d, ids)
    case _ => None
  }

  function WrittenByConfig(s: Scope, c: Config): Option<Pending> {
    var s1 := WithConfig(s, c);
    var request := RequestFor(s.codec, c, s1.row);
    if !Managed(s1) || !request.Okay? || c.ApprovedIds() == [] then None
    else
      var s3 := UpdateHaState(s1.(requests := s1.requests + [request.value]));
      if s3.Okay? then LedgerWritten(s3.value, [], c.ApprovedIds()) else None
  }

  function WrittenByDpu(s: Scope, d: DpuScope, ids: (string, string, string)): Option<Pending> {
    var ops := Operations(s.dpu, d, ids);
    if s.config.None? || ops == [] then None
    else
      var s1 := UpdateHaState(s.(dpuIn := Some(d), dpu := Some(d)));
      if s1.Okay? then LedgerWritten(s1.value, ops, []) else None
  }

  /** The same message handled with another order. */
  function Reordered(ev: Event, order: seq<string>): Event {
    if ev.ConfigMsg? || ev.DpuMsg? then ev.(order := order) else ev
  }

  lemma UnwrittenUpdate(s: Scope, added: seq<(string, string)>, approved: seq<string>, a: seq<string>, b: seq<string>,
                        now: int)
    requires !LedgerChanges(s, added, approved)
    ensures UpdatePending(s, added, approved, a, now) == UpdatePending(s, added, approved, b, now)
  {
  }

  /** If the ledger is not written, the step and its changes to the table do not depend on the order. */
  lemma OrderIrrelevant(s: Scope, ev: Event, order: seq<string>, at: Table.Row)
    requires Written(s, ev).None?
    ensures Step(s, Reordered(ev, order)) == Step(s, ev) && RowOps(s, Reordered(ev, order), at) == RowOps(s, ev, at)
  {
    match ev
    case ConfigMsg(Put(c), before, now) =>
      var s1 := WithConfig(s, c);
      var request := RequestFor(s.codec, c, s1.row);
      if Managed(s1) && request.Okay? {
        var s3 := UpdateHaState(s1.(requests := s1.requests + [request.value]));
        if s3.Okay? && c.ApprovedIds() != [] {
          UnwrittenUpdate(s3.value, [], c.ApprovedIds(), before, order, now);
        }
      }
    case DpuMsg(Some(d), ids, before, now) =>
      var ops := Operations(s.dpu, d, ids);
      var s0 := s.(dpuIn := Some(d), dpu := Some(d));
      assert s.(dpuIn := Some(d)).(dpu := Some(d)) == s0;
      if s.config.Some? && ops != [] && UpdateHaState(s0).Okay? {
        UnwrittenUpdate(UpdateHaState(s0).value, ops, [], before, order, now);
      }
    case _ =>
  }

  lemma LedgerWrittenIs(s: Scope, added: seq<(string, string)>, approved: seq<string>)
    requires Inv(s) && LedgerChanges(s, added, approved)
    ensures Populated(s) && LedgerWritten(s, added, approved) == Some(Amended(PendingOps(s), added, approved))
  {
    PendingReads(s.codec, s.row.value);
  }

  lemma ConfigWritesNext(s: Scope, ev: Event)
    requires Inv(s) && EventOk(s.codec, ev) && ev.ConfigMsg? && ev.update.Put? && Written(s, ev).Some?
    ensures Written(s, ev) == Some(NextPending(s, ev))
  {
    var c := ev.update.config;
    var requests := s.requests + [RequestFor(s.codec, c, s.row).value];
    ConfigStart(s, c, requests);
    var s2 := WithConfig(s, c).(requests := requests);
    HaStateStep(s2);
    LedgerWrittenIs(UpdateHaState(s2).value, [], c.ApprovedIds());
  }

  lemma DpuWritesNext(s: Scope, ev: Event)
    requires Inv(s) && EventOk(s.codec, ev) && ev.DpuMsg? && s.row.Some? && Written(s, ev).Some?
    ensures Written(s, ev) == Some(NextPending(s, ev))
  {
    var s0 := s.(dpuIn := ev.dpu, dpu := ev.dpu);
    assert Inv(s0) && PendingOps(s0) == PendingOps(s);
    HaStateStep(s0);
    LedgerWrittenIs(UpdateHaState(s0).value, Operations(s.dpu, ev.dpu.value, ev.ids), []);
  }

  /** What the invariant and the messages must meet, apart from the order. */
  ghost predicate Acceptable(s: Scope, ev: Event) {
    EventOk(s.codec, ev) && Expected(s, ev) && (Loads(s, ev) ==> RowOk(s.codec, ev.dbRow))
  }

  /** A ledger that is written is written in an order that lists it. */
  ghost predicate WritesInOrder(s: Scope, ev: Event) {
    (ev.ConfigMsg? || ev.DpuMsg?) && Written(s, ev).Some? ==> Enumerates(ev.order, Written(s, ev).value.Keys)
  }

  /** A step that writes the ledger, if at all, in an order that lists it is one of the steps that runs are made of. */
  lemma HandledAsPossible(s: Scope, ev: Event, at: Table.Row) returns (order: seq<string>)
    requires Inv(s) && Acceptable(s, ev) && WritesInOrder(s, ev)
    ensures Possible(s, Reordered(ev, order))
    ensures Step(s, Reordered(ev, order)) == Step(s, ev) && RowOps(s, Reordered(ev, order), at) == RowOps(s, ev, at)
  {
    if Written(s, ev).Some? {
      order := ev.order;
      if ev.ConfigMsg? {
        ConfigWritesNext(s, ev);
      } else {
        DpuWritesNext(s, ev);
      }
    } else {
      order := SomeOrder(NextPending(s, ev).Keys);
      OrderIrrelevant(s, ev, order, at);
      assert NextPending(s, Reordered(ev, order)) == NextPending(s, ev);
    }
  }
}
