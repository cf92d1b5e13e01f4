/** What every run of the HA-scope actor keeps: a well-formed row, a conserved ledger of pending operations,
    and at most one request for each approved operation (crates/hamgrd/src/actors/ha_scope.rs). */
module HaScopeRuns {
  import opened Wrappers
  import opened FieldCodec
  import opened Orders
  import opened DbStructs
  import opened NpuRow
  import opened HaScope

  // ------------------------------------------------ inputs the codec preserves

  predicate InI64(i: int) { -0x8000_0000_0000_0000 <= i <= 0x7FFF_FFFF_FFFF_FFFF }

  predicate SessionsOk(xs: seq<string>) { (forall x :: x in xs ==> ',' !in x) && !(|xs| == 1 && xs[0] == "") }

  predicate VDpuOk(v: VDpu) {
    && (v.pmon.Some? ==>
          InI64(v.pmon.value.midplaneTime) && InI64(v.pmon.value.controlTime) && InI64(v.pmon.value.dataTime))
    && (v.bfd.Some? ==> SessionsOk(v.bfd.value.v4) && SessionsOk(v.bfd.value.v6)
                        && InI64(v.bfd.value.v4Time) && InI64(v.bfd.value.v6Time))
  }

  predicate HaSetOk(h: HaSet) { h.vipV6 != Some("none") }

  predicate DpuOk(d: DpuScope) { d.haRole != "none" && d.haTerm != "none" && InI64(d.haRoleStartTime) }

  predicate ConfigOk(c: Config) { c.desiredHaState != "none" }

  /** The row is read, with well-formed pending lists; or it is not written yet. */
  ghost predicate RowOk(cx: Codec, row: Row) {
    row == map[] || (cx.decode(row).Some? && Total(cx.decode(row).value) && PendingListsOk(cx.decode(row).value))
  }

  ghost predicate EventOk(cx: Codec, ev: Event) {
    && InI64(ev.now)
    && match ev
       case ConfigMsg(u, _, _) => u.Put? ==> ConfigOk(u.config)
       case VDpuMsg(v, _, _) => v.Some? ==> VDpuOk(v.value)
       case HaSetMsg(h, _) => h.Some? ==> HaSetOk(h.value)
       case DpuMsg(d, ids, _, _) =>
         && (d.Some? ==> DpuOk(d.value))
         && Plain(ids.0) && Plain(ids.1) && Plain(ids.2)
         && ids.0 != ids.1 && ids.0 != ids.2 && ids.1 != ids.2
  }

  /** The codec preserves every group of fields the actor writes. */
  ghost predicate AcceptsGroups(cx: Codec) {
    && (forall v, h, now :: VDpuOk(v) && HaSetOk(h) && InI64(now) ==>
          AllGood(cx, BaseFields(PmonOr(v, now), BfdOr(v, now), h)))
    && (forall c, d :: ConfigOk(c) && DpuOk(d) ==> AllGood(cx, HaFields(c, d)))
    && (forall ids, types, now :: PlainLists(ids, types) && InI64(now) ==> AllGood(cx, PendingFields(ids, types, now)))
  }

  ghost predicate PlainLists(ids: seq<string>, types: seq<string>) {
    && |ids| == |types| && (forall i, j :: 0 <= i < j < |ids| ==> ids[i] != ids[j])
    && (forall x :: x in ids ==> Plain(x)) && (forall x :: x in types ==> Plain(x))
  }

  // ---------------------------------------------------------------- invariant

  ghost predicate Inv(s: Scope) {
    && Lawful(s.codec) && AcceptsGroups(s.codec)
    && (s.row.Some? ==> RowOk(s.codec, s.row.value) && s.config.Some?)
    && (s.vdpuIn.Some? ==> VDpuOk(s.vdpuIn.value))
    && (Managed(s) && s.config.Some? ==> s.row.Some?)
    && (s.hasetIn.Some? ==> HaSetOk(s.hasetIn.value))
    && (s.dpuIn.Some? ==> DpuOk(s.dpuIn.value))
    && (s.config.Some? ==> ConfigOk(s.config.value))
  }

  /** DPU scope state comes only once the bridge for it exists, which is when the row entry has been added. */
  predicate Expected(s: Scope, ev: Event) { !s.stopped && (ev.DpuMsg? ==> s.row.Some?) }

  /** The pending operations after this event. */
  function NextPending(s: Scope, ev: Event): Pending {
    match ev
    case ConfigMsg(Put(c), _, _) =>
      if Managed(s) && Populated(s) then Amended(PendingOps(s), [], c.ApprovedIds()) else PendingOps(s)
    case DpuMsg(Some(d), ids, _, _) =>
      if Populated(s) then Amended(PendingOps(s), Operations(s.dpu, d, ids), []) else PendingOps(s)
    case VDpuMsg(_, dbRow, _) => if Loads(s, ev) then PendingOps(s.(row := Some(dbRow))) else PendingOps(s)
    case _ => PendingOps(s)
  }

  /** The order in which the pending map is walked lists each operation once. */
  ghost predicate WalksPending(s: Scope, ev: Event) {
    (ev.ConfigMsg? || ev.DpuMsg?) ==> Enumerates(ev.order, NextPending(s, ev).Keys)
  }

  /** The message makes the actor add the entry of its row and read the row from the database. */
  predicate Loads(s: Scope, ev: Event) {
    ev.VDpuMsg? && s.row.None? && s.config.Some? && ev.vdpu.Some? && ev.vdpu.value.managed
  }

  ghost predicate Possible(s: Scope, ev: Event) {
    && EventOk(s.codec, ev) && Expected(s, ev) && WalksPending(s, ev)
    && (Loads(s, ev) ==> RowOk(s.codec, ev.dbRow))
  }

  // ---------------------------------------------------------------- row steps

  function Rewritten(cx: Codec, row: Row, u: Npu): Row { cx.encode(FieldsOf(cx, row) + u) }

  /** The new row is read as the old fields with the group replaced: nothing else changes. */
  lemma RowRewritten(cx: Codec, row: Row, u: Npu)
    requires Lawful(cx) && RowOk(cx, row) && AllGood(cx, u)
    ensures Total(FieldsOf(cx, row)) && PendingListsOk(FieldsOf(cx, row))
    ensures var row' := Rewritten(cx, row, u);
            && row' != map[] && NpuOf(cx, row') == Some(FieldsOf(cx, row) + u)
            && FieldsOf(cx, row') == FieldsOf(cx, row) + u
    ensures PendingListsOk(FieldsOf(cx, row) + u) ==> RowOk(cx, Rewritten(cx, row, u))
  {
    var v := FieldsOf(cx, row);
    assert Total(v + u);
    assert AllGood(cx, v + u);
  }

  lemma PendingReads(cx: Codec, row: Row)
    requires Lawful(cx) && RowOk(cx, row)
    ensures PendingFromRow(cx, row) == PendingOf(FieldsOf(cx, row)) && PendingFromRow(cx, row).Some?
  {
  }

  /** A group that does not hold the pending lists leaves them alone. */
  lemma OtherGroup(v: Npu, u: Npu)
    requires Total(v) && PendingListsOk(v) && PendingIds !in u && PendingTypes !in u
    ensures Total(v + u) && PendingListsOk(v + u) && PendingOf(v + u) == PendingOf(v)
  {
  }

  lemma OtherGroupRow(cx: Codec, row: Row, u: Npu)
    requires Lawful(cx) && RowOk(cx, row) && AllGood(cx, u) && PendingIds !in u && PendingTypes !in u
    ensures var row' := Rewritten(cx, row, u);
            && row' != map[] && RowOk(cx, row') && FieldsOf(cx, row') == FieldsOf(cx, row) + u
            && PendingFromRow(cx, row') == PendingFromRow(cx, row)
  {
    RowRewritten(cx, row, u);
    OtherGroup(FieldsOf(cx, row), u);
    PendingReads(cx, row);
    PendingReads(cx, Rewritten(cx, row, u));
  }

  /** The row is as before, or some group of fields was replaced and the rest left alone. */
  ghost predicate OnlyGroup(s: Scope, s': Scope, u: Npu) {
    && s' == s.(row := s'.row)
    && (s'.row == s.row ||
        (s.row.Some? && s'.row.Some? && Populated(s')
         && FieldsOf(s.codec, s'.row.value) == FieldsOf(s.codec, s.row.value) + u))
  }

  /** Writing a good row keeps the invariant. */
  lemma NewRow(s: Scope, row': Row, u: Npu)
    requires Inv(s) && s.row.Some? && row' != map[] && RowOk(s.codec, row')
    requires FieldsOf(s.codec, row') == FieldsOf(s.codec, s.row.value) + u
    ensures var s' := s.(row := Some(row'));
            Inv(s') && Populated(s') && OnlyGroup(s, s', u) && PendingFromRow(s.codec, row') == Some(PendingOps(s'))
  {
    PendingReads(s.codec, row');
  }

  function BaseGroup(s: Scope, now: int): Npu {
    if s.vdpuIn.Some? && s.hasetIn.Some?
    then BaseFields(PmonOr(s.vdpuIn.value, now), BfdOr(s.vdpuIn.value, now), s.hasetIn.value)
    else map[]
  }

  /** The base update touches the base group only, so the ledger and the HA-state group stay as they were. */
  lemma BaseStep(s: Scope, now: int)
    requires Inv(s) && InI64(now)
    ensures UpdateBase(s, now).Okay? && Inv(UpdateBase(s, now).value)
    ensures OnlyGroup(s, UpdateBase(s, now).value, BaseGroup(s, now))
    ensures PendingOps(UpdateBase(s, now).value) == PendingOps(s)
    ensures s.config.Some? && Managed(s) && s.hasetIn.Some? ==> Populated(UpdateBase(s, now).value)
  {
    if s.config.Some? && Managed(s) && s.hasetIn.Some? {
      var row' := Rewritten(s.codec, s.row.value, BaseGroup(s, now));
      OtherGroupRow(s.codec, s.row.value, BaseGroup(s, now));
      NewRow(s, row', BaseGroup(s, now));
      PendingReads(s.codec, s.row.value);
      assert UpdateBase(s, now) == Okay(s.(row := Some(row')));
    }
  }

  function HaGroup(s: Scope): Npu {
    if s.config.Some? && s.dpuIn.Some? then HaFields(s.config.value, s.dpuIn.value) else map[]
  }

  /** The HA-state update touches its group only. */
  lemma HaStateStep(s: Scope)
    requires Inv(s) && (s.config.Some? ==> s.row.Some?)
    ensures UpdateHaState(s).Okay? && Inv(UpdateHaState(s).value)
    ensures OnlyGroup(s, UpdateHaState(s).value, HaGroup(s))
    ensures PendingOps(UpdateHaState(s).value) == PendingOps(s)
    ensures Populated(UpdateHaState(s).value) <==> Populated(s)
  {
    if s.config.Some? && NpuOf(s.codec, s.row.value).Some? && s.dpuIn.Some? {
      var row' := Rewritten(s.codec, s.row.value, HaGroup(s));
      OtherGroupRow(s.codec, s.row.value, HaGroup(s));
      NewRow(s, row', HaGroup(s));
      PendingReads(s.codec, s.row.value);
      assert UpdateHaState(s) == Okay(s.(row := Some(row')));
    }
  }

  predicate AllPlain(p: Pending) { forall id :: id in p ==> Plain(id) && Plain(p[id]) }

  lemma PendingPlain(v: Npu)
    requires Total(v) && PendingListsOk(v)
    ensures PendingOf(v).Some? && AllPlain(PendingOf(v).value)
  {
    var ids, types := StringsOf(v[PendingIds]), StringsOf(v[PendingTypes]);
    ZipAt(ids, types);
    forall id | id in Zip(ids, types) ensures Plain(id) && Plain(Zip(ids, types)[id]) {
      var i :| 0 <= i < |ids| && ids[i] == id;
      assert types[i] in types;
    }
  }

  lemma NewLists(v: Npu, ids: seq<string>, types: seq<string>, now: int)
    requires Total(v) && PlainLists(ids, types)
    ensures var w := v + PendingFields(ids, types, now);
            Total(w) && PendingListsOk(w) && PendingOf(w) == Some(Zip(ids, types))
  {
    StringsBack(ids);
    StringsBack(types);
  }

  lemma ZipOfOrder(p: Pending, order: seq<string>)
    requires Enumerates(order, p.Keys)
    ensures Zip(order, TypesOf(p, order)) == p
  {
    ZipAt(order, TypesOf(p, order));
    forall id | id in p ensures Zip(order, TypesOf(p, order))[id] == p[id] {
      var i :| 0 <= i < |order| && order[i] == id;
    }
  }

  lemma OrderLists(p: Pending, order: seq<string>)
    requires AllPlain(p) && Enumerates(order, p.Keys)
    ensures PlainLists(order, TypesOf(p, order)) && Zip(order, TypesOf(p, order)) == p
  {
    var types := TypesOf(p, order);
    forall t | t in types ensures Plain(t) {
      var i :| 0 <= i < |types| && types[i] == t;
      assert order[i] in order;
    }
    ZipOfOrder(p, order);
  }

  lemma PendingRow(cx: Codec, row: Row, p: Pending, order: seq<string>, now: int)
    requires Lawful(cx) && AcceptsGroups(cx) && RowOk(cx, row) && AllPlain(p) && Enumerates(order, p.Keys) && InI64(now)
    ensures var u := PendingFields(order, TypesOf(p, order), now);
            var row' := Rewritten(cx, row, u);
            && row' != map[] && RowOk(cx, row') && FieldsOf(cx, row') == FieldsOf(cx, row) + u
            && PendingFromRow(cx, row') == Some(p)
  {
    var types := TypesOf(p, order);
    var u := PendingFields(order, types, now);
    OrderLists(p, order);
    RowRewritten(cx, row, u);
    NewLists(FieldsOf(cx, row), order, types, now);
    PendingReads(cx, Rewritten(cx, row, u));
  }

  function LedgerAfter(s: Scope, added: seq<(string, string)>, approved: seq<string>): Pending {
    if Populated(s) then Amended(PendingOps(s), added, approved) else PendingOps(s)
  }

  lemma PendingWritten(s: Scope, added: seq<(string, string)>, approved: seq<string>, order: seq<string>, now: int,
                       v: Npu, p: Pending)
    requires s.config.Some? && s.row.Some? && NpuOf(s.codec, s.row.value) == Some(v) && PendingOf(v) == Some(p)
    ensures var p' := Amended(p, added, approved);
            UpdatePending(s, added, approved, order, now) ==
            Okay(if p' == p then s
                 else s.(row := Some(Rewritten(s.codec, s.row.value, PendingFields(order, TypesOf(p', order), now)))))
  {
  }

  /** The pending update replaces the ledger by the amended one and touches nothing else. */
  lemma PendingStep(s: Scope, added: seq<(string, string)>, approved: seq<string>, order: seq<string>, now: int)
    requires Inv(s) && s.row.Some? && InI64(now)
    requires forall op :: op in added ==> Plain(op.0) && Plain(op.1)
    requires Populated(s) ==> Enumerates(order, LedgerAfter(s, added, approved).Keys)
    ensures UpdatePending(s, added, approved, order, now).Okay?
            && Inv(UpdatePending(s, added, approved, order, now).value)
    ensures PendingOps(UpdatePending(s, added, approved, order, now).value) == LedgerAfter(s, added, approved)
    ensures OnlyGroup(s, UpdatePending(s, added, approved, order, now).value,
                      PendingFields(order, TypesOf(LedgerAfter(s, added, approved), order), now))
  {
    if Populated(s) {
      var v := FieldsOf(s.codec, s.row.value);
      PendingReads(s.codec, s.row.value);
      PendingPlain(v);
      PendingWritten(s, added, approved, order, now, v, PendingOps(s));
      AmendedPlain(PendingOps(s), added, approved);
      var p := LedgerAfter(s, added, approved);
      PendingRow(s.codec, s.row.value, p, order, now);
      var u := PendingFields(order, TypesOf(p, order), now);
      NewRow(s, Rewritten(s.codec, s.row.value, u), u);
    }
  }

  lemma AmendedPlain(p: Pending, added: seq<(string, string)>, approved: seq<string>)
    requires AllPlain(p) && forall op :: op in added ==> Plain(op.0) && Plain(op.1)
    ensures AllPlain(Amended(p, added, approved))
  {
    AddAllPlain(p - (set id | id in approved), added);
  }

  lemma {:induction false} AddAllPlain(p: Pending, added: seq<(string, string)>)
    requires AllPlain(p) && forall op :: op in added ==> Plain(op.0) && Plain(op.1)
    ensures AllPlain(AddAll(p, added))
    decreases |added|
  {
    if added != [] {
      assert added[0] in added;
      AddAllPlain(p[added[0].0 := added[0].1], added[1..]);
    }
  }

  // -------------------------------------------------------------- whole steps

  /** The operations an event clears from the ledger: those a configuration approves, when the vDPU is managed
      and the row populated. */
  function Clearing(s: Scope, ev: Event): set<string> {
    if ev.ConfigMsg? && ev.update.Put? && Managed(s) && Populated(s)
    then set id | id in ev.update.config.ApprovedIds()
    else {}
  }

  /** The operations an event enters: one for each rising edge once the row is populated, and those
      found in the database when the row is first read. */
  function Entering(s: Scope, ev: Event): Pending {
    match ev
    case DpuMsg(Some(d), ids, _, _) => if Populated(s) then AddAll(map[], Operations(s.dpu, d, ids)) else map[]
    case VDpuMsg(_, dbRow, _) => if Loads(s, ev) then PendingOps(s.(row := Some(dbRow))) else map[]
    case _ => map[]
  }

  /** The table sent to the DPU: its flags are raised by approved operations still pending. */
  function TableFor(c: Config, p: Pending): Request {
    var a, f := Raisers(c.ApprovedIds(), p, "activate_role"), Raisers(c.ApprovedIds(), p, "flow_reconcile");
    Request(c.version, c.disable, c.desiredHaState, f != {}, a != {}, a + f)
  }

  /** What an event sends to the DPU. */
  function Sent(s: Scope, ev: Event): seq<Request> {
    match ev
    case ConfigMsg(Put(c), _, _) => if Managed(s) then [TableFor(c, PendingOps(s))] else []
    case VDpuMsg(Some(v), _, _) =>
      if v.managed && s.config.Some? then [TableFor(s.config.value, NextPending(s, ev))] else []
    case _ => []
  }

  /** The fields other than the row after an event. */
  ghost predicate FieldsAfter(s: Scope, ev: Event, s': Scope) {
    && s'.codec == s.codec
    && s'.config == (if ev.ConfigMsg? && ev.update.Put? then Some(ev.update.config) else s.config)
    && s'.dpu == (if ev.DpuMsg? && ev.dpu.Some? then ev.dpu else s.dpu)
    && s'.vdpuIn == (if ev.VDpuMsg? then ev.vdpu else s.vdpuIn)
    && s'.hasetIn == (if ev.HaSetMsg? then ev.haset else s.hasetIn)
    && s'.dpuIn == (if ev.DpuMsg? then ev.dpu else s.dpuIn)
    && s'.requests == s.requests + Sent(s, ev)
    && (Populated(s) ==> Populated(s'))
    && (s.row.Some? ==> s'.row.Some?)
  }

  ghost predicate Moved(s: Scope, ev: Event, s': Scope) {
    Inv(s') && PendingOps(s') == NextPending(s, ev) && FieldsAfter(s, ev, s')
  }

  ghost predicate StepDone(s: Scope, ev: Event) { Step(s, ev).Okay? && Moved(s, ev, Step(s, ev).value) }

  /** In a state that meets the invariant the table for the DPU can always be built. */
  lemma RequestBuilt(s: Scope, c: Config)
    requires Inv(s) && s.row.Some?
    ensures RequestFor(s.codec, c, s.row) == Okay(TableFor(c, PendingOps(s)))
  {
    PendingReads(s.codec, s.row.value);
    if c.ApprovedIds() == [] {
      var p := PendingOps(s);
      var none: set<string> := {};
      assert none + none == none;
      assert Raisers(c.ApprovedIds(), p, "activate_role") == {} && Raisers(c.ApprovedIds(), p, "flow_reconcile") == {};
    }
  }

  function WithConfig(s: Scope, c: Config): Scope {
    s.(config := Some(c),
       registrations := s.registrations + if s.config.None? then [ToVDpu(true), ToHaSet(true)] else [])
  }

  lemma NothingApproved(p: Pending)
    ensures Amended(p, [], []) == p
  {
  }

  lemma ConfigStepIs(s: Scope, ev: Event, request: Request, s3: Scope)
    requires ev.ConfigMsg? && ev.update.Put? && Managed(s)
    requires var s1 := WithConfig(s, ev.update.config);
             && RequestFor(s.codec, ev.update.config, s1.row) == Okay(request)
             && UpdateHaState(s1.(requests := s1.requests + [request])) == Okay(s3)
    ensures var ids := ev.update.config.ApprovedIds();
            Step(s, ev) == if ids == [] then Okay(s3)
                           else match UpdatePending(s3, [], ids, ev.order, ev.now) case Fails => Okay(s3) case r => r
  {
  }

  lemma ConfigMoved(s: Scope, ev: Event, s3: Scope)
    requires Inv(s) && ev.ConfigMsg? && ev.update.Put?
    requires s3 == WithConfig(s, ev.update.config).(requests := s.requests + Sent(s, ev), row := s3.row)
    requires Inv(s3) && PendingOps(s3) == NextPending(s, ev)
    requires (s.row.Some? ==> s3.row.Some?) && (Populated(s) ==> Populated(s3))
    ensures Moved(s, ev, s3)
  {
  }

  lemma ConfigStart(s: Scope, c: Config, requests: seq<Request>)
    requires Inv(s) && ConfigOk(c) && (Managed(s) ==> s.row.Some?)
    ensures var s' := WithConfig(s, c).(requests := requests);
            Inv(s') && PendingOps(s') == PendingOps(s) && (Populated(s') <==> Populated(s))
  {
  }

  lemma ManagedConfigDone(s: Scope, ev: Event)
    requires Inv(s) && Possible(s, ev) && ev.ConfigMsg? && ev.update.Put? && Managed(s) && s.row.Some?
    ensures StepDone(s, ev)
  {
    var c := ev.update.config;
    var request := TableFor(c, PendingOps(s));
    ConfigStart(s, c, s.requests);
    ConfigStart(s, c, s.requests + [request]);
    RequestBuilt(WithConfig(s, c), c);
    var s2 := WithConfig(s, c).(requests := s.requests + [request]);
    HaStateStep(s2);
    var s3 := UpdateHaState(s2).value;
    ConfigStepIs(s, ev, request, s3);
    if c.ApprovedIds() == [] {
      NothingApproved(PendingOps(s));
      ConfigMoved(s, ev, s3);
    } else {
      assert LedgerAfter(s3, [], c.ApprovedIds()) == NextPending(s, ev);
      PendingStep(s3, [], c.ApprovedIds(), ev.order, ev.now);
      ConfigMoved(s, ev, UpdatePending(s3, [], c.ApprovedIds(), ev.order, ev.now).value);
    }
  }

  lemma ConfigStepDone(s: Scope, ev: Event)
    requires Inv(s) && Possible(s, ev) && ev.ConfigMsg? && ev.update.Put? && !Crashes(s, ev)
    ensures StepDone(s, ev)
  {
    if Managed(s) {
      ManagedConfigDone(s, ev);
    } else {
      ConfigStart(s, ev.update.config, s.requests);
      ConfigMoved(s, ev, WithConfig(s, ev.update.config));
    }
  }

  lemma VDpuStepIs(s: Scope, ev: Event, s1: Scope)
    requires ev.VDpuMsg? && s.config.Some? && ev.vdpu.Some? && ev.vdpu.value.managed
    requires s1 == s.(vdpuIn := ev.vdpu, row := if s.row.None? then Some(ev.dbRow) else s.row)
    requires RequestFor(s.codec, s.config.value, s1.row).Okay?
    ensures Step(s, ev) ==
            UpdateBase(s1.(requests := s.requests + [RequestFor(s.codec, s.config.value, s1.row).value]), ev.now)
  {
  }

  lemma VDpuStart(s: Scope, ev: Event, s1: Scope)
    requires Inv(s) && Possible(s, ev) && s.config.Some? && ev.VDpuMsg? && ev.vdpu.Some? && ev.vdpu.value.managed
    requires s1 == s.(vdpuIn := ev.vdpu, row := if s.row.None? then Some(ev.dbRow) else s.row,
                      requests := s.requests + Sent(s, ev))
    ensures Inv(s1) && PendingOps(s1) == NextPending(s, ev)
  {
  }

  lemma VDpuMoved(s: Scope, ev: Event, s1: Scope, s2: Scope)
    requires s.config.Some? && ev.VDpuMsg? && ev.vdpu.Some? && ev.vdpu.value.managed
    requires s1 == s.(vdpuIn := ev.vdpu, row := if s.row.None? then Some(ev.dbRow) else s.row,
                      requests := s.requests + Sent(s, ev))
    requires s2 == s1.(row := s2.row) && s2.row.Some? && (Populated(s1) ==> Populated(s2))
    requires Inv(s2) && PendingOps(s2) == NextPending(s, ev)
    ensures Moved(s, ev, s2)
  {
  }

  lemma VDpuStepDone(s: Scope, ev: Event)
    requires Inv(s) && Possible(s, ev) && s.config.Some? && ev.VDpuMsg? && ev.vdpu.Some? && ev.vdpu.value.managed
    ensures StepDone(s, ev)
  {
    var s1 := s.(vdpuIn := ev.vdpu, row := if s.row.None? then Some(ev.dbRow) else s.row,
                 requests := s.requests + Sent(s, ev));
    VDpuStart(s, ev, s1);
    RequestBuilt(s1, s.config.value);
    VDpuStepIs(s, ev, s1.(requests := s.requests));
    BaseStep(s1, ev.now);
    VDpuMoved(s, ev, s1, UpdateBase(s1, ev.now).value);
  }

  lemma HaSetStepDone(s: Scope, h: Option<HaSet>, now: int)
    requires var ev := HaSetMsg(h, now); Inv(s) && Possible(s, ev)
    ensures StepDone(s, HaSetMsg(h, now))
  {
    BaseStep(s.(hasetIn := h), now);
  }

  lemma OperationsPlain(prev: Option<DpuScope>, d: DpuScope, ids: (string, string, string))
    requires Plain(ids.0) && Plain(ids.1) && Plain(ids.2)
    ensures forall op :: op in Operations(prev, d, ids) ==> Plain(op.0) && Plain(op.1)
  {
    assert "activate_role"[0] == 'a' && "brainsplit_recover"[0] == 'b' && "flow_reconcile"[0] == 'f';
  }

  lemma DpuStepIs(s: Scope, ev: Event, s1: Scope)
    requires ev.DpuMsg? && ev.dpu.Some? && s.config.Some?
             && UpdateHaState(s.(dpuIn := ev.dpu, dpu := ev.dpu)) == Okay(s1)
    ensures var ops := Operations(s.dpu, ev.dpu.value, ev.ids);
            Step(s, ev) == if ops == [] then Okay(s1) else UpdatePending(s1, ops, [], ev.order, ev.now)
  {
    assert s.(dpuIn := ev.dpu).(dpu := ev.dpu) == s.(dpuIn := ev.dpu, dpu := ev.dpu);
  }

  lemma DpuMoved(s: Scope, ev: Event, s1: Scope, s2: Scope)
    requires Inv(s) && Possible(s, ev) && ev.DpuMsg? && ev.dpu.Some?
    requires s1 == s.(dpuIn := ev.dpu, dpu := ev.dpu, row := s1.row) && s1.row.Some? && (Populated(s) ==> Populated(s1))
    requires s2 == s1.(row := s2.row) && s2.row.Some? && (Populated(s1) ==> Populated(s2))
    requires Inv(s2) && PendingOps(s2) == NextPending(s, ev)
    ensures Moved(s, ev, s2)
  {
  }

  lemma DpuStepDone(s: Scope, ev: Event)
    requires Inv(s) && Possible(s, ev) && ev.DpuMsg? && ev.dpu.Some?
    ensures StepDone(s, ev)
  {
    var s0 := s.(dpuIn := ev.dpu, dpu := ev.dpu);
    assert Inv(s0) && PendingOps(s0) == PendingOps(s);
    HaStateStep(s0);
    var s1 := UpdateHaState(s0).value;
    DpuStepIs(s, ev, s1);
    var ops := Operations(s.dpu, ev.dpu.value, ev.ids);
    assert LedgerAfter(s1, ops, []) == NextPending(s, ev);
    if ops == [] {
      NothingApproved(PendingOps(s));
      DpuMoved(s, ev, s1, s1);
    } else {
      OperationsPlain(s.dpu, ev.dpu.value, ev.ids);
      PendingStep(s1, ops, [], ev.order, ev.now);
      DpuMoved(s, ev, s1, UpdatePending(s1, ops, [], ev.order, ev.now).value);
    }
  }

  /** Events that leave the row alone and send nothing to the DPU. */
  predicate Quiet(s: Scope, ev: Event) {
    match ev
    case ConfigMsg(u, _, _) => !u.Put?
    case VDpuMsg(v, _, _) => s.config.None? || v.None? || !v.value.managed
    case HaSetMsg(_, _) => false
    case DpuMsg(d, _, _, _) => d.None?
  }

  function Heard(s: Scope, ev: Event): Scope {
    s.(vdpuIn := if ev.VDpuMsg? then ev.vdpu else s.vdpuIn, dpuIn := if ev.DpuMsg? then ev.dpu else s.dpuIn)
  }

  lemma QuietStepIs(s: Scope, ev: Event)
    requires Quiet(s, ev)
    ensures Step(s, ev).Okay?
    ensures var s' := Step(s, ev).value;
            s' == Heard(s, ev).(registrations := s'.registrations, stopped := s'.stopped)
  {
  }

  lemma QuietMoved(s: Scope, ev: Event, s': Scope)
    requires Inv(s) && Possible(s, ev) && Quiet(s, ev)
    requires s' == Heard(s, ev).(registrations := s'.registrations, stopped := s'.stopped)
    ensures Moved(s, ev, s')
  {
    assert s'.row == s.row && s'.codec == s.codec;
    assert PendingOps(s') == PendingOps(s) == NextPending(s, ev);
    assert Sent(s, ev) == [];
  }

  lemma QuietStepDone(s: Scope, ev: Event)
    requires Inv(s) && Possible(s, ev) && Quiet(s, ev)
    ensures StepDone(s, ev)
  {
    QuietStepIs(s, ev);
    QuietMoved(s, ev, Step(s, ev).value);
  }

  /** A first configuration that finds a managed vDPU state already received reads a row that is not there. */
  predicate Crashes(s: Scope, ev: Event) { ev.ConfigMsg? && ev.update.Put? && Managed(s) && s.row.None? }

  /** When a handler panics, in any state: some row is wanted and there is none. */
  lemma PanicsExactly(s: Scope, ev: Event)
    ensures Step(s, ev).Panics? <==>
            && s.row.None?
            && match ev
               case ConfigMsg(u, _, _) => u.Put? && Managed(s)
               case VDpuMsg(_, _, _) => false
               case HaSetMsg(h, _) => s.config.Some? && Managed(s) && h.Some?
               case DpuMsg(d, _, _, _) => s.config.Some? && d.Some?
  {
  }

  /** When a handler fails, in any state: it needs the pending operations and the row does not give them. */
  lemma FailsExactly(s: Scope, ev: Event)
    ensures Step(s, ev).Fails? <==>
            match ev
            case VDpuMsg(v, dbRow, _) =>
              && s.config.Some? && v.Some? && v.value.managed && s.config.value.ApprovedIds() != []
              && PendingFromRow(s.codec, if s.row.Some? then s.row.value else dbRow).None?
            case DpuMsg(d, ids, _, _) =>
              && s.config.Some? && d.Some? && s.row.Some? && Operations(s.dpu, d.value, ids) != []
              && var row := UpdateHaState(s.(dpuIn := d, dpu := d)).value.row.value;
              row != map[] && PendingFromRow(s.codec, row).None? && NpuOf(s.codec, row).Some?
            case _ => false
  {
  }

  /** With a lawful codec and messages it preserves, a DPU message fails exactly when it brings a rising edge and the
      row as it stands can be read but lists identifiers and types of different lengths. */
  lemma DpuFailsExactly(s: Scope, ev: Event)
    requires Lawful(s.codec) && AcceptsGroups(s.codec) && EventOk(s.codec, ev) && ev.DpuMsg?
    requires s.config.Some? ==> ConfigOk(s.config.value)
    ensures Step(s, ev).Fails? <==>
            && s.config.Some? && ev.dpu.Some? && s.row.Some? && Operations(s.dpu, ev.dpu.value, ev.ids) != []
            && NpuOf(s.codec, s.row.value).Some? && PendingOf(NpuOf(s.codec, s.row.value).value).None?
  {
    FailsExactly(s, ev);
    if s.config.Some? && ev.dpu.Some? && s.row.Some? && NpuOf(s.codec, s.row.value).Some? {
      HaStateKeepsLists(s.codec, NpuOf(s.codec, s.row.value).value, HaFields(s.config.value, ev.dpu.value));
    }
  }

  lemma HaStateKeepsLists(cx: Codec, v: Npu, u: Npu)
    requires Lawful(cx) && Total(v) && AllGood(cx, v) && AllGood(cx, u) && PendingIds !in u && PendingTypes !in u
    ensures var row := cx.encode(v + u);
            row != map[] && NpuOf(cx, row) == Some(v + u) && PendingFromRow(cx, row) == PendingOf(v)
  {
    assert Total(v + u) && AllGood(cx, v + u);
  }

  /** The crash happens: to a new actor, whatever vDPU state and configuration it gets in this order. */
  lemma EarlyVDpuCrashes(cx: Codec, v: VDpu, dbRow: Row, c: Config, order: seq<string>, now: int)
    requires v.managed
    ensures var update := VDpuMsg(Some(v), dbRow, now);
            && Step(NewScope(cx), update).Okay?
            && Step(Step(NewScope(cx), update).value, ConfigMsg(Put(c), order, now)).Panics?
  {
  }

  /** Except for that crash no handler fails or panics, the invariant is kept, the ledger moves as specified, and one
      table is sent to the DPU exactly when the source sends one. */
  lemma StepKeepsInv(s: Scope, ev: Event)
    requires Inv(s) && Possible(s, ev)
    ensures Step(s, ev).Panics? <==> Crashes(s, ev)
    ensures !Crashes(s, ev) ==> StepDone(s, ev)
  {
    PanicsExactly(s, ev);
    if !Crashes(s, ev) {
      StepIsDone(s, ev);
    }
  }

  lemma StepIsDone(s: Scope, ev: Event)
    requires Inv(s) && Possible(s, ev) && !Crashes(s, ev)
    ensures StepDone(s, ev)
  {
    match ev
    case ConfigMsg(Put(_), _, _) => ConfigStepDone(s, ev);
    case VDpuMsg(Some(v), _, _) =>
      if v.managed && s.config.Some? {
        VDpuStepDone(s, ev);
      } else {
        QuietStepDone(s, ev);
      }
    case HaSetMsg(h, now) => HaSetStepDone(s, h, now);
    case DpuMsg(Some(_), _, _, _) => DpuStepDone(s, ev);
    case _ => QuietStepDone(s, ev);
  }

  /** The ledger loses what the event clears and gains what it enters. */
  lemma LedgerMoves(s: Scope, ev: Event)
    ensures NextPending(s, ev) == (PendingOps(s) - Clearing(s, ev)) + Entering(s, ev)
  {
    if ev.DpuMsg? && ev.dpu.Some? && Populated(s) {
      AddAllIsUnion(PendingOps(s) - (set id: string | id in []), Operations(s.dpu, ev.dpu.value, ev.ids));
    }
  }

  lemma {:induction false} AddAllIsUnion(p: Pending, added: seq<(string, string)>)
    ensures AddAll(p, added) == p + AddAll(map[], added)
    decreases |added|
  {
    if added != [] {
      AddAllIsUnion(p[added[0].0 := added[0].1], added[1..]);
      AddAllIsUnion(map[added[0].0 := added[0].1], added[1..]);
    }
  }

  // ------------------------------------------------------------- registrations

  /** The actor has registered with its vDPU and its HA set once it is configured, once, and has
      unregistered if it was stopped. */
  predicate RegisteredOnce(s: Scope) {
    s.registrations ==
    (if s.config.Some? then [ToVDpu(true), ToHaSet(true)] else [])
    + (if s.config.Some? && s.stopped then [ToVDpu(false), ToHaSet(false)] else [])
  }

  predicate SameStanding(s: Scope, r: Res<Scope>) {
    r.Okay? ==>
      r.value.registrations == s.registrations && r.value.config == s.config && r.value.stopped == s.stopped
  }

  lemma UpdatesKeepStanding(s: Scope, added: seq<(string, string)>, approved: seq<string>, order: seq<string>, now: int)
    ensures SameStanding(s, UpdateBase(s, now)) && SameStanding(s, UpdateHaState(s))
    ensures SameStanding(s, UpdatePending(s, added, approved, order, now))
  {
  }

  lemma ConfigStanding(s: Scope, c: Config, order: seq<string>, now: int)
    ensures SameStanding(WithConfig(s, c), OnConfig(s, c, order, now))
  {
    var s1 := WithConfig(s, c);
    var request := RequestFor(s.codec, c, s1.row);
    if Managed(s1) && request.Okay? {
      var s2 := s1.(requests := s1.requests + [request.value]);
      UpdatesKeepStanding(s2, [], [], order, now);
      if UpdateHaState(s2).Okay? {
        UpdatesKeepStanding(UpdateHaState(s2).value, [], c.ApprovedIds(), order, now);
      }
    }
  }

  lemma VDpuStanding(s: Scope, dbRow: Row, now: int)
    ensures SameStanding(s, OnVDpu(s, dbRow, now))
  {
    if s.config.Some? && Managed(s) {
      var s1 := if s.row.None? then s.(row := Some(dbRow)) else s;
      var request := RequestFor(s.codec, s.config.value, s1.row);
      if request.Okay? {
        UpdatesKeepStanding(s1.(requests := s1.requests + [request.value]), [], [], [], now);
      }
    }
  }

  lemma DpuStanding(s: Scope, ids: (string, string, string), order: seq<string>, now: int)
    ensures SameStanding(s, OnDpu(s, ids, order, now))
  {
    if s.config.Some? && s.dpuIn.Some? {
      var s0 := s.(dpu := Some(s.dpuIn.value));
      UpdatesKeepStanding(s0, [], [], order, now);
      if UpdateHaState(s0).Okay? {
        UpdatesKeepStanding(UpdateHaState(s0).value, Operations(s.dpu, s.dpuIn.value, ids), [], order, now);
      }
    }
  }

  /** Whatever comes, the actor registers when it is first configured and unregisters when it is deleted. */
  lemma StepRegisters(s: Scope, ev: Event)
    requires RegisteredOnce(s) && !s.stopped && Step(s, ev).Okay?
    ensures RegisteredOnce(Step(s, ev).value)
    ensures Step(s, ev).value.stopped <==> ev.ConfigMsg? && ev.update.Delete?
  {
    match ev
    case ConfigMsg(Put(c), order, now) => ConfigStanding(s, c, order, now);
    case ConfigMsg(_, _, _) =>
    case VDpuMsg(v, dbRow, now) => VDpuStanding(s.(vdpuIn := v), dbRow, now);
    case HaSetMsg(h, now) => UpdatesKeepStanding(s.(hasetIn := h), [], [], [], now);
    case DpuMsg(d, ids, order, now) => DpuStanding(s.(dpuIn := d), ids, order, now);
  }
}
