/** What the row of the HA-scope actor tells the controller that reads it, field by field
    (crates/hamgrd/src/actors/ha_scope.rs, crates/hamgrd/src/db_structs.rs). */
module HaScopeRows {
  import opened Wrappers
  import opened FieldCodec
  import opened Orders
  import opened DbStructs
  import opened NpuRow
  import opened HaScope
  import opened HaScopeRuns
  import opened HaScopeLedger

  // ------------------------------------------------------- what a row tells

  predicate TellsHaSet(v: Npu, h: HaSet)
    requires Total(v)
  {
    && v[CreationTime] == VInt(0) && v[LastHeartbeat] == VInt(0)
    && v[VipV4] == VStr(h.vipV4) && v[VipV6] == (if h.vipV6.Some? then VSome(VStr(h.vipV6.value)) else VNone)
    && v[LocalIp] == VStr(h.localIp) && v[PeerIp] == VStr(h.peerIp)
  }

  predicate TellsPlane(v: Npu, state: NpuField, time: NpuField, p: PmonState, t: int)
    requires Total(v)
  {
    && (v[state] == VEnum("up") <==> p == Up)
    && (v[state] == VEnum("down") <==> p == Down)
    && (v[state] == VEnum("unknown") <==> p == Unknown)
    && v[time] == VInt(t)
  }

  predicate TellsPlanes(v: Npu, p: DpuState)
    requires Total(v)
  {
    && TellsPlane(v, MidplaneState, MidplaneTime, p.midplane, p.midplaneTime)
    && TellsPlane(v, ControlPlaneState, ControlPlaneTime, p.control, p.controlTime)
    && TellsPlane(v, DataPlaneState, DataPlaneTime, p.data, p.dataTime)
  }

  /** Without platform state, each plane is unknown as of the update. */
  predicate NoPlanes(v: Npu, now: int)
    requires Total(v)
  {
    && v[MidplaneState] == v[ControlPlaneState] == v[DataPlaneState] == VEnum("unknown")
    && v[MidplaneTime] == v[ControlPlaneTime] == v[DataPlaneTime] == VInt(now)
  }

  predicate TellsSessions(v: Npu, b: BfdState)
    requires Total(v)
  {
    && v[BfdV4] == VList(Texts(b.v4)) && v[BfdV4Time] == VInt(b.v4Time)
    && v[BfdV6] == VList(Texts(b.v6)) && v[BfdV6Time] == VInt(b.v6Time)
  }

  /** Without BFD state, there are no sessions as of the update. */
  predicate NoSessions(v: Npu, now: int)
    requires Total(v)
  {
    v[BfdV4] == v[BfdV6] == VList([]) && v[BfdV4Time] == v[BfdV6Time] == VInt(now)
  }

  /** The row tells the HA set and the vDPU, as of the update. */
  predicate TellsBase(v: Npu, vdpu: VDpu, h: HaSet, now: int)
    requires Total(v)
  {
    && TellsHaSet(v, h)
    && (match vdpu.pmon case Some(p) => TellsPlanes(v, p) case None => NoPlanes(v, now))
    && (match vdpu.bfd case Some(b) => TellsSessions(v, b) case None => NoSessions(v, now))
  }

  /** The row tells the role and the term of the DPU, and the state asked for. */
  predicate TellsHaState(v: Npu, c: Config, d: DpuScope)
    requires Total(v)
  {
    && v[LocalHaState] == v[LocalAckedAsicHaState] == VSome(VStr(d.haRole))
    && v[LocalHaStateTime] == VSome(VInt(d.haRoleStartTime))
    && v[LocalHaStateReason] == VSome(VStr("dpu initiated"))
    && v[LocalTargetAsicHaState] == VSome(VStr(c.desiredHaState))
    && v[LocalTargetTerm] == v[LocalAckedTerm] == VSome(VStr(d.haTerm))
  }

  /** The row lists these operations, in this order, each with its type beside it. */
  predicate TellsPending(v: Npu, p: Pending, order: seq<string>, now: int)
    requires Total(v)
  {
    && v[PendingIds] == VSome(VList(Texts(order)))
    && v[PendingTypes].VSome? && v[PendingTypes].v.VList? && |v[PendingTypes].v.vs| == |order|
    && (forall i :: 0 <= i < |order| ==> order[i] in p && v[PendingTypes].v.vs[i] == VStr(p[order[i]]))
    && v[PendingTime] == VSome(VInt(now))
  }

  // ------------------------------------------------------- the groups of fields

  /** HA set, planes, BFD sessions, HA state, ledger; and the fields nobody writes. */
  datatype Group = SetGroup | PlaneGroup | BfdGroup | HaGroup | LedgerGroup | Unwritten

  function GroupOf(n: NpuField): Group {
    match n
    case CreationTime | LastHeartbeat | VipV4 | VipV6 | LocalIp | PeerIp => SetGroup
    case MidplaneState | MidplaneTime | ControlPlaneState | ControlPlaneTime | DataPlaneState | DataPlaneTime =>
      PlaneGroup
    case BfdV4 | BfdV4Time | BfdV6 | BfdV6Time => BfdGroup
    case LocalHaState | LocalHaStateTime | LocalHaStateReason | LocalTargetAsicHaState | LocalAckedAsicHaState
      | LocalTargetTerm | LocalAckedTerm => HaGroup
    case PendingIds | PendingTypes | PendingTime => LedgerGroup
    case _ => Unwritten
  }

  predicate InBase(n: NpuField) { GroupOf(n) in {SetGroup, PlaneGroup, BfdGroup} }

  predicate Within(u: Npu, g: Group) { forall n :: n in u ==> GroupOf(n) == g }

  predicate Shows(v: Npu, u: Npu) { forall n :: n in u ==> n in v && v[n] == u[n] }

  lemma HaSetTold(v: Npu, h: HaSet)
    ensures Within(HaSetFields(h), SetGroup)
    ensures Total(v) && Shows(v, HaSetFields(h)) ==> TellsHaSet(v, h)
  {
  }

  lemma PlaneTexts(p: PmonState)
    ensures PmonText(p) == "up" <==> p == Up
    ensures PmonText(p) == "down" <==> p == Down
    ensures PmonText(p) == "unknown" <==> p == Unknown
  {
    assert "up"[0] == 'u' && "up"[1] == 'p' && "down"[0] == 'd' && "unknown"[0] == 'u' && "unknown"[1] == 'n';
  }

  lemma PlaneTold(v: Npu, state: NpuField, time: NpuField, p: PmonState, t: int)
    requires Total(v) && Shows(v, PlaneFields(state, time, p, t)) && state != time
    ensures TellsPlane(v, state, time, p, t)
  {
    PlaneTexts(p);
    assert v[state] == VEnum(PmonText(p)) && v[time] == VInt(t);
  }

  lemma PlaneWithin(state: NpuField, time: NpuField, p: PmonState, t: int)
    requires GroupOf(state) == GroupOf(time) == PlaneGroup
    ensures PlaneFields(state, time, p, t).Keys == {state, time} && Within(PlaneFields(state, time, p, t), PlaneGroup)
  {
  }

  lemma ThreeShown(a: Npu, b: Npu, c: Npu)
    requires a.Keys !! b.Keys !! c.Keys
    ensures Shows(a + b + c, a) && Shows(a + b + c, b) && Shows(a + b + c, c)
    ensures Within(a, PlaneGroup) && Within(b, PlaneGroup) && Within(c, PlaneGroup) ==> Within(a + b + c, PlaneGroup)
  {
  }

  lemma PlanesApart(pmon: DpuState)
    ensures Within(PmonFields(pmon), PlaneGroup)
    ensures Shows(PmonFields(pmon), PlaneFields(MidplaneState, MidplaneTime, pmon.midplane, pmon.midplaneTime))
    ensures Shows(PmonFields(pmon), PlaneFields(ControlPlaneState, ControlPlaneTime, pmon.control, pmon.controlTime))
    ensures Shows(PmonFields(pmon), PlaneFields(DataPlaneState, DataPlaneTime, pmon.data, pmon.dataTime))
  {
    PlaneWithin(MidplaneState, MidplaneTime, pmon.midplane, pmon.midplaneTime);
    PlaneWithin(ControlPlaneState, ControlPlaneTime, pmon.control, pmon.controlTime);
    PlaneWithin(DataPlaneState, DataPlaneTime, pmon.data, pmon.dataTime);
    ThreeShown(PlaneFields(MidplaneState, MidplaneTime, pmon.midplane, pmon.midplaneTime),
               PlaneFields(ControlPlaneState, ControlPlaneTime, pmon.control, pmon.controlTime),
               PlaneFields(DataPlaneState, DataPlaneTime, pmon.data, pmon.dataTime));
  }

  lemma PlanesTold(v: Npu, pmon: DpuState)
    requires Total(v) && Shows(v, PmonFields(pmon))
    ensures TellsPlanes(v, pmon)
  {
    PlanesApart(pmon);
    PlaneTold(v, MidplaneState, MidplaneTime, pmon.midplane, pmon.midplaneTime);
    PlaneTold(v, ControlPlaneState, ControlPlaneTime, pmon.control, pmon.controlTime);
    PlaneTold(v, DataPlaneState, DataPlaneTime, pmon.data, pmon.dataTime);
  }

  lemma SessionsTold(v: Npu, bfd: BfdState)
    ensures Within(BfdFields(bfd), BfdGroup)
    ensures Total(v) && Shows(v, BfdFields(bfd)) ==> TellsSessions(v, bfd)
  {
  }

  lemma GroupsShown(v: Npu, a: Npu, b: Npu, c: Npu)
    requires Within(a, SetGroup) && Within(b, PlaneGroup) && Within(c, BfdGroup)
    ensures var u := a + b + c;
            && Shows(v + u, a) && Shows(v + u, b) && Shows(v + u, c)
            && forall n :: n in v && !InBase(n) ==> (v + u)[n] == v[n]
  {
  }

  lemma VDpuTold(v: Npu, vdpu: VDpu, h: HaSet, now: int)
    requires Total(v) && TellsHaSet(v, h)
    requires TellsPlanes(v, PmonOr(vdpu, now)) && TellsSessions(v, BfdOr(vdpu, now))
    ensures TellsBase(v, vdpu, h, now)
  {
    if vdpu.bfd.None? {
      assert Texts([]) == [];
    }
  }

  lemma BaseTells(v: Npu, vdpu: VDpu, h: HaSet, now: int)
    requires Total(v)
    ensures var w := v + BaseFields(PmonOr(vdpu, now), BfdOr(vdpu, now), h);
            Total(w) && TellsBase(w, vdpu, h, now) && forall n :: !InBase(n) ==> w[n] == v[n]
  {
    var pmon, bfd := PmonOr(vdpu, now), BfdOr(vdpu, now);
    var w := v + BaseFields(pmon, bfd, h);
    HaSetTold(w, h);
    PlanesApart(pmon);
    SessionsTold(w, bfd);
    GroupsShown(v, HaSetFields(h), PmonFields(pmon), BfdFields(bfd));
    PlanesTold(w, pmon);
    VDpuTold(w, vdpu, h, now);
  }

  lemma HaStateTells(v: Npu, c: Config, d: DpuScope)
    requires Total(v)
    ensures var w := v + HaFields(c, d);
            Total(w) && TellsHaState(w, c, d) && forall n :: GroupOf(n) != HaGroup ==> w[n] == v[n]
  {
  }

  lemma PendingTells(v: Npu, p: Pending, order: seq<string>, now: int)
    requires Total(v) && Enumerates(order, p.Keys)
    ensures var w := v + PendingFields(order, TypesOf(p, order), now);
            Total(w) && TellsPending(w, p, order, now) && forall n :: GroupOf(n) != LedgerGroup ==> w[n] == v[n]
  {
    TypesBeside(p, order);
  }

  lemma TypesBeside(p: Pending, order: seq<string>)
    requires Enumerates(order, p.Keys)
    ensures var vs := Texts(TypesOf(p, order));
            |vs| == |order| && forall i :: 0 <= i < |order| ==> order[i] in p && vs[i] == VStr(p[order[i]])
  {
    forall i | 0 <= i < |order| ensures order[i] in p {
      assert order[i] in order;
    }
  }

  // ------------------------------------------------------------ single updates

  /** The row as it reads. */
  function Reads(s: Scope): Npu
    requires s.row.Some?
  {
    FieldsOf(s.codec, s.row.value)
  }

  ghost predicate Readable(s: Scope) { s.row.Some? && Total(Reads(s)) }

  lemma RowReadable(s: Scope)
    requires Inv(s) && s.row.Some?
    ensures Readable(s)
  {
  }

  /** After a base update the row tells the HA set and the vDPU last received, and the rest as before. */
  lemma BaseReadBack(s: Scope, now: int)
    requires Inv(s) && InI64(now) && s.config.Some? && Managed(s) && s.hasetIn.Some?
    ensures UpdateBase(s, now).Okay? && Readable(s) && Readable(UpdateBase(s, now).value)
    ensures var v := Reads(UpdateBase(s, now).value);
            && TellsBase(v, s.vdpuIn.value, s.hasetIn.value, now)
            && forall n :: !InBase(n) ==> v[n] == Reads(s)[n]
  {
    RowReadable(s);
    BaseRow(s.codec, s.row.value, s.vdpuIn.value, s.hasetIn.value, now);
  }

  lemma BaseRow(cx: Codec, row: Row, vdpu: VDpu, h: HaSet, now: int)
    requires Lawful(cx) && AcceptsGroups(cx) && RowOk(cx, row) && VDpuOk(vdpu) && HaSetOk(h) && InI64(now)
    ensures var u := BaseFields(PmonOr(vdpu, now), BfdOr(vdpu, now), h);
            var v, w := FieldsOf(cx, row), FieldsOf(cx, Rewritten(cx, row, u));
            Total(v) && Total(w) && TellsBase(w, vdpu, h, now) && forall n :: !InBase(n) ==> w[n] == v[n]
  {
    RowRewritten(cx, row, BaseFields(PmonOr(vdpu, now), BfdOr(vdpu, now), h));
    BaseTells(FieldsOf(cx, row), vdpu, h, now);
  }

  /** After an HA-state update a populated row tells the role and term of the DPU and the state asked for, and the rest
      as before. */
  lemma HaStateReadBack(s: Scope)
    requires Inv(s) && Populated(s) && s.dpuIn.Some?
    ensures UpdateHaState(s).Okay? && Readable(s) && Readable(UpdateHaState(s).value)
    ensures var v := Reads(UpdateHaState(s).value);
            && TellsHaState(v, s.config.value, s.dpuIn.value)
            && forall n :: GroupOf(n) != HaGroup ==> v[n] == Reads(s)[n]
  {
    RowReadable(s);
    PendingReads(s.codec, s.row.value);
    HaStateRow(s.codec, s.row.value, s.config.value, s.dpuIn.value);
  }

  lemma HaStateRow(cx: Codec, row: Row, c: Config, d: DpuScope)
    requires Lawful(cx) && AcceptsGroups(cx) && RowOk(cx, row) && ConfigOk(c) && DpuOk(d)
    ensures var v, w := FieldsOf(cx, row), FieldsOf(cx, Rewritten(cx, row, HaFields(c, d)));
            Total(v) && Total(w) && TellsHaState(w, c, d) && forall n :: GroupOf(n) != HaGroup ==> w[n] == v[n]
  {
    RowRewritten(cx, row, HaFields(c, d));
    HaStateTells(FieldsOf(cx, row), c, d);
  }

  lemma LedgerRow(s: Scope, p: Pending, order: seq<string>, now: int)
    requires Inv(s) && s.row.Some? && InI64(now) && AllPlain(p) && Enumerates(order, p.Keys) && Readable(s)
    ensures var s' := s.(row := Some(Rewritten(s.codec, s.row.value, PendingFields(order, TypesOf(p, order), now))));
            && Readable(s') && TellsPending(Reads(s'), p, order, now)
            && forall n :: GroupOf(n) != LedgerGroup ==> Reads(s')[n] == Reads(s)[n]
  {
    PendingRow(s.codec, s.row.value, p, order, now);
    PendingTells(Reads(s), p, order, now);
  }

  /** A change of the ledger is written with the time, and the rest is as before; without one nothing is written. */
  lemma PendingReadBack(s: Scope, added: seq<(string, string)>, approved: seq<string>, order: seq<string>, now: int)
    requires Inv(s) && Populated(s) && InI64(now)
    requires forall op :: op in added ==> Plain(op.0) && Plain(op.1)
    requires Enumerates(order, LedgerAfter(s, added, approved).Keys)
    ensures UpdatePending(s, added, approved, order, now).Okay?
    ensures var s', p := UpdatePending(s, added, approved, order, now).value, LedgerAfter(s, added, approved);
            if p == PendingOps(s) then s' == s
            else
              && Readable(s) && Readable(s') && TellsPending(Reads(s'), p, order, now)
              && forall n :: GroupOf(n) != LedgerGroup ==> Reads(s')[n] == Reads(s)[n]
  {
    RowReadable(s);
    PendingReads(s.codec, s.row.value);
    PendingPlain(Reads(s));
    PendingWritten(s, added, approved, order, now, Reads(s), PendingOps(s));
    AmendedPlain(PendingOps(s), added, approved);
    LedgerRow(s, LedgerAfter(s, added, approved), order, now);
  }

  // -------------------------------------------------------------- whole steps

  /** A managed vDPU update writes what the update and the HA set say. */
  lemma VDpuStepTells(s: Scope, ev: Event)
    requires Inv(s) && Possible(s, ev) && s.config.Some? && s.hasetIn.Some?
    requires ev.VDpuMsg? && ev.vdpu.Some? && ev.vdpu.value.managed
    ensures Step(s, ev).Okay? && Readable(Step(s, ev).value)
    ensures TellsBase(Reads(Step(s, ev).value), ev.vdpu.value, s.hasetIn.value, ev.now)
  {
    var s1 := s.(vdpuIn := ev.vdpu, row := if s.row.None? then Some(ev.dbRow) else s.row,
                 requests := s.requests + Sent(s, ev));
    VDpuStart(s, ev, s1);
    RequestBuilt(s1, s.config.value);
    VDpuStepIs(s, ev, s1.(requests := s.requests));
    BaseReadBack(s1, ev.now);
  }

  /** So does an HA-set update that finds the vDPU managed. */
  lemma HaSetStepTells(s: Scope, ev: Event)
    requires Inv(s) && Possible(s, ev) && s.config.Some? && Managed(s) && ev.HaSetMsg? && ev.haset.Some?
    ensures Step(s, ev).Okay? && Readable(Step(s, ev).value)
    ensures TellsBase(Reads(Step(s, ev).value), s.vdpuIn.value, ev.haset.value, ev.now)
  {
    BaseReadBack(s.(hasetIn := ev.haset), ev.now);
  }

  /** A change of the ledger in a step, as the row then tells it. */
  ghost predicate LedgerTold(s: Scope, ev: Event, s': Scope) {
    (ev.ConfigMsg? || ev.DpuMsg?) && NextPending(s, ev) != PendingOps(s) ==>
      Readable(s') && TellsPending(Reads(s'), NextPending(s, ev), ev.order, ev.now)
  }

  /** The two rows read the same but for these groups. */
  ghost predicate SameBut(s: Scope, s': Scope, groups: set<Group>) {
    s.row.Some? ==>
      Readable(s) && Readable(s') && forall n :: GroupOf(n) !in groups ==> Reads(s')[n] == Reads(s)[n]
  }

  lemma SameThroughout(s: Scope, s1: Scope, s2: Scope)
    requires s1.row.Some? && SameBut(s, s1, {HaGroup}) && SameBut(s1, s2, {LedgerGroup})
    ensures SameBut(s, s2, {HaGroup, LedgerGroup})
  {
  }

  lemma HaStateKept(v: Npu, w: Npu, c: Config, d: DpuScope)
    requires Total(v) && Total(w) && TellsHaState(v, c, d) && forall n :: GroupOf(n) != LedgerGroup ==> w[n] == v[n]
    ensures TellsHaState(w, c, d)
  {
  }

  /** The second half of a step: the ledger, and nothing else. */
  lemma LedgerStep(s: Scope, s1: Scope, ev: Event, added: seq<(string, string)>, approved: seq<string>)
    requires Inv(s1) && Populated(s1) && Readable(s1) && InI64(ev.now) && (ev.ConfigMsg? || ev.DpuMsg?)
    requires PendingOps(s1) == PendingOps(s) && LedgerAfter(s1, added, approved) == NextPending(s, ev)
    requires forall op :: op in added ==> Plain(op.0) && Plain(op.1)
    requires Enumerates(ev.order, NextPending(s, ev).Keys)
    ensures UpdatePending(s1, added, approved, ev.order, ev.now).Okay?
    ensures var s2 := UpdatePending(s1, added, approved, ev.order, ev.now).value;
            && Readable(s2) && LedgerTold(s, ev, s2) && SameBut(s1, s2, {LedgerGroup})
            && forall c, d :: TellsHaState(Reads(s1), c, d) ==> TellsHaState(Reads(s2), c, d)
  {
    PendingReadBack(s1, added, approved, ev.order, ev.now);
    var s2 := UpdatePending(s1, added, approved, ev.order, ev.now).value;
    forall c, d | TellsHaState(Reads(s1), c, d) ensures TellsHaState(Reads(s2), c, d) {
      HaStateKept(Reads(s1), Reads(s2), c, d);
    }
  }

  lemma SecondHalf(s: Scope, s1: Scope, ev: Event, added: seq<(string, string)>, approved: seq<string>, r: Res<Scope>)
    requires Inv(s1) && Populated(s1) && Readable(s1) && InI64(ev.now) && (ev.ConfigMsg? || ev.DpuMsg?)
    requires PendingOps(s1) == PendingOps(s) && LedgerAfter(s1, added, approved) == NextPending(s, ev)
    requires forall op :: op in added ==> Plain(op.0) && Plain(op.1)
    requires Enumerates(ev.order, NextPending(s, ev).Keys) && SameBut(s, s1, {HaGroup})
    requires added == [] && approved == [] ==> r == Okay(s1)
    requires var u := UpdatePending(s1, added, approved, ev.order, ev.now);
             (added != [] || approved != []) && u.Okay? ==> r == u
    ensures r.Okay? && Readable(r.value) && LedgerTold(s, ev, r.value) && SameBut(s, r.value, {HaGroup, LedgerGroup})
    ensures forall c, d :: TellsHaState(Reads(s1), c, d) ==> TellsHaState(Reads(r.value), c, d)
  {
    if added == [] && approved == [] {
      NothingApproved(PendingOps(s));
      SameThroughout(s, s1, s1);
    } else {
      LedgerStep(s, s1, ev, added, approved);
      SameThroughout(s, s1, r.value);
    }
  }

  lemma DpuHaState(s: Scope, ev: Event) returns (s1: Scope)
    requires Inv(s) && Possible(s, ev) && Populated(s) && ev.DpuMsg? && ev.dpu.Some?
    ensures UpdateHaState(s.(dpuIn := ev.dpu, dpu := ev.dpu)) == Okay(s1)
    ensures Inv(s1) && Populated(s1) && PendingOps(s1) == PendingOps(s) && Readable(s1) && SameBut(s, s1, {HaGroup})
    ensures TellsHaState(Reads(s1), s.config.value, ev.dpu.value)
  {
    var s0 := s.(dpuIn := ev.dpu, dpu := ev.dpu);
    assert Inv(s0) && PendingOps(s0) == PendingOps(s);
    HaStateStep(s0);
    HaStateReadBack(s0);
    s1 := UpdateHaState(s0).value;
  }

  /** DPU state that finds the row populated: the row tells it, and the operations it asks for; the rest is as
      before. */
  lemma DpuStepTells(s: Scope, ev: Event)
    requires Inv(s) && Possible(s, ev) && Populated(s) && ev.DpuMsg? && ev.dpu.Some?
    ensures Step(s, ev).Okay? && Readable(Step(s, ev).value)
    ensures TellsHaState(Reads(Step(s, ev).value), s.config.value, ev.dpu.value)
    ensures LedgerTold(s, ev, Step(s, ev).value) && SameBut(s, Step(s, ev).value, {HaGroup, LedgerGroup})
  {
    var s1 := DpuHaState(s, ev);
    DpuStepIs(s, ev, s1);
    var ops := Operations(s.dpu, ev.dpu.value, ev.ids);
    OperationsPlain(s.dpu, ev.dpu.value, ev.ids);
    SecondHalf(s, s1, ev, ops, [], Step(s, ev));
  }

  /** A configuration that finds the vDPU managed and the row populated: the row tells the state it asks for, and no
      longer lists what it approves. */
  lemma ConfigStepTells(s: Scope, ev: Event)
    requires Inv(s) && Possible(s, ev) && Populated(s) && Managed(s) && ev.ConfigMsg? && ev.update.Put?
    ensures Step(s, ev).Okay? && Readable(Step(s, ev).value)
    ensures s.dpuIn.Some? ==> TellsHaState(Reads(Step(s, ev).value), ev.update.config, s.dpuIn.value)
    ensures forall id :: id in NextPending(s, ev) <==>
              id in PendingOps(s) && !(ev.update.config.approved.Some? && id in ev.update.config.approved.value)
    ensures LedgerTold(s, ev, Step(s, ev).value) && SameBut(s, Step(s, ev).value, {HaGroup, LedgerGroup})
  {
    var s3 := ConfigFirst(s, ev);
    SecondHalf(s, s3, ev, [], ev.update.config.ApprovedIds(), Step(s, ev));
  }

  lemma ConfigFirst(s: Scope, ev: Event) returns (s3: Scope)
    requires Inv(s) && Possible(s, ev) && Populated(s) && Managed(s) && ev.ConfigMsg? && ev.update.Put?
    ensures Inv(s3) && Populated(s3) && PendingOps(s3) == PendingOps(s) && Readable(s3) && SameBut(s, s3, {HaGroup})
    ensures s.dpuIn.Some? ==> TellsHaState(Reads(s3), ev.update.config, s.dpuIn.value)
    ensures var ids := ev.update.config.ApprovedIds();
            Step(s, ev) == if ids == [] then Okay(s3)
                           else match UpdatePending(s3, [], ids, ev.order, ev.now) case Fails => Okay(s3) case r => r
  {
    var c := ev.update.config;
    var request := TableFor(c, PendingOps(s));
    ConfigBuilt(s, c, request);
    s3 := ConfigHaState(s, WithConfig(s, c).(requests := s.requests + [request]));
    ConfigStepIs(s, ev, request, s3);
  }

  lemma ConfigBuilt(s: Scope, c: Config, request: Request)
    requires Inv(s) && ConfigOk(c) && Populated(s) && request == TableFor(c, PendingOps(s))
    ensures RequestFor(s.codec, c, WithConfig(s, c).row) == Okay(request)
    ensures var s2 := WithConfig(s, c).(requests := s.requests + [request]);
            Inv(s2) && PendingOps(s2) == PendingOps(s) && Populated(s2)
  {
    ConfigStart(s, c, s.requests);
    RequestBuilt(WithConfig(s, c), c);
    ConfigStart(s, c, s.requests + [request]);
  }

  lemma ConfigHaState(s: Scope, s2: Scope) returns (s3: Scope)
    requires Inv(s) && Inv(s2) && Populated(s2) && s2.row == s.row && s2.codec == s.codec && s2.dpuIn == s.dpuIn
    ensures UpdateHaState(s2) == Okay(s3) && Inv(s3) && Populated(s3) && PendingOps(s3) == PendingOps(s2)
    ensures Readable(s3) && SameBut(s, s3, {HaGroup})
    ensures s.dpuIn.Some? ==> TellsHaState(Reads(s3), s2.config.value, s.dpuIn.value)
  {
    HaStateStep(s2);
    RowReadable(s);
    s3 := UpdateHaState(s2).value;
    if s.dpuIn.Some? {
      HaStateReadBack(s2);
    }
  }

  /** Neither message changes what a row tells while it is not populated, and a configuration changes nothing while the
      vDPU is not managed. */
  lemma StepsKeepRow(s: Scope, ev: Event)
    requires Inv(s) && Possible(s, ev) && !Crashes(s, ev)
    requires (ev.DpuMsg? && !Populated(s)) || (ev.ConfigMsg? && (!ev.update.Put? || !Managed(s) || !Populated(s)))
    ensures Step(s, ev).Okay? && Step(s, ev).value.row == s.row
  {
    StepKeepsInv(s, ev);
  }

  // ------------------------------------------------------------- the DPU's table

  /** The operation is approved by this configuration and pending, of this kind. */
  predicate Asked(c: Config, p: Pending, id: string, kind: string) {
    c.approved.Some? && id in c.approved.value && id in p && p[id] == kind
  }

  predicate SomeAsked(c: Config, p: Pending, kind: string) { exists id :: id in p && Asked(c, p, id, kind) }

  /** What a configuration or an update of a managed vDPU sends: one table, with the version, the switch and the role of
      the configuration, a flag raised exactly if an approved operation of its kind is pending. Nothing else sends. */
  lemma TableSent(s: Scope, ev: Event)
    requires Inv(s) && Possible(s, ev) && !Crashes(s, ev)
    ensures Step(s, ev).Okay?
    ensures var sent := Step(s, ev).value.requests;
            if (ev.ConfigMsg? && ev.update.Put? && Managed(s))
              || (ev.VDpuMsg? && ev.vdpu.Some? && ev.vdpu.value.managed && s.config.Some?)
            then
              var c := if ev.ConfigMsg? then ev.update.config else s.config.value;
              var p := if ev.ConfigMsg? then PendingOps(s) else PendingOps(Step(s, ev).value);
              && |sent| == |s.requests| + 1 && sent[..|s.requests|] == s.requests
              && var m := sent[|s.requests|];
              && m.version == c.version && m.disable == c.disable && m.haRole == c.desiredHaState
              && (m.activateRole <==> SomeAsked(c, p, "activate_role"))
              && (m.flowReconcile <==> SomeAsked(c, p, "flow_reconcile"))
            else sent == s.requests
  {
    StepKeepsInv(s, ev);
    if ev.ConfigMsg? && ev.update.Put? {
      FlagsRaised(ev.update.config, PendingOps(s));
    } else if ev.VDpuMsg? && s.config.Some? {
      FlagsRaised(s.config.value, NextPending(s, ev));
    }
  }

  lemma FlagsRaised(c: Config, p: Pending)
    ensures TableFor(c, p).activateRole <==> SomeAsked(c, p, "activate_role")
    ensures TableFor(c, p).flowReconcile <==> SomeAsked(c, p, "flow_reconcile")
  {
    RaisersSome(c, p, "activate_role");
    RaisersSome(c, p, "flow_reconcile");
  }

  lemma RaisersSome(c: Config, p: Pending, kind: string)
    ensures Raisers(c.ApprovedIds(), p, kind) != {} <==> SomeAsked(c, p, kind)
  {
    if SomeAsked(c, p, kind) {
      var id :| id in p && Asked(c, p, id, kind);
      assert id in Raisers(c.ApprovedIds(), p, kind);
    }
  }

  // --------------------------------------------------------------- every run

  /** While the actor is configured, knows its HA set and has a managed vDPU, the row tells both, as of then. */
  ghost predicate BaseCurrent(s: Scope, time: int) {
    s.config.Some? && Managed(s) && s.hasetIn.Some? ==>
      Readable(s) && TellsBase(Reads(s), s.vdpuIn.value, s.hasetIn.value, time)
  }

  predicate UpdatesBase(ev: Event) { ev.VDpuMsg? || ev.HaSetMsg? }

  lemma BaseKept(s: Scope, s': Scope, time: int)
    requires BaseCurrent(s, time) && SameBut(s, s', {HaGroup, LedgerGroup})
    requires s'.vdpuIn == s.vdpuIn && s'.hasetIn == s.hasetIn && (s'.config.Some? ==> s.config.Some? || !Managed(s))
    ensures BaseCurrent(s', time)
  {
    if s'.config.Some? && Managed(s') && s'.hasetIn.Some? {
      assert Readable(s) && Readable(s');
      assert forall n :: InBase(n) ==> GroupOf(n) !in {HaGroup, LedgerGroup};
      assert forall n :: InBase(n) ==> Reads(s')[n] == Reads(s)[n];
      TellsByFields(Reads(s), Reads(s'), s.vdpuIn.value, s.hasetIn.value, time);
    }
  }

  lemma TellsByFields(v: Npu, w: Npu, vdpu: VDpu, h: HaSet, now: int)
    requires Total(v) && Total(w) && TellsBase(v, vdpu, h, now) && forall n :: InBase(n) ==> w[n] == v[n]
    ensures TellsBase(w, vdpu, h, now)
  {
    SetByFields(v, w, h);
    PlanesByFields(v, w, vdpu, now);
    SessionsByFields(v, w, vdpu, now);
  }

  lemma SetByFields(v: Npu, w: Npu, h: HaSet)
    requires Total(v) && Total(w) && TellsHaSet(v, h) && forall n :: InBase(n) ==> w[n] == v[n]
    ensures TellsHaSet(w, h)
  {
    assert forall n :: GroupOf(n) == SetGroup ==> InBase(n);
  }

  lemma PlanesByFields(v: Npu, w: Npu, vdpu: VDpu, now: int)
    requires Total(v) && Total(w) && forall n :: InBase(n) ==> w[n] == v[n]
    requires match vdpu.pmon case Some(p) => TellsPlanes(v, p) case None => NoPlanes(v, now)
    ensures match vdpu.pmon case Some(p) => TellsPlanes(w, p) case None => NoPlanes(w, now)
  {
    assert w[MidplaneState] == v[MidplaneState] && w[MidplaneTime] == v[MidplaneTime];
    assert w[ControlPlaneState] == v[ControlPlaneState] && w[ControlPlaneTime] == v[ControlPlaneTime];
    assert w[DataPlaneState] == v[DataPlaneState] && w[DataPlaneTime] == v[DataPlaneTime];
  }

  lemma SessionsByFields(v: Npu, w: Npu, vdpu: VDpu, now: int)
    requires Total(v) && Total(w) && forall n :: InBase(n) ==> w[n] == v[n]
    requires match vdpu.bfd case Some(b) => TellsSessions(v, b) case None => NoSessions(v, now)
    ensures match vdpu.bfd case Some(b) => TellsSessions(w, b) case None => NoSessions(w, now)
  {
    assert w[BfdV4] == v[BfdV4] && w[BfdV4Time] == v[BfdV4Time] && w[BfdV6] == v[BfdV6] && w[BfdV6Time] == v[BfdV6Time];
  }

  lemma StepBaseCurrent(s: Scope, ev: Event, time: int)
    requires Inv(s) && Possible(s, ev) && !Crashes(s, ev) && BaseCurrent(s, time)
    ensures Step(s, ev).Okay? && BaseCurrent(Step(s, ev).value, if UpdatesBase(ev) then ev.now else time)
  {
    StepKeepsInv(s, ev);
    var s' := Step(s, ev).value;
    match ev
    case VDpuMsg(_, _, _) =>
      if s'.config.Some? && Managed(s') && s'.hasetIn.Some? {
        VDpuStepTells(s, ev);
      }
    case HaSetMsg(_, _) =>
      if s'.config.Some? && Managed(s') && s'.hasetIn.Some? {
        HaSetStepTells(s, ev);
      }
    case DpuMsg(_, _, _, _) => OtherStepBaseCurrent(s, ev, time);
    case ConfigMsg(_, _, _) => OtherStepBaseCurrent(s, ev, time);
  }

  lemma OtherStepBaseCurrent(s: Scope, ev: Event, time: int)
    requires Inv(s) && Possible(s, ev) && !Crashes(s, ev) && BaseCurrent(s, time) && (ev.DpuMsg? || ev.ConfigMsg?)
    ensures Step(s, ev).Okay? && BaseCurrent(Step(s, ev).value, time)
  {
    StepKeepsInv(s, ev);
    var s' := Step(s, ev).value;
    if ev.DpuMsg? && Populated(s) && ev.dpu.Some? {
      DpuStepTells(s, ev);
    } else if ev.ConfigMsg? && ev.update.Put? && Managed(s) && Populated(s) {
      ConfigStepTells(s, ev);
    } else if !(ev.DpuMsg? && Populated(s)) {
      StepsKeepRow(s, ev);
    }
    assert SameBut(s, s', {HaGroup, LedgerGroup});
    BaseKept(s, s', time);
  }

  /** The time of the last vDPU or HA-set update among the first `n` events. */
  function LastBase(evs: seq<Event>, n: nat): int
    requires n <= |evs|
  {
    if n == 0 then 0 else if UpdatesBase(evs[n - 1]) then evs[n - 1].now else LastBase(evs, n - 1)
  }

  lemma FollowsBase(s: Scope, ev: Event, s': Scope, time: int)
    requires Inv(s) && Follows(s, ev, s') && BaseCurrent(s, time)
    ensures BaseCurrent(s', if UpdatesBase(ev) then ev.now else time)
  {
    FollowsSound(s, ev, s');
    if Crashes(s, ev) {
      assert s'.row == s.row;
    } else {
      StepBaseCurrent(s, ev, time);
    }
  }

  /** The row at this point of a run tells what was last received. */
  ghost predicate CurrentAt(states: seq<Scope>, evs: seq<Event>, n: nat)
    requires n < |states| && n <= |evs|
  {
    BaseCurrent(states[n], LastBase(evs, n))
  }

  lemma NextTellsBase(cx: Codec, states: seq<Scope>, evs: seq<Event>, n: nat)
    requires Run(cx, states, evs) && 0 < n <= |evs| && CurrentAt(states, evs, n - 1)
    ensures CurrentAt(states, evs, n)
  {
    RunInv(cx, states, evs, n - 1);
    assert Follows(states[n - 1], evs[n - 1], states[n - 1 + 1]);
    FollowsBase(states[n - 1], evs[n - 1], states[n], LastBase(evs, n - 1));
  }

  lemma FirstTellsBase(cx: Codec, states: seq<Scope>, evs: seq<Event>)
    requires |states| > 0 && states[0] == NewScope(cx)
    ensures CurrentAt(states, evs, 0)
  {
  }

  /** At any point of any run: an actor that is configured, knows its HA set and has a managed vDPU shows the controller
      the HA set, the planes and the sessions last received, each plane as up, down or unknown. */
  lemma {:induction false} RunTellsBase(cx: Codec, states: seq<Scope>, evs: seq<Event>, n: nat)
    requires Run(cx, states, evs) && n <= |evs|
    ensures CurrentAt(states, evs, n)
  {
    if n == 0 {
      FirstTellsBase(cx, states, evs);
    } else {
      RunTellsBase(cx, states, evs, n - 1);
      NextTellsBase(cx, states, evs, n);
    }
  }
}
