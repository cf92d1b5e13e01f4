/** The HA-scope actor: handlers over its own fields, the incoming messages it has, and the NPU row
    (crates/hamgrd/src/actors/ha_scope.rs). */
module HaScope {
  import opened Wrappers
  import opened FieldCodec
  import opened DbStructs
  import opened NpuRow

  // ---------------------------------------------------------------- messages

  datatype Config = Config(version: nat, disable: bool, desiredHaState: string, approved: Option<seq<string>>) {
    function ApprovedIds(): seq<string> { if approved.Some? then approved.value else [] }
  }

  datatype VDpu = VDpu(managed: bool, pmon: Option<DpuState>, bfd: Option<BfdState>)

  datatype HaSet = HaSet(vipV4: string, vipV6: Option<string>, localIp: string, peerIp: string)

  datatype DpuScope = DpuScope(
    haRole: string, haRoleStartTime: int, haTerm: string,
    activateRole: bool, brainsplitRecover: bool, flowReconcile: bool)

  /** A DASH_HA_SCOPE_TABLE message to the DPU. `raisedBy` notes the operation ids that set its two flags. */
  datatype Request = Request(
    version: nat, disable: bool, haRole: string, flowReconcile: bool, activateRole: bool, raisedBy: set<string>)

  datatype Registration = ToVDpu(active: bool) | ToHaSet(active: bool)

  datatype ConfigUpdate = Undecodable | Delete | Put(config: Config)

  /** `order` is the order in which the pending map is walked when it is written back, `ids` the three
      identifiers drawn, `dbRow` what the database holds when the row is first read. */
  datatype Event =
    | ConfigMsg(update: ConfigUpdate, order: seq<string>, now: int)
    | VDpuMsg(vdpu: Option<VDpu>, dbRow: Row, now: int)
    | HaSetMsg(haset: Option<HaSet>, now: int)
    | DpuMsg(dpu: Option<DpuScope>, ids: (string, string, string), order: seq<string>, now: int)

  // ------------------------------------------------------------------- state

  /** How the actor writes and reads its row, its fields, its decoded incoming messages, its internal row (None until
      the entry is added, and then reading it panics), and everything it has sent. */
  datatype Scope = Scope(
    codec: Codec, config: Option<Config>, dpu: Option<DpuScope>,
    vdpuIn: Option<VDpu>, hasetIn: Option<HaSet>, dpuIn: Option<DpuScope>,
    row: Option<Row>, requests: seq<Request>, registrations: seq<Registration>, stopped: bool)

  function NewScope(codec: Codec): Scope { Scope(codec, None, None, None, None, None, None, [], [], false) }

  /** A handler returns, returns an error, or panics. */
  datatype Res<+T> = Okay(value: T) | Fails | Panics

  predicate Managed(s: Scope) { s.vdpuIn.Some? && s.vdpuIn.value.managed }

  predicate Populated(s: Scope) { s.row.Some? && s.row.value != map[] }

  /** The row as the actor reads it: an empty row counts as not created. */
  function NpuOf(cx: Codec, row: Row): Option<Npu> { if row == map[] then None else cx.decode(row) }

  /** The row as a struct, or the default struct while there is none. */
  function FieldsOf(cx: Codec, row: Row): Npu {
    match NpuOf(cx, row) case Some(v) => v case None => cx.blank
  }

  function PendingFromRow(cx: Codec, row: Row): Option<Pending> {
    if row == map[] then Some(map[])
    else match cx.decode(row) case Some(v) => PendingOf(v) case None => None
  }

  /** The pending operations the row lists. */
  function PendingOps(s: Scope): Pending {
    if s.row.None? then map[] else match PendingFromRow(s.codec, s.row.value) case Some(p) => p case None => map[]
  }

  // ------------------------------------------------------- message to the DPU

  function Raisers(approved: seq<string>, pending: Pending, kind: string): set<string> {
    set id | id in approved && id in pending && pending[id] == kind
  }

  /** `update_dpu_ha_scope_table`: an approved operation that is still pending raises its flag. */
  function RequestFor(cx: Codec, c: Config, row: Option<Row>): Res<Request> {
    if c.ApprovedIds() == [] then Okay(Request(c.version, c.disable, c.desiredHaState, false, false, {}))
    else if row.None? then Panics
    else match PendingFromRow(cx, row.value)
      case None => Fails
      case Some(p) =>
        var a, f := Raisers(c.ApprovedIds(), p, "activate_role"), Raisers(c.ApprovedIds(), p, "flow_reconcile");
        Okay(Request(c.version, c.disable, c.desiredHaState, f != {}, a != {}, a + f))
  }

  // --------------------------------------------------------------- row updates

  function PmonText(p: PmonState): string {
    match p case Up => "up" case Down => "down" case Unknown => "unknown"
  }

  function OptText(t: Option<string>): Value { if t.Some? then VSome(VStr(t.value)) else VNone }

  function PmonOr(v: VDpu, now: int): DpuState {
    if v.pmon.Some? then v.pmon.value else DpuState(Unknown, now, Unknown, now, Unknown, now)
  }

  function BfdOr(v: VDpu, now: int): BfdState { if v.bfd.Some? then v.bfd.value else BfdState([], now, [], now) }

  function HaSetFields(h: HaSet): (u: Npu)
    ensures PendingIds !in u && PendingTypes !in u
  {
    map[CreationTime := VInt(0), LastHeartbeat := VInt(0),
        VipV4 := VStr(h.vipV4), VipV6 := OptText(h.vipV6), LocalIp := VStr(h.localIp), PeerIp := VStr(h.peerIp)]
  }

  function PlaneFields(state: NpuField, time: NpuField, p: PmonState, t: int): Npu {
    map[state := VEnum(PmonText(p)), time := VInt(t)]
  }

  function PmonFields(pmon: DpuState): (u: Npu)
    ensures PendingIds !in u && PendingTypes !in u
  {
    PlaneFields(MidplaneState, MidplaneTime, pmon.midplane, pmon.midplaneTime)
    + PlaneFields(ControlPlaneState, ControlPlaneTime, pmon.control, pmon.controlTime)
    + PlaneFields(DataPlaneState, DataPlaneTime, pmon.data, pmon.dataTime)
  }

  function BfdFields(bfd: BfdState): (u: Npu)
    ensures PendingIds !in u && PendingTypes !in u
  {
    map[BfdV4 := VList(Texts(bfd.v4)), BfdV4Time := VInt(bfd.v4Time),
        BfdV6 := VList(Texts(bfd.v6)), BfdV6Time := VInt(bfd.v6Time)]
  }

  /** The base group holds none of the pending lists. */
  function BaseFields(pmon: DpuState, bfd: BfdState, h: HaSet): (u: Npu)
    ensures PendingIds !in u && PendingTypes !in u
  {
    HaSetFields(h) + PmonFields(pmon) + BfdFields(bfd)
  }

  function HaFields(c: Config, d: DpuScope): Npu {
    map[LocalHaState := VSome(VStr(d.haRole)), LocalHaStateTime := VSome(VInt(d.haRoleStartTime)),
        LocalHaStateReason := VSome(VStr("dpu initiated")),
        LocalTargetAsicHaState := VSome(VStr(c.desiredHaState)), LocalAckedAsicHaState := VSome(VStr(d.haRole)),
        LocalTargetTerm := VSome(VStr(d.haTerm)), LocalAckedTerm := VSome(VStr(d.haTerm))]
  }

  function PendingFields(ids: seq<string>, types: seq<string>, now: int): Npu {
    map[PendingIds := VSome(VList(Texts(ids))), PendingTypes := VSome(VList(Texts(types))),
        PendingTime := VSome(VInt(now))]
  }

  /** `update_npu_ha_scope_state_base`. */
  function UpdateBase(s: Scope, now: int): Res<Scope> {
    if s.config.None? || !Managed(s) || s.hasetIn.None? then Okay(s)
    else if s.row.None? then Panics
    else
      var v := FieldsOf(s.codec, s.row.value);
      var u := BaseFields(PmonOr(s.vdpuIn.value, now), BfdOr(s.vdpuIn.value, now), s.hasetIn.value);
      Okay(s.(row := Some(s.codec.encode(v + u))))
  }

  /** `update_npu_ha_scope_state_ha_state`. */
  function UpdateHaState(s: Scope): Res<Scope> {
    if s.config.None? then Okay(s)
    else if s.row.None? then Panics
    else
      var v := NpuOf(s.codec, s.row.value);
      if v.None? || s.dpuIn.None? then Okay(s)
      else Okay(s.(row := Some(s.codec.encode(v.value + HaFields(s.config.value, s.dpuIn.value)))))
  }

  function AddAll(p: Pending, added: seq<(string, string)>): Pending
    decreases |added|
  {
    if added == [] then p else AddAll(p[added[0].0 := added[0].1], added[1..])
  }

  /** Approved operations are removed, then new ones inserted. */
  function Amended(p: Pending, added: seq<(string, string)>, approved: seq<string>): Pending {
    AddAll(p - (set id | id in approved), added)
  }

  /** The types of the listed operations. */
  function TypesOf(p: Pending, order: seq<string>): (types: seq<string>)
    ensures |types| == |order| && forall i :: 0 <= i < |order| ==> types[i] == if order[i] in p then p[order[i]] else ""
  {
    seq(|order|, i requires 0 <= i < |order| => if order[i] in p then p[order[i]] else "")
  }

  /** `update_npu_ha_scope_state_pending_operations`. */
  function UpdatePending(s: Scope, added: seq<(string, string)>, approved: seq<string>, order: seq<string>,
                         now: int): Res<Scope> {
    if s.config.None? then Okay(s)
    else if s.row.None? then Panics
    else
      var v := NpuOf(s.codec, s.row.value);
      if v.None? then Okay(s)
      else match PendingOf(v.value)
        case None => Fails
        case Some(p) =>
          var p' := Amended(p, added, approved);
          if p' == p then Okay(s)
          else Okay(s.(row := Some(s.codec.encode(v.value + PendingFields(order, TypesOf(p', order), now)))))
  }

  // ------------------------------------------------------------------ handlers

  function OnConfig(s: Scope, c: Config, order: seq<string>, now: int): Res<Scope> {
    var first := s.config.None?;
    var s1 := s.(config := Some(c),
                 registrations := s.registrations + if first then [ToVDpu(true), ToHaSet(true)] else []);
    if !Managed(s1) then Okay(s1)
    else match RequestFor(s.codec, c, s1.row)
      case Panics => Panics
      case Fails => Okay(s1)  // logged, and the message counts as handled
      case Okay(request) =>
        var s2 := s1.(requests := s1.requests + [request]);
        match UpdateHaState(s2)
        case Okay(s3) =>
          if c.ApprovedIds() == [] then Okay(s3)
          else (match UpdatePending(s3, [], c.ApprovedIds(), order, now) case Fails => Okay(s3) case r => r)
        case Fails => Okay(s2)
        case Panics => Panics
  }

  function OnVDpu(s: Scope, dbRow: Row, now: int): Res<Scope> {
    if s.config.None? || !Managed(s) then Okay(s)
    else
      var s1 := if s.row.None? then s.(row := Some(dbRow)) else s;
      match RequestFor(s.codec, s1.config.value, s1.row)
      case Okay(request) => UpdateBase(s1.(requests := s1.requests + [request]), now)
      case Fails => Fails
      case Panics => Panics
  }

  /** A rising edge of a DPU flag asks for an operation. */
  function Operations(prev: Option<DpuScope>, d: DpuScope, ids: (string, string, string)): seq<(string, string)> {
    (if d.activateRole && !(prev.Some? && prev.value.activateRole) then [(ids.0, "activate_role")] else [])
    + (if d.brainsplitRecover && !(prev.Some? && prev.value.brainsplitRecover)
       then [(ids.1, "brainsplit_recover")] else [])
    + (if d.flowReconcile && !(prev.Some? && prev.value.flowReconcile) then [(ids.2, "flow_reconcile")] else [])
  }

  function OnDpu(s: Scope, ids: (string, string, string), order: seq<string>, now: int): Res<Scope> {
    if s.config.None? || s.dpuIn.None? then Okay(s)
    else
      var d := s.dpuIn.value;
      var ops := Operations(s.dpu, d, ids);
      match UpdateHaState(s.(dpu := Some(d)))
      case Okay(s1) => if ops == [] then Okay(s1) else UpdatePending(s1, ops, [], order, now)
      case r => r
  }

  /** One message: it enters the incoming table, then the actor handles it. */
  function Step(s: Scope, ev: Event): Res<Scope> {
    match ev
    case ConfigMsg(Undecodable, _, _) => Okay(s)
    case ConfigMsg(Delete, _, _) =>
      Okay(s.(stopped := true,
              registrations := s.registrations + if s.config.Some? then [ToVDpu(false), ToHaSet(false)] else []))
    case ConfigMsg(Put(c), order, now) => OnConfig(s, c, order, now)
    case VDpuMsg(v, dbRow, now) => OnVDpu(s.(vdpuIn := v), dbRow, now)
    case HaSetMsg(h, now) => UpdateBase(s.(hasetIn := h), now)
    case DpuMsg(d, ids, order, now) => OnDpu(s.(dpuIn := d), ids, order, now)
  }
}
