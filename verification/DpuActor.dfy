/** The DPU actor and its subscribers: every change of the DPU's state reaches the actors registered for it
    (crates/hamgrd/src/actors/dpu.rs, crates/hamgrd/src/ha_actor_messages.rs). */
module DpuActor {
  import opened Wrappers
  import opened ServicePaths
  import opened Orders
  import opened DbStructs

  // --------------------------------------------------------------------- data

  datatype Dpu = Dpu(
    state: Option<string>, vipV4: Option<string>, vipV6: Option<string>, paV4: string, paV6: Option<string>,
    dpuId: nat, vdpuId: Option<string>, orchagentPort: nat, swbusPort: nat, midplaneV4: string)

  datatype RemoteDpu = RemoteDpu(
    paV4: string, paV6: Option<string>, npuV4: string, npuV6: Option<string>, dpuId: nat, swbusPort: nat)

  datatype DpuData =
    | Local(dpu: Dpu, managed: bool, npuV4: string, npuV6: Option<string>)
    | Remote(remote: RemoteDpu)

  /** `DpuActorState`, the state that subscribers are told. */
  datatype Published = Published(
    remoteDpu: bool, managed: bool, dpuName: string, up: bool, state: Option<string>,
    npuV4: string, npuV6: Option<string>, vipV4: Option<string>, vipV6: Option<string>,
    paV4: string, paV6: Option<string>, dpuId: nat, vdpuId: Option<string>,
    orchagentPort: nat, swbusPort: nat, midplaneV4: Option<string>,
    pmon: Option<DpuState>, bfd: Option<BfdState>)

  /** What a table update decodes to as each of the record types an actor may ask for. */
  datatype Kfv = Kfv(
    del: bool, dpu: Option<Dpu>, remote: Option<RemoteDpu>, pmon: Option<DpuState>, bfd: Option<BfdState>,
    isGlobalConfig: bool)

  /** A message body, read as a table update or as a registration. */
  datatype Body = Body(kfv: Option<Kfv>, active: Option<bool>)

  datatype Entry = Entry(body: Body, source: ServicePath)

  type Table = map<string, Entry>

  const DPU := "DPU"
  const REMOTE_DPU := "REMOTE_DPU"
  const DPU_STATE := "DPU_STATE"
  const BFD_STATE := "DASH_BFD_PROBE_STATE"
  const GLOBAL_CONFIG := "DASH_HA_GLOBAL_CONFIG"
  const REGISTER := "DPUStateRegister|"

  /** What the actor reads from its runtime. */
  datatype Env = Env(id: string, slot: nat, npuV4: Option<string>, npuV6: Option<string>)

  /** `bridged` says that the actor has gone to spawn the bridges that bring it DPU_STATE and BFD messages. */
  datatype Actor = Actor(env: Env, dpu: Option<DpuData>, table: Table, bridged: bool, stopped: bool)

  // ------------------------------------------------------------ computed state

  function PmonIn(table: Table): Option<DpuState> {
    if DPU_STATE in table && table[DPU_STATE].body.kfv.Some? then table[DPU_STATE].body.kfv.value.pmon else None
  }

  function BfdIn(table: Table): Option<BfdState> {
    if BFD_STATE in table && table[BFD_STATE].body.kfv.Some? then table[BFD_STATE].body.kfv.value.bfd else None
  }

  predicate HasGlobalConfig(table: Table) {
    GLOBAL_CONFIG in table && table[GLOBAL_CONFIG].body.kfv.Some? && table[GLOBAL_CONFIG].body.kfv.value.isGlobalConfig
  }

  predicate PmonUp(p: DpuState) { p.midplane.Up? && p.control.Up? && p.data.Up? }

  predicate BfdUp(b: BfdState) { b.v4 != [] || b.v6 != [] }

  /** `calculate_dpu_state`. */
  function Calculated(dpu: DpuData, table: Table): (bool, Option<DpuState>, Option<BfdState>) {
    if dpu.Remote? then (false, None, None)
    else
      var p, b := PmonIn(table), BfdIn(table);
      (p.Some? && b.Some? && PmonUp(p.value) && BfdUp(b.value), p, b)
  }

  function FromDpu(id: string, l: DpuData, up: bool, p: Option<DpuState>, b: Option<BfdState>): Published
    requires l.Local?
  {
    var d := l.dpu;
    Published(false, l.managed, id, up, d.state, l.npuV4, l.npuV6, d.vipV4, d.vipV6, d.paV4, d.paV6, d.dpuId, d.vdpuId,
              d.orchagentPort, d.swbusPort, Some(d.midplaneV4), p, b)
  }

  function FromRemote(id: string, r: RemoteDpu, up: bool): Published {
    Published(true, false, id, up, None, r.npuV4, r.npuV6, None, None, r.paV4, r.paV6, r.dpuId, None, 0, r.swbusPort,
              None, None, None)
  }

  /** The state of the DPU as the actor's tables give it now. */
  function Computed(id: string, dpu: DpuData, table: Table): Published {
    var (up, p, b) := Calculated(dpu, table);
    if dpu.Local? then FromDpu(id, dpu, up, p, b) else FromRemote(id, dpu.remote, up)
  }

  /** What a subscriber can tell of the DPU from the state it is sent. */
  function Told(p: Published): DpuData {
    if p.remoteDpu then DpuData.Remote(RemoteDpu(p.paV4, p.paV6, p.npuV4, p.npuV6, p.dpuId, p.swbusPort))
    else DpuData.Local(
      Dpu(p.state, p.vipV4, p.vipV6, p.paV4, p.paV6, p.dpuId, p.vdpuId, p.orchagentPort, p.swbusPort,
          if p.midplaneV4.Some? then p.midplaneV4.value else ""),
      p.managed, p.npuV4, p.npuV6)
  }

  /** Nothing the actor knows of its DPU is lost, and `up` means three planes up and some BFD session up. */
  lemma SubscribersCanTell(id: string, dpu: DpuData, table: Table)
    ensures var p := Computed(id, dpu, table);
            && Told(p) == dpu && p.dpuName == id
            && (dpu.Local? ==> p.pmon == PmonIn(table) && p.bfd == BfdIn(table))
            && (dpu.Remote? ==> p.pmon == None && p.bfd == None)
            && (p.up <==>
                && p.pmon.Some? && p.pmon.value.midplane == p.pmon.value.control == p.pmon.value.data == Up
                && p.bfd.Some? && |p.bfd.value.v4| + |p.bfd.value.v6| > 0)
  {
  }

  // ------------------------------------------------------------- registrations

  predicate ActiveAt(table: Table, k: string) { k in table && REGISTER <= k && table[k].body.active == Some(true) }

  ghost predicate Registered(table: Table, who: ServicePath) {
    exists k :: ActiveAt(table, k) && table[k].source == who
  }

  /** `get_registered_actors`: the keys of the table are walked in some order. */
  function Targets(table: Table, order: seq<string>): seq<ServicePath> {
    if order == [] then []
    else
      var k := order[|order| - 1];
      Targets(table, order[..|order| - 1]) + if ActiveAt(table, k) then [table[k].source] else []
  }

  ghost predicate Walks(table: Table, order: seq<string>) { Enumerates(order, set k | k in table && REGISTER <= k) }

  // ------------------------------------------------------------------ handlers

  type Sends = seq<(ServicePath, Published)>

  /** What a handler leaves behind: the actor and the messages it sent, none if it failed. */
  datatype Handled = Handled(actor: Actor, sends: Sends, ok: bool)

  function ToAll(targets: seq<ServicePath>, msg: Published): (s: Sends)
    ensures |s| == |targets| && forall i :: 0 <= i < |s| ==> s[i] == (targets[i], msg)
  {
    seq(|targets|, i requires 0 <= i < |targets| => (targets[i], msg))
  }

  /** `update_dpu_state`, to one actor or to all that are registered. */
  function Publish(a: Actor, target: Option<ServicePath>, order: seq<string>): Sends {
    if a.dpu.None? then []
    else
      var msg := Computed(a.env.id, a.dpu.value, a.table);
      if target.Some? then [(target.value, msg)] else ToAll(Targets(a.table, order), msg)
  }

  predicate Managed(a: Actor) { a.dpu.Some? && a.dpu.value.Local? && a.dpu.value.managed }

  /** `handle_dpu_message`; `spawns` says whether the bridges can be spawned. */
  function OnDpu(a: Actor, body: Body, spawns: bool, order: seq<string>): Handled {
    if body.kfv.None? then Handled(a, [], false)
    else if body.kfv.value.del then Handled(a.(stopped := true), [], true)
    else if body.kfv.value.dpu.None? || a.env.npuV4.None? then Handled(a, [], false)
    else
      var d := body.kfv.value.dpu.value;
      var managed := d.dpuId == a.env.slot;
      var a' := a.(dpu := Some(DpuData.Local(d, managed, a.env.npuV4.value, a.env.npuV6)),
                   bridged := a.bridged || (managed && a.dpu.None?));
      if managed && a.dpu.None? && !spawns then Handled(a', [], false)
      else Handled(a', Publish(a', None, order), true)
  }

  /** `handle_remote_dpu_message`; what a local DPU does with it concerns BFD sessions only. */
  function OnRemote(a: Actor, body: Body, order: seq<string>): Handled {
    if a.dpu.Some? && a.dpu.value.Local? then
      Handled(a, [], body.kfv.Some? && body.kfv.value.remote.Some? && HasGlobalConfig(a.table))
    else if body.kfv.None? then Handled(a, [], false)
    else if body.kfv.value.del then Handled(a.(stopped := true), [], true)
    else if body.kfv.value.remote.None? then Handled(a, [], false)
    else
      var a' := a.(dpu := Some(DpuData.Remote(body.kfv.value.remote.value)));
      Handled(a', Publish(a', None, order), true)
  }

  /** `handle_message`, once the message is in the table. */
  function Handle(a: Actor, key: string, spawns: bool, order: seq<string>): Handled
    requires key in a.table
  {
    var e := a.table[key];
    if key == DPU then OnDpu(a, e.body, spawns, order)
    else if REMOTE_DPU <= key then OnRemote(a, e.body, order)
    else if a.dpu.None? then Handled(a, [], true)
    else if REGISTER <= key then
      if e.body.active.None? then Handled(a, [], false)
      else Handled(a, if e.body.active.value then Publish(a, Some(e.source), order) else [], true)
    else if Managed(a) && (key == DPU_STATE || key == BFD_STATE) then Handled(a, Publish(a, None, order), true)
    else Handled(a, [], Managed(a) && key == GLOBAL_CONFIG ==> HasGlobalConfig(a.table))
  }

  // --------------------------------------------------------------------- world

  /** The actor, the messages on their way to each subscriber, and what each has received last. */
  datatype World = World(
    actor: Actor, channels: map<ServicePath, seq<Published>>, received: map<ServicePath, Published>)

  datatype Event =
    | Arrive(key: string, entry: Entry, spawns: bool, order: seq<string>)
    | Deliver(to: ServicePath)

  function Chan(channels: map<ServicePath, seq<Published>>, who: ServicePath): seq<Published> {
    if who in channels then channels[who] else []
  }

  function Post(channels: map<ServicePath, seq<Published>>, sends: Sends): map<ServicePath, seq<Published>> {
    if sends == [] then channels
    else
      var before := Post(channels, sends[..|sends| - 1]);
      var (to, msg) := sends[|sends| - 1];
      before[to := Chan(before, to) + [msg]]
  }

  function Heard(a: Actor, ev: Event): Actor
    requires ev.Arrive?
  {
    a.(table := a.table[ev.key := ev.entry])
  }

  function Step(w: World, ev: Event): World {
    match ev
    case Arrive(key, _, spawns, order) =>
      if w.actor.stopped then w
      else
        var h := Handle(Heard(w.actor, ev), key, spawns, order);
        w.(actor := h.actor, channels := Post(w.channels, h.sends))
    case Deliver(to) =>
      var c := Chan(w.channels, to);
      if c == [] then w else w.(channels := w.channels[to := c[1..]], received := w.received[to := c[0]])
  }

  function NewWorld(env: Env): World { World(Actor(env, None, map[], false, false), map[], map[]) }

  /** The last state on its way to a subscriber, or else the last it received. */
  function View(w: World, who: ServicePath): Option<Published> {
    var c := Chan(w.channels, who);
    if c != [] then Some(c[|c| - 1]) else if who in w.received then Some(w.received[who]) else None
  }

  function Current(a: Actor): Published
    requires a.dpu.Some?
  {
    Computed(a.env.id, a.dpu.value, a.table)
  }

  ghost predicate Consistent(w: World) {
    w.actor.dpu.Some? ==> forall who :: Registered(w.actor.table, who) ==> View(w, who) == Some(Current(w.actor))
  }

  /** Nothing has been sent before the actor knows its DPU. */
  ghost predicate Silent(w: World) { w.actor.dpu.None? ==> forall who :: View(w, who) == None }

  // -------------------------------------------------------- sending and viewing

  lemma {:induction false} TargetsAre(table: Table, order: seq<string>, who: ServicePath)
    ensures who in Targets(table, order) <==>
            exists i :: 0 <= i < |order| && ActiveAt(table, order[i]) && table[order[i]].source == who
  {
    if order != [] {
      var init := order[..|order| - 1];
      TargetsAre(table, init, who);
      assert forall i :: 0 <= i < |init| ==> init[i] == order[i];
    }
  }

  /** Everyone registered, and nobody else, is a target, whatever the order of the walk. */
  lemma TargetsRegistered(table: Table, order: seq<string>, who: ServicePath)
    requires Walks(table, order)
    ensures who in Targets(table, order) <==> Registered(table, who)
  {
    TargetsAre(table, order, who);
    if k :| ActiveAt(table, k) && table[k].source == who {
      var keys := set k | k in table && REGISTER <= k;
      assert k in keys;
      var i :| 0 <= i < |order| && order[i] == k;
    }
  }

  lemma PostNext(channels: map<ServicePath, seq<Published>>, sends: Sends, to: ServicePath, msg: Published,
                 who: ServicePath)
    ensures Chan(Post(channels, sends + [(to, msg)]), who) ==
            Chan(Post(channels, sends), who) + if who == to then [msg] else []
  {
    assert (sends + [(to, msg)])[..|sends|] == sends;
  }

  /** A target sees the message last; everyone else sees what they saw. */
  lemma {:induction false} PostToAll(channels: map<ServicePath, seq<Published>>, targets: seq<ServicePath>,
                                     msg: Published, who: ServicePath)
    ensures var c := Chan(Post(channels, ToAll(targets, msg)), who);
            if who in targets then c != [] && c[|c| - 1] == msg else c == Chan(channels, who)
  {
    if targets != [] {
      var init, to := targets[..|targets| - 1], targets[|targets| - 1];
      PostToAll(channels, init, msg, who);
      assert ToAll(targets, msg) == ToAll(init, msg) + [(to, msg)];
      PostNext(channels, ToAll(init, msg), to, msg, who);
      assert targets == init + [to];
    }
  }
}
