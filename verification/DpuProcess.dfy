/** The DPU actor as it runs: handlers that update its fields and queue messages in loops, proved against the
    state machine (crates/hamgrd/src/actors/dpu.rs, crates/hamgrd/src/ha_actor_messages.rs). */
module DpuProcess {
  import opened Wrappers
  import opened ServicePaths
  import opened Orders
  import opened IncomingTable
  import opened DbStructs
  import opened DpuActor

  /** There is always some order in which to walk the registrations. */
  lemma SomeWalk(table: Table) returns (order: seq<string>)
    ensures Walks(table, order)
  {
    order := SomeOrder(set k | k in table && REGISTER <= k);
  }

  /** The sources of the active registrations, in the order in which the table is walked. */
  method GetRegisteredActors(table: Table) returns (targets: seq<ServicePath>, order: seq<string>)
    ensures Walks(table, order) && targets == Targets(table, order)
  {
    order := KeysWithPrefix(table, REGISTER);
    targets := [];
    for i := 0 to |order|
      invariant targets == Targets(table, order[..i])
    {
      var k := order[i];
      assert order[..i + 1][..i] == order[..i] && k in order;
      if table[k].body.active == Some(true) {
        targets := targets + [table[k].source];
      }
    }
    assert order[..|order|] == order;
  }

  class RunningActor {
    const env: Env
    var dpu: Option<DpuData>
    var table: Table
    var queue: Sends
    var bridged: bool
    var stopped: bool

    ghost function Abs(): Actor
      reads this
    {
      Actor(env, dpu, table, bridged, stopped)
    }

    constructor (env: Env)
      ensures Abs() == Actor(env, None, map[], false, false) && queue == []
    {
      this.env := env;
      dpu, table, queue, bridged, stopped := None, map[], [], false, false;
    }

    method CalculateDpuState(d: DpuData) returns (up: bool, p: Option<DpuState>, b: Option<BfdState>)
      ensures (up, p, b) == Calculated(d, table)
    {
      if d.Remote? {
        return false, None, None;
      }
      p, b := PmonIn(table), BfdIn(table);
      up := false;
      if p.Some? && b.Some? {
        up := PmonUp(p.value) && BfdUp(b.value);
      }
    }

    method UpdateDpuState(target: Option<ServicePath>) returns (ghost order: seq<string>)
      modifies this`queue
      ensures queue == old(queue) + Publish(Abs(), target, order)
      ensures Walks(table, order)
    {
      order := SomeWalk(table);
      if dpu.None? {
        return;
      }
      var up, p, b := CalculateDpuState(dpu.value);
      var msg := if dpu.value.Local? then FromDpu(env.id, dpu.value, up, p, b)
                 else FromRemote(env.id, dpu.value.remote, up);
      if target.Some? {
        queue := queue + [(target.value, msg)];
        return;
      }
      var targets;
      targets, order := GetRegisteredActors(table);
      for i := 0 to |targets|
        invariant queue == old(queue) + ToAll(targets[..i], msg)
      {
        queue := queue + [(targets[i], msg)];
      }
      assert targets[..|targets|] == targets;
    }

    method HandleDpuMessage(body: Body, spawns: bool) returns (ok: bool, ghost order: seq<string>)
      requires queue == []
      modifies this
      ensures Handled(Abs(), queue, ok) == OnDpu(old(Abs()), body, spawns, order) && Walks(table, order)
    {
      order := SomeWalk(table);
      ok := true;
      if body.kfv.None? {
        return false, order;
      }
      if body.kfv.value.del {
        stopped := true;
        return;
      }
      if body.kfv.value.dpu.None? || env.npuV4.None? {
        return false, order;
      }
      var d := body.kfv.value.dpu.value;
      var managed := d.dpuId == env.slot;
      var first := dpu.None?;
      dpu := Some(DpuData.Local(d, managed, env.npuV4.value, env.npuV6));
      if managed && first {
        bridged := true;
        if !spawns {
          return false, order;
        }
      }
      order := UpdateDpuState(None);
    }

    method HandleRemoteDpuMessage(body: Body) returns (ok: bool, ghost order: seq<string>)
      requires queue == []
      modifies this
      ensures Handled(Abs(), queue, ok) == OnRemote(old(Abs()), body, order) && Walks(table, order)
    {
      order := SomeWalk(table);
      ok := true;
      if dpu.Some? && dpu.value.Local? {
        return body.kfv.Some? && body.kfv.value.remote.Some? && HasGlobalConfig(table), order;
      }
      if body.kfv.None? {
        return false, order;
      }
      if body.kfv.value.del {
        stopped := true;
        return;
      }
      if body.kfv.value.remote.None? {
        return false, order;
      }
      dpu := Some(DpuData.Remote(body.kfv.value.remote.value));
      order := UpdateDpuState(None);
    }

    method HandleRegistration(e: Entry) returns (ok: bool, ghost order: seq<string>)
      requires queue == [] && dpu.Some?
      modifies this`queue
      ensures Walks(table, order) && ok == e.body.active.Some?
      ensures queue == if e.body.active == Some(true) then Publish(Abs(), Some(e.source), order) else []
    {
      order := SomeWalk(table);
      if e.body.active.None? {
        return false, order;
      }
      if e.body.active.value {
        order := UpdateDpuState(Some(e.source));
      }
      ok := true;
    }

    /** A message is put in the table and handled. */
    method HandleMessage(key: string, entry: Entry, spawns: bool) returns (ok: bool, ghost order: seq<string>)
      requires queue == []
      modifies this
      ensures var heard := old(Abs()).(table := old(table)[key := entry]);
              Walks(heard.table, order) && Handled(Abs(), queue, ok) == Handle(heard, key, spawns, order)
    {
      table := table[key := entry];
      order := SomeWalk(table);
      if key == DPU {
        ok, order := HandleDpuMessage(entry.body, spawns);
      } else if REMOTE_DPU <= key {
        ok, order := HandleRemoteDpuMessage(entry.body);
      } else if dpu.None? {
        ok := true;
      } else if REGISTER <= key {
        ok, order := HandleRegistration(entry);
      } else if dpu.value.Remote? || !dpu.value.managed {
        ok := true;
      } else if key == GLOBAL_CONFIG {
        ok := HasGlobalConfig(table);
      } else {
        if key == DPU_STATE || key == BFD_STATE {
          order := UpdateDpuState(None);
        }
        ok := true;
      }
    }
  }
}
