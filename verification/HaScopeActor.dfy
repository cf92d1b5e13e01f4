/** The HA-scope actor as it runs: handlers that update its fields and the NPU row in place, loop by loop,
    proved against the state machine (crates/hamgrd/src/actors/ha_scope.rs). */
module HaScopeActor {
  import opened Wrappers
  import opened Orders
  import opened NpuRow
  import HaScope
  import opened HaScopeRuns
  import opened HaScopeDatabase
  import opened HaScopeOrders
  import Table = InternalTable
  import OutgoingTable

  type Scope = HaScope.Scope
  type Request = HaScope.Request
  type Config = HaScope.Config

  datatype Outcome = Done | Failed | Panicked

  /** The handler ends as specified, and leaves the specified state if it succeeds. */
  ghost predicate Matches(r: HaScope.Res<Scope>, out: Outcome, s: Scope) {
    match r
    case Okay(s') => out.Done? && s == s'
    case Fails => out.Failed?
    case Panics => out.Panicked?
  }

  // -------------------------------------------------------------------- loops

  /** Two lists collected into a map. */
  method Collect(ids: seq<string>, types: seq<string>) returns (p: Pending)
    requires |ids| == |types|
    ensures p == Zip(ids, types)
  {
    p := map[];
    for i := 0 to |ids|
      invariant p == Zip(ids[..i], types[..i])
    {
      p := p[ids[i] := types[i]];
      assert ids[..i + 1][..i] == ids[..i] && types[..i + 1][..i] == types[..i];
    }
    assert ids[..|ids|] == ids && types[..|ids|] == types;
  }

  /** A map walked into two lists, in whatever order it comes. */
  method Walk(p: Pending) returns (ids: seq<string>, types: seq<string>)
    ensures Enumerates(ids, p.Keys) && types == HaScope.TypesOf(p, ids)
  {
    ids, types := [], [];
    var rest := p.Keys;
    while rest != {}
      invariant rest <= p.Keys
      invariant forall id :: id in ids <==> id in p.Keys - rest
      invariant forall i, j :: 0 <= i < j < |ids| ==> ids[i] != ids[j]
      invariant |types| == |ids| && forall i :: 0 <= i < |ids| ==> ids[i] in p && types[i] == p[ids[i]]
      decreases |rest|
    {
      var id :| id in rest;
      assert id !in ids;
      ids, types := ids + [id], types + [p[id]];
      rest := rest - {id};
    }
  }

  method Amend(p: Pending, added: seq<(string, string)>, approved: seq<string>) returns (q: Pending)
    ensures q == HaScope.Amended(p, added, approved)
  {
    q := p;
    for i := 0 to |approved|
      invariant q == p - (set id | id in approved[..i])
    {
      q := q - {approved[i]};
      assert approved[..i + 1] == approved[..i] + [approved[i]];
    }
    assert approved[..|approved|] == approved;
    for j := 0 to |added|
      invariant HaScope.AddAll(q, added[j..]) == HaScope.Amended(p, added, approved)
    {
      q := q[added[j].0 := added[j].1];
    }
  }

  /** The flags that approved operations still pending raise. */
  method Raise(approved: seq<string>, p: Pending) returns (activate: bool, reconcile: bool, raisedBy: set<string>)
    ensures var a, f := HaScope.Raisers(approved, p, "activate_role"), HaScope.Raisers(approved, p, "flow_reconcile");
            activate == (a != {}) && reconcile == (f != {}) && raisedBy == a + f
  {
    activate, reconcile, raisedBy := false, false, {};
    ghost var a, f: set<string> := {}, {};
    for i := 0 to |approved|
      invariant a == HaScope.Raisers(approved[..i], p, "activate_role")
      invariant f == HaScope.Raisers(approved[..i], p, "flow_reconcile")
      invariant activate == (a != {}) && reconcile == (f != {}) && raisedBy == a + f
    {
      var id := approved[i];
      assert approved[..i + 1] == approved[..i] + [id];
      if id in p {
        if p[id] == "activate_role" {
          activate, raisedBy := true, raisedBy + {id};
          a := a + {id};
          assert "activate_role"[0] != "flow_reconcile"[0];
        } else if p[id] == "flow_reconcile" {
          reconcile, raisedBy := true, raisedBy + {id};
          f := f + {id};
        }
      }
    }
    assert approved[..|approved|] == approved;
  }

  /** The operations a DPU state asks for. */
  method NewOperations(prev: Option<HaScope.DpuScope>, d: HaScope.DpuScope, ids: (string, string, string))
    returns (ops: seq<(string, string)>)
    ensures ops == HaScope.Operations(prev, d, ids)
  {
    ops := [];
    if d.activateRole && !(prev.Some? && prev.value.activateRole) {
      ops := ops + [(ids.0, "activate_role")];
    }
    if d.brainsplitRecover && !(prev.Some? && prev.value.brainsplitRecover) {
      ops := ops + [(ids.1, "brainsplit_recover")];
    }
    if d.flowReconcile && !(prev.Some? && prev.value.flowReconcile) {
      ops := ops + [(ids.2, "flow_reconcile")];
    }
  }

  /** `get_pending_operations` on a decoded row. */
  method PendingIn(v: Npu) returns (p: Option<Pending>)
    ensures p == PendingOf(v)
  {
    if PendingIds in v && PendingTypes in v && v[PendingIds].VSome? && v[PendingTypes].VSome? {
      var ids, types := StringsOf(v[PendingIds]), StringsOf(v[PendingTypes]);
      if |ids| != |types| {
        return None;
      }
      var q := Collect(ids, types);
      return Some(q);
    }
    return Some(map[]);
  }

  method PendingInRow(codec: Codec, row: Row) returns (p: Option<Pending>)
    ensures p == HaScope.PendingFromRow(codec, row)
  {
    if row == map[] {
      return Some(map[]);
    }
    var v := codec.decode(row);
    if v.None? {
      return None;
    }
    p := PendingIn(v.value);
  }

  // -------------------------------------------------------------------- actor

  /** The row that the actor's entry holds, if there is one. */
  function RowIn(t: Tables): Option<Row> { if KEY in t.entries then Some(t.entries[KEY].fvs) else None }

  class Actor {
    const codec: Codec
    const internal: Table.Internal<NpuField>
    /** The row of the database that the entry stands for. */
    const at: Table.Row
    var config: Option<Config>
    var dpu: Option<HaScope.DpuScope>
    var vdpuIn: Option<HaScope.VDpu>
    var hasetIn: Option<HaScope.HaSet>
    var dpuIn: Option<HaScope.DpuScope>
    var requests: seq<Request>
    var registrations: seq<HaScope.Registration>
    var stopped: bool

    ghost function Abs(): Scope
      reads this, internal
    {
      HaScope.Scope(codec, config, dpu, vdpuIn, hasetIn, dpuIn, RowIn(internal.Abs()), requests, registrations, stopped)
    }

    constructor (codec: Codec, internal: Table.Internal<NpuField>, at: Table.Row)
      requires KEY !in internal.entries
      ensures Abs() == HaScope.NewScope(codec) && this.internal == internal && this.at == at
    {
      this.codec, this.internal, this.at := codec, internal, at;
      config, dpu, vdpuIn, hasetIn, dpuIn := None, None, None, None, None;
      requests, registrations, stopped := [], [], false;
    }

    method GetRow() returns (row: Option<Row>)
      ensures row == Abs().row
    {
      row := if KEY in internal.entries then Some(internal.entries[KEY].fvs) else None;
    }

    method WriteRow(row: Row)
      requires KEY in internal.entries
      modifies internal
      ensures Applied(old(internal.Abs()), [Table.Write(KEY, row)], internal.Abs())
      ensures Abs() == old(Abs()).(row := Some(row))
    {
      AppliedOne(internal.Abs(), Table.Write(KEY, row));
      internal.Write(KEY, row);
    }

    method UpdateDpuTable(c: Config) returns (out: Outcome)
      modifies this`requests
      ensures match HaScope.RequestFor(codec, c, Abs().row)
              case Okay(q) => out.Done? && requests == old(requests) + [q]
              case Fails => out.Failed? && requests == old(requests)
              case Panics => out.Panicked? && requests == old(requests)
    {
      var activate, reconcile, raisedBy := false, false, {};
      if c.ApprovedIds() != [] {
        var row := GetRow();
        if row.None? {
          return Panicked;
        }
        var p := PendingInRow(codec, row.value);
        if p.None? {
          return Failed;
        }
        activate, reconcile, raisedBy := Raise(c.ApprovedIds(), p.value);
      }
      requests := requests + [HaScope.Request(c.version, c.disable, c.desiredHaState, reconcile, activate, raisedBy)];
      return Done;
    }

    method UpdateBase(now: int) returns (out: Outcome)
      modifies internal
      ensures Matches(HaScope.UpdateBase(old(Abs()), now), out, Abs())
      ensures out.Done? ==> Applied(old(internal.Abs()), BaseOps(old(Abs()), now), internal.Abs())
    {
      if config.None? || vdpuIn.None? || !vdpuIn.value.managed || hasetIn.None? {
        return Done;
      }
      var row := GetRow();
      if row.None? {
        return Panicked;
      }
      var v := HaScope.FieldsOf(codec, row.value);
      var u := HaScope.BaseFields(HaScope.PmonOr(vdpuIn.value, now), HaScope.BfdOr(vdpuIn.value, now), hasetIn.value);
      WriteRow(codec.encode(v + u));
      return Done;
    }

    method UpdateHaState() returns (out: Outcome)
      modifies internal
      ensures Matches(HaScope.UpdateHaState(old(Abs())), out, Abs())
      ensures !out.Failed?
      ensures out.Done? ==> Applied(old(internal.Abs()), HaOps(old(Abs())), internal.Abs())
    {
      if config.None? {
        return Done;
      }
      var row := GetRow();
      if row.None? {
        return Panicked;
      }
      var v := HaScope.NpuOf(codec, row.value);
      if v.Some? && dpuIn.Some? {
        WriteRow(codec.encode(v.value + HaScope.HaFields(config.value, dpuIn.value)));
      }
      return Done;
    }

    method UpdatePending(added: seq<(string, string)>, approved: seq<string>, now: int)
      returns (out: Outcome, order: seq<string>)
      modifies internal
      ensures Matches(HaScope.UpdatePending(old(Abs()), added, approved, order, now), out, Abs())
      ensures out.Failed? ==> internal.Abs() == old(internal.Abs())
      ensures !out.Panicked? ==>
                Applied(old(internal.Abs()), LedgerOps(old(Abs()), added, approved, order, now), internal.Abs())
      ensures var written := LedgerWritten(old(Abs()), added, approved);
              written.Some? ==> Enumerates(order, written.value.Keys)
    {
      order := [];
      if config.None? {
        return Done, order;
      }
      var row := GetRow();
      if row.None? {
        return Panicked, order;
      }
      var v := HaScope.NpuOf(codec, row.value);
      if v.None? {
        return Done, order;
      }
      var p := PendingIn(v.value);
      if p.None? {
        return Failed, order;
      }
      var q := Amend(p.value, added, approved);
      if q == p.value {
        return Done, order;
      }
      var types;
      order, types := Walk(q);
      WriteRow(codec.encode(v.value + HaScope.PendingFields(order, types, now)));
      return Done, order;
    }

    // ---------------------------------------------------------------- handlers

    method PutConfig(c: Config, now: int) returns (out: Outcome, order: seq<string>)
      modifies this, internal
      ensures Matches(HaScope.OnConfig(old(Abs()), c, order, now), out, Abs())
      ensures out.Done? ==> Applied(old(internal.Abs()), ConfigOps(old(Abs()), c, order, now), internal.Abs())
      ensures var written := WrittenByConfig(old(Abs()), c);
              written.Some? ==> Enumerates(order, written.value.Keys)
    {
      order := [];
      var first := config.None?;
      config := Some(c);
      if first {
        registrations := registrations + [HaScope.ToVDpu(true), HaScope.ToHaSet(true)];
      }
      ghost var s1, t1 := Abs(), internal.Abs();
      assert s1 == WithConfig(old(Abs()), c);
      if vdpuIn.None? || !vdpuIn.value.managed {
        return Done, order;
      }
      out := UpdateDpuTable(c);
      if !out.Done? {
        return if out.Failed? then Done else out, order;
      }
      ghost var s2 := Abs();
      assert s2 == s1.(requests := s2.requests);
      out := UpdateHaState();
      ghost var s3, t3 := Abs(), internal.Abs();
      if out.Done? && c.ApprovedIds() != [] {
        out, order := UpdatePending([], c.ApprovedIds(), now);
        if !out.Panicked? {
          AppliedJoin(t1, HaOps(s2), t3, LedgerOps(s3, [], c.ApprovedIds(), order, now), internal.Abs());
        }
        if out.Failed? {
          out := Done;
        }
      } else if out.Done? {
        assert HaOps(s2) + [] == HaOps(s2);
      }
    }

    /** A configuration message; `order` is the order in which the ledger is written, if it is. */
    method HandleConfig(update: HaScope.ConfigUpdate, now: int) returns (out: Outcome, order: seq<string>)
      modifies this, internal
      ensures var ev := HaScope.ConfigMsg(update, order, now);
              Handled(old(Abs()), old(internal.Abs()), ev, out, Abs(), internal.Abs(), at)
    {
      out, order := Done, [];
      match update
      case Undecodable =>
      case Delete =>
        if config.Some? {
          registrations := registrations + [HaScope.ToVDpu(false), HaScope.ToHaSet(false)];
        }
        stopped := true;
      case Put(c) =>
        out, order := PutConfig(c, now);
    }

    /** A vDPU update; `dbRow` is what the database holds. */
    method HandleVDpu(vdpu: Option<HaScope.VDpu>, now: int) returns (out: Outcome, ghost dbRow: Row)
      modifies this, internal
      ensures dbRow == Table.FromDb(old(internal.db), at)
      ensures var ev := HaScope.VDpuMsg(vdpu, dbRow, now);
              Handled(old(Abs()), old(internal.Abs()), ev, out, Abs(), internal.Abs(), at)
    {
      dbRow := Table.FromDb(internal.db, at);
      vdpuIn := vdpu;
      if config.None? || vdpuIn.None? || !vdpuIn.value.managed {
        return Done, dbRow;
      }
      ghost var s0, t0 := Abs(), internal.Abs();
      if KEY !in internal.entries {
        AppliedOne(t0, Table.Add(KEY, at));
        internal.Add(KEY, at);
      }
      ghost var added, t1 := if KEY in t0.entries then [] else [Table.Add(KEY, at)], internal.Abs();
      out := UpdateDpuTable(config.value);
      if out.Done? {
        ghost var s2 := Abs();
        out := UpdateBase(now);
        if out.Done? {
          AppliedJoin(t0, added, t1, BaseOps(s2, now), internal.Abs());
        }
      }
    }

    method HandleHaSet(haset: Option<HaScope.HaSet>, now: int) returns (out: Outcome)
      modifies this, internal
      ensures Handled(old(Abs()), old(internal.Abs()), HaScope.HaSetMsg(haset, now), out, Abs(), internal.Abs(), at)
    {
      hasetIn := haset;
      out := UpdateBase(now);
    }

    method HandleDpu(d: Option<HaScope.DpuScope>, ids: (string, string, string), now: int)
      returns (out: Outcome, order: seq<string>)
      modifies this, internal
      ensures var ev := HaScope.DpuMsg(d, ids, order, now);
              Handled(old(Abs()), old(internal.Abs()), ev, out, Abs(), internal.Abs(), at)
    {
      order := [];
      dpuIn := d;
      if config.None? || d.None? {
        return Done, order;
      }
      var ops := NewOperations(dpu, d.value, ids);
      dpu := d;
      ghost var s0, t0 := Abs(), internal.Abs();
      out := UpdateHaState();
      ghost var s1, t1 := Abs(), internal.Abs();
      if out.Done? && ops != [] {
        out, order := UpdatePending(ops, [], now);
        if out.Done? {
          AppliedJoin(t0, HaOps(s0), t1, LedgerOps(s1, ops, [], order, now), internal.Abs());
        }
      } else if out.Done? {
        assert HaOps(s0) + [] == HaOps(s0);
      }
    }
  }

  /** A handler that succeeds, and the commit after it, are a driver step of the machine on the table. */
  lemma HandledAndCommitted(s: Scope, t: Tables, ev: HaScope.Event, s': Scope, t1: Tables, order: seq<string>, now: nat,
                            at: Table.Row)
    requires Handled(s, t, ev, Done, s', t1, at) && Table.Walks(order, t1)
    requires Loads(s, ev) ==> ev.dbRow == Table.FromDb(t.db, at)
    ensures TableStep(t, s, ev, Table.CommitAll(t1, order, now), at)
  {
    var around := Around(OutgoingTable.EmptyOut(0), [], now, order);
    assert Calls(t, RowOps(s, ev, at), true, around, Table.CommitAll(t1, order, now));
  }

  /** The handler ends as specified. If it succeeds, it leaves the specified state, has made the specified changes to
      the internal table and no others, and has written the ledger, if at all, in an order that lists it. */
  ghost predicate Handled(s: Scope, t: Tables, ev: HaScope.Event, out: Outcome, s': Scope, t': Tables, at: Table.Row) {
    && Matches(HaScope.Step(s, ev), out, s')
    && (out.Done? ==> Applied(t, RowOps(s, ev, at), t'))
    && WritesInOrder(s, ev)
  }
}
