/** The HA-scope actor on the actor runtime: its row in the internal table and in the database
    (crates/hamgrd/src/actors/ha_scope.rs, crates/swbus-actor/src/state/internal.rs, driver.rs). */
module HaScopeDatabase {
  import opened Wrappers
  import opened NpuRow
  import opened HaScope
  import opened HaScopeRuns
  import opened HaScopeLedger
  import Table = InternalTable
  import Driver
  import OutgoingTable

  type TableOp = Table.TableOp<NpuField>

  type Tables = Table.Tables<NpuField>

  /** The key of the actor's one entry. */
  const KEY := "DASH_HA_SCOPE_STATE"

  // ----------------------------------------------- what the handlers do to the table

  function WriteOf(s: Scope): seq<TableOp> { if s.row.Some? then [Table.Write(KEY, s.row.value)] else [] }

  /** The base update overwrites the row whenever it has what it needs. */
  function BaseOps(s: Scope, now: int): seq<TableOp> {
    var r := UpdateBase(s, now);
    if s.config.Some? && Managed(s) && s.hasetIn.Some? && r.Okay? then WriteOf(r.value) else []
  }

  /** The HA-state update overwrites a row that can be read. */
  function HaOps(s: Scope): seq<TableOp> {
    if s.config.Some? && s.row.Some? && NpuOf(s.codec, s.row.value).Some? && s.dpuIn.Some?
    then WriteOf(UpdateHaState(s).value)
    else []
  }

  /** The row can be read, and these additions and approvals change its ledger. */
  predicate LedgerChanges(s: Scope, added: seq<(string, string)>, approved: seq<string>) {
    && s.config.Some? && s.row.Some? && NpuOf(s.codec, s.row.value).Some?
    && var p := PendingOf(NpuOf(s.codec, s.row.value).value);
    p.Some? && Amended(p.value, added, approved) != p.value
  }

  /** The pending update overwrites the row when the ledger changes. */
  function LedgerOps(s: Scope, added: seq<(string, string)>, approved: seq<string>, order: seq<string>,
                     now: int): seq<TableOp> {
    if LedgerChanges(s, added, approved) then WriteOf(UpdatePending(s, added, approved, order, now).value) else []
  }

  function ConfigOps(s: Scope, c: Config, order: seq<string>, now: int): seq<TableOp> {
    var s1 := WithConfig(s, c);
    var request := RequestFor(s.codec, c, s1.row);
    if !Managed(s1) || !request.Okay? then []
    else
      var s2 := s1.(requests := s1.requests + [request.value]);
      var s3 := UpdateHaState(s2);
      if !s3.Okay? then []
      else HaOps(s2) + if c.ApprovedIds() == [] then [] else LedgerOps(s3.value, [], c.ApprovedIds(), order, now)
  }

  function VDpuOps(s: Scope, at: Table.Row, dbRow: Row, now: int): seq<TableOp> {
    if s.config.None? || !Managed(s) then []
    else
      var s1 := if s.row.None? then s.(row := Some(dbRow)) else s;
      var request := RequestFor(s.codec, s1.config.value, s1.row);
      (if s.row.None? then [Table.Add(KEY, at)] else [])
      + if request.Okay? then BaseOps(s1.(requests := s1.requests + [request.value]), now) else []
  }

  function DpuOps(s: Scope, ids: (string, string, string), order: seq<string>, now: int): seq<TableOp> {
    if s.config.None? || s.dpuIn.None? then []
    else
      var s0 := s.(dpu := s.dpuIn);
      var ops := Operations(s.dpu, s.dpuIn.value, ids);
      var s1 := UpdateHaState(s0);
      if !s1.Okay? then []
      else HaOps(s0) + if ops == [] then [] else LedgerOps(s1.value, ops, [], order, now)
  }

  /** The changes to the internal table that a handler makes, in order; `at` is the actor's row in the database. */
  function RowOps(s: Scope, ev: Event, at: Table.Row): seq<TableOp> {
    match ev
    case ConfigMsg(Put(c), order, now) => ConfigOps(s, c, order, now)
    case ConfigMsg(_, _, _) => []
    case VDpuMsg(v, dbRow, now) => VDpuOps(s.(vdpuIn := v), at, dbRow, now)
    case HaSetMsg(h, now) => BaseOps(s.(hasetIn := h), now)
    case DpuMsg(d, ids, order, now) => DpuOps(s.(dpuIn := d), ids, order, now)
  }

  /** These changes were made to the table. */
  predicate Applied(t: Tables, ops: seq<TableOp>, t': Tables) { Table.LegalAll(t, ops) && t' == Table.ApplyAll(t, ops) }

  lemma {:induction false} AppliedJoin(t: Tables, a: seq<TableOp>, mid: Tables, b: seq<TableOp>, t': Tables)
    requires Applied(t, a, mid) && Applied(mid, b, t')
    ensures Applied(t, a + b, t')
    decreases |a|
  {
    if a == [] {
      assert a + b == b;
    } else {
      AppliedJoin(Table.Apply(t, a[0]), a[1..], mid, b, t');
      assert (a + b)[1..] == a[1..] + b;
    }
  }

  lemma AppliedOne(t: Tables, op: TableOp)
    requires Table.Legal(t, op)
    ensures Applied(t, [op], Table.Apply(t, op))
  {
    assert [op][1..] == [];
  }

  // --------------------------------------------------------- playing the changes

  function Played1(row: Option<Row>, op: TableOp, dbRow: Row): Option<Row> {
    match op case Add(_, _) => Some(dbRow) case Write(_, fvs) => Some(fvs)
  }

  /** The row after these changes; an added entry holds the database row. */
  function Played(row: Option<Row>, ops: seq<TableOp>, dbRow: Row): Option<Row>
    decreases |ops|
  {
    if ops == [] then row else Played(Played1(row, ops[0], dbRow), ops[1..], dbRow)
  }

  /** The changes concern the one entry, and it is there when it is written. */
  predicate Playable(row: Option<Row>, ops: seq<TableOp>, at: Table.Row)
    decreases |ops|
  {
    ops == [] ||
    (&& ops[0].key == KEY && (ops[0].Add? ==> ops[0].row == at) && (ops[0].Write? ==> row.Some?)
     && Playable(Some(map[]), ops[1..], at))
  }

  lemma {:induction false} PlayedJoin(row: Option<Row>, a: seq<TableOp>, b: seq<TableOp>, dbRow: Row, at: Table.Row)
    requires Playable(row, a, at) && Playable(Played(row, a, dbRow), b, at)
    ensures Playable(row, a + b, at) && Played(row, a + b, dbRow) == Played(Played(row, a, dbRow), b, dbRow)
    decreases |a|
  {
    if a == [] {
      assert a + b == b;
    } else {
      assert (a + b)[1..] == a[1..] + b;
      PlayableSome(Some(map[]), Played1(row, a[0], dbRow), a[1..], at);
      PlayedJoin(Played1(row, a[0], dbRow), a[1..], b, dbRow, at);
      PlayableSome(Played1(row, a[0], dbRow), Some(map[]), a[1..] + b, at);
    }
  }

  lemma PlayableSome(x: Option<Row>, y: Option<Row>, ops: seq<TableOp>, at: Table.Row)
    requires x.Some? && y.Some? && Playable(x, ops, at)
    ensures Playable(y, ops, at)
  {
  }

  /** The changes can be made and leave this row. */
  predicate Reaches(row: Option<Row>, ops: seq<TableOp>, row': Option<Row>, dbRow: Row, at: Table.Row) {
    Playable(row, ops, at) && Played(row, ops, dbRow) == row'
  }

  lemma ReachesJoin(row: Option<Row>, a: seq<TableOp>, mid: Option<Row>, b: seq<TableOp>, row': Option<Row>, dbRow: Row,
                    at: Table.Row)
    requires Reaches(row, a, mid, dbRow, at) && Reaches(mid, b, row', dbRow, at)
    ensures Reaches(row, a + b, row', dbRow, at)
  {
    PlayedJoin(row, a, b, dbRow, at);
  }

  lemma OneWrite(row: Option<Row>, s': Scope, dbRow: Row, at: Table.Row)
    requires row.Some? && s'.row.Some?
    ensures Reaches(row, WriteOf(s'), s'.row, dbRow, at)
  {
    var op := Table.Write(KEY, s'.row.value);
    assert [op][1..] == [];
  }

  lemma OneAdd(dbRow: Row, at: Table.Row)
    ensures Reaches(None, [Table.Add(KEY, at)], Some(dbRow), dbRow, at)
  {
    var ops: seq<TableOp> := [Table.Add(KEY, at)];
    assert ops[1..] == [];
  }

  lemma BaseReaches(s: Scope, now: int, dbRow: Row, at: Table.Row)
    requires UpdateBase(s, now).Okay?
    ensures Reaches(s.row, BaseOps(s, now), UpdateBase(s, now).value.row, dbRow, at)
  {
    if BaseOps(s, now) != [] {
      OneWrite(s.row, UpdateBase(s, now).value, dbRow, at);
    }
  }

  lemma HaReaches(s: Scope, dbRow: Row, at: Table.Row)
    requires UpdateHaState(s).Okay?
    ensures Reaches(s.row, HaOps(s), UpdateHaState(s).value.row, dbRow, at)
  {
    if HaOps(s) != [] {
      OneWrite(s.row, UpdateHaState(s).value, dbRow, at);
    }
  }

  lemma LedgerReaches(s: Scope, added: seq<(string, string)>, approved: seq<string>, order: seq<string>, now: int,
                      dbRow: Row, at: Table.Row)
    requires UpdatePending(s, added, approved, order, now).Okay?
    ensures Reaches(s.row, LedgerOps(s, added, approved, order, now),
                    UpdatePending(s, added, approved, order, now).value.row, dbRow, at)
  {
    if LedgerOps(s, added, approved, order, now) != [] {
      OneWrite(s.row, UpdatePending(s, added, approved, order, now).value, dbRow, at);
    }
  }

  lemma ConfigReaches(s: Scope, c: Config, order: seq<string>, now: int, dbRow: Row, at: Table.Row)
    requires OnConfig(s, c, order, now).Okay?
    ensures Reaches(s.row, ConfigOps(s, c, order, now), OnConfig(s, c, order, now).value.row, dbRow, at)
  {
    var s1 := WithConfig(s, c);
    var request := RequestFor(s.codec, c, s1.row);
    if Managed(s1) && request.Okay? {
      var s2 := s1.(requests := s1.requests + [request.value]);
      HaReaches(s2, dbRow, at);
      var s3 := UpdateHaState(s2).value;
      var ids := c.ApprovedIds();
      var more := if ids == [] then [] else LedgerOps(s3, [], ids, order, now);
      var r := UpdatePending(s3, [], ids, order, now);
      var row' := if ids != [] && r.Okay? then r.value.row else s3.row;
      if ids != [] && r.Okay? {
        LedgerReaches(s3, [], ids, order, now, dbRow, at);
      }
      ReachesJoin(s.row, HaOps(s2), s3.row, more, row', dbRow, at);
    }
  }

  lemma VDpuReaches(s: Scope, at: Table.Row, loaded: Row, now: int, dbRow: Row)
    requires OnVDpu(s, loaded, now).Okay? && (s.config.Some? && Managed(s) && s.row.None? ==> loaded == dbRow)
    ensures Reaches(s.row, VDpuOps(s, at, loaded, now), OnVDpu(s, loaded, now).value.row, dbRow, at)
  {
    if s.config.Some? && Managed(s) {
      var s1 := if s.row.None? then s.(row := Some(loaded)) else s;
      var s2 := s1.(requests := s1.requests + [RequestFor(s.codec, s.config.value, s1.row).value]);
      var added := if s.row.None? then [Table.Add(KEY, at)] else [];
      OneAdd(dbRow, at);
      BaseReaches(s2, now, dbRow, at);
      ReachesJoin(s.row, added, s1.row, BaseOps(s2, now), OnVDpu(s, loaded, now).value.row, dbRow, at);
    }
  }

  lemma DpuReaches(s: Scope, ids: (string, string, string), order: seq<string>, now: int, dbRow: Row, at: Table.Row)
    requires OnDpu(s, ids, order, now).Okay?
    ensures Reaches(s.row, DpuOps(s, ids, order, now), OnDpu(s, ids, order, now).value.row, dbRow, at)
  {
    if s.config.Some? && s.dpuIn.Some? {
      var s0 := s.(dpu := s.dpuIn);
      var ops := Operations(s.dpu, s.dpuIn.value, ids);
      HaReaches(s0, dbRow, at);
      var s1 := UpdateHaState(s0).value;
      var more := if ops == [] then [] else LedgerOps(s1, ops, [], order, now);
      if ops != [] {
        LedgerReaches(s1, ops, [], order, now, dbRow, at);
      }
      ReachesJoin(s.row, HaOps(s0), s1.row, more, OnDpu(s, ids, order, now).value.row, dbRow, at);
    }
  }

  /** In any state, a handler that succeeds makes changes to the table that lead from the row of the state to the row
      of the next state. */
  lemma RowOpsReach(s: Scope, ev: Event, dbRow: Row, at: Table.Row)
    requires Step(s, ev).Okay? && (Loads(s, ev) ==> dbRow == ev.dbRow)
    ensures Reaches(s.row, RowOps(s, ev, at), Step(s, ev).value.row, dbRow, at)
  {
    match ev
    case ConfigMsg(Put(c), order, now) => ConfigReaches(s, c, order, now, dbRow, at);
    case ConfigMsg(_, _, _) =>
    case VDpuMsg(v, loaded, now) => VDpuReaches(s.(vdpuIn := v), at, loaded, now, dbRow);
    case HaSetMsg(h, now) => BaseReaches(s.(hasetIn := h), now, dbRow, at);
    case DpuMsg(d, ids, order, now) => DpuReaches(s.(dpuIn := d), ids, order, now, dbRow, at);
  }

  // -------------------------------------------------------- the table and the database

  /** The table has the actor's entry and no other, and it holds this row. */
  predicate Holds(t: Tables, row: Option<Row>, at: Table.Row) {
    && (forall k :: k in t.entries ==> k == KEY && row.Some?)
    && (row.Some? ==> KEY in t.entries && t.entries[KEY].row == at && t.entries[KEY].fvs == row.value)
  }

  lemma {:induction false} Plays(t: Tables, row: Option<Row>, ops: seq<TableOp>, at: Table.Row)
    requires Holds(t, row, at) && Playable(row, ops, at)
    ensures Table.LegalAll(t, ops)
    ensures Holds(Table.ApplyAll(t, ops), Played(row, ops, Table.FromDb(t.db, at)), at)
    decreases |ops|
  {
    if ops != [] {
      var row1 := Played1(row, ops[0], Table.FromDb(t.db, at));
      PlayableSome(Some(map[]), row1, ops[1..], at);
      Plays(Table.Apply(t, ops[0]), row1, ops[1..], at);
    }
  }

  /** The row of the state is what the table holds, committed, and what the database holds. */
  ghost predicate Mirrors(t: Tables, s: Scope, at: Table.Row) {
    && Table.Settled(t) && Holds(t, s.row, at)
    && (s.row.Some? ==> at in t.db && t.db[at] == s.row.value)
  }

  lemma Committed(t: Tables, row: Option<Row>, at: Table.Row, order: seq<string>, now: nat)
    requires Holds(t, row, at) && Table.Walks(order, t)
    ensures var t' := Table.CommitAll(t, order, now);
            && Table.Settled(t') && Holds(t', row, at)
            && (row.Some? ==> at in t'.db && t'.db[at] == row.value)
  {
    if row.Some? {
      Table.RowWritten(t, order, KEY);
    }
  }

  /** The rest of the driver's step: the outgoing tables, the messages the handler queues, the clock, and the order in
      which the internal table is walked. */
  datatype Around = Around(out: OutgoingTable.Out, mails: seq<Driver.Mail>, now: nat, order: seq<string>)

  /** The driver runs a callback that makes these changes and succeeds or fails. */
  ghost predicate Calls(t: Tables, ops: seq<TableOp>, ok: bool, around: Around, t': Tables) {
    && Table.LegalAll(t, ops) && (ok ==> Table.Walks(around.order, Table.ApplyAll(t, ops)))
    && t' == Driver.Callback(Driver.Actor(t, around.out), Driver.Script(ops, around.mails, ok, false), around.now,
                             around.order).tables
  }

  /** What a driver step around a handler does to the table. An entry added anew holds what the database holds, and a
      panic ends the actor. */
  ghost predicate TableStep(t: Tables, s: Scope, ev: Event, t': Tables, at: Table.Row) {
    && (Loads(s, ev) ==> ev.dbRow == Table.FromDb(t.db, at))
    && match Step(s, ev)
       case Okay(_) => exists around :: Calls(t, RowOps(s, ev, at), true, around, t')
       case Fails => exists around :: Calls(t, RowOps(s, ev, at), false, around, t')
       case Panics => t' == t
  }

  lemma OkayMirrors(t: Tables, s: Scope, ev: Event, t': Tables, at: Table.Row)
    requires Mirrors(t, s, at) && Step(s, ev).Okay? && TableStep(t, s, ev, t', at)
    ensures Mirrors(t', Step(s, ev).value, at)
  {
    var ops := RowOps(s, ev, at);
    RowOpsReach(s, ev, Table.FromDb(t.db, at), at);
    Plays(t, s.row, ops, at);
    var around :| Calls(t, ops, true, around, t');
    Committed(Table.ApplyAll(t, ops), Step(s, ev).value.row, at, around.order, around.now);
  }

  /** Such a step is always possible: the handler's changes are legal, and the table can be walked. It leaves the
      database alone while there is no row. */
  lemma OkayCalls(t: Tables, s: Scope, ev: Event, at: Table.Row) returns (t': Tables)
    requires Mirrors(t, s, at) && Step(s, ev).Okay? && (Loads(s, ev) ==> ev.dbRow == Table.FromDb(t.db, at))
    ensures TableStep(t, s, ev, t', at)
    ensures Step(s, ev).value.row.None? ==> t'.db == t.db
  {
    var ops := RowOps(s, ev, at);
    RowOpsReach(s, ev, Table.FromDb(t.db, at), at);
    Plays(t, s.row, ops, at);
    Table.DbUntouched(t, ops);
    var t1 := Table.ApplyAll(t, ops);
    var around := Around(OutgoingTable.EmptyOut(0), [], 0, if KEY in t1.entries then [KEY] else []);
    t' := Table.CommitAll(t1, around.order, 0);
    assert Calls(t, ops, true, around, t');
  }

  // ---------------------------------------------------------------- whole runs

  ghost predicate TableRun(states: seq<Scope>, evs: seq<Event>, tables: seq<Tables>, at: Table.Row) {
    && |tables| == |states| == |evs| + 1 && tables[0].entries == map[]
    && forall i :: 0 <= i < |evs| ==> TableStep(tables[i], states[i], evs[i], tables[i + 1], at)
  }

  lemma StepMirrors(t: Tables, s: Scope, ev: Event, s': Scope, t': Tables, at: Table.Row)
    requires Mirrors(t, s, at) && Sound(s, ev, s') && TableStep(t, s, ev, t', at)
    ensures Mirrors(t', s', at)
  {
    if !Crashes(s, ev) {
      OkayMirrors(t, s, ev, t', at);
    }
  }

  /** The row that the actor loads is the one the database holds at the start. */
  ghost predicate LoadsFrom(states: seq<Scope>, evs: seq<Event>, db: map<Table.Row, Row>, at: Table.Row)
    requires |states| == |evs| + 1
  {
    forall i :: 0 <= i < |evs| && Loads(states[i], evs[i]) ==> evs[i].dbRow == Table.FromDb(db, at)
  }

  lemma NextTables(t: Tables, s: Scope, ev: Event, s': Scope, db: map<Table.Row, Row>, at: Table.Row)
    returns (t': Tables)
    requires Mirrors(t, s, at) && Sound(s, ev, s') && (s.row.None? ==> t.db == db)
    requires Loads(s, ev) ==> ev.dbRow == Table.FromDb(db, at)
    ensures TableStep(t, s, ev, t', at) && Mirrors(t', s', at) && (s'.row.None? ==> t'.db == db)
  {
    if Crashes(s, ev) {
      t' := t;
    } else {
      t' := OkayCalls(t, s, ev, at);
    }
    StepMirrors(t, s, ev, s', t', at);
  }

  /** Every run of the state machine that loads the row of a database is a run on that database. */
  lemma {:induction false} TablesExist(cx: Codec, states: seq<Scope>, evs: seq<Event>, db: map<Table.Row, Row>,
                                       at: Table.Row, n: nat) returns (tables: seq<Tables>)
    requires Run(cx, states, evs) && LoadsFrom(states, evs, db, at) && n <= |evs|
    ensures |tables| == n + 1 && tables[0] == Table.Tables(map[], db)
    ensures forall i :: 0 <= i < n ==> TableStep(tables[i], states[i], evs[i], tables[i + 1], at)
    ensures Mirrors(tables[n], states[n], at) && (states[n].row.None? ==> tables[n].db == db)
  {
    if n == 0 {
      tables := [Table.Tables(map[], db)];
    } else {
      var before := TablesExist(cx, states, evs, db, at, n - 1);
      RunSound(cx, states, evs, n - 1);
      var t := NextTables(before[n - 1], states[n - 1], evs[n - 1], states[n], db, at);
      tables := before + [t];
      forall i | 0 <= i < n ensures TableStep(tables[i], states[i], evs[i], tables[i + 1], at) {
        if i < n - 1 {
          assert TableStep(before[i], states[i], evs[i], before[i + 1], at);
        }
      }
    }
  }

  /** After every driver step of every run, the database holds the row of the state machine. */
  lemma {:induction false} RowInDatabase(cx: Codec, states: seq<Scope>, evs: seq<Event>, tables: seq<Tables>,
                                         at: Table.Row, n: nat)
    requires Run(cx, states, evs) && TableRun(states, evs, tables, at) && n <= |evs|
    ensures Mirrors(tables[n], states[n], at)
  {
    if n > 0 {
      RowInDatabase(cx, states, evs, tables, at, n - 1);
      RunSound(cx, states, evs, n - 1);
      StepMirrors(tables[n - 1], states[n - 1], evs[n - 1], states[n], tables[n], at);
    }
  }

  lemma RowTellsPending(s: Scope)
    requires Inv(s) && s.row.Some?
    ensures PendingFromRow(s.codec, s.row.value) == Some(PendingOps(s))
  {
    PendingReads(s.codec, s.row.value);
  }

  /** So the operations that the database lists as pending are exactly those the DPU has asked for and no later
      configuration has approved. */
  lemma DatabaseLedger(cx: Codec, states: seq<Scope>, evs: seq<Event>, tables: seq<Tables>, at: Table.Row, n: nat,
                       id: string, kind: string)
    requires Run(cx, states, evs) && TableRun(states, evs, tables, at) && n <= |evs| && states[n].row.Some?
    requires PopulatedFirst(states, evs) && ApprovedWhenManaged(states, evs)
    requires NoLeftovers(cx, states, evs) && FreshIds(evs)
    ensures at in tables[n].db && PendingFromRow(cx, tables[n].db[at]).Some?
    ensures var p := PendingFromRow(cx, tables[n].db[at]).value;
            (id in p && p[id] == kind) <==> (exists i :: 0 <= i < n && Outstanding(evs, i, n, id, kind))
  {
    RowInDatabase(cx, states, evs, tables, at, n);
    RunInv(cx, states, evs, n);
    CodecStays(cx, states, evs, n);
    RowTellsPending(states[n]);
    LedgerConservation(cx, states, evs, n, id, kind);
  }
}
