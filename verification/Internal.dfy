/** The internal state table: cached rows with backup and rollback
    (crates/swbus-actor/src/state/internal.rs). A row is written to the database as a whole. */
module InternalTable {
  import opened Wrappers

  /** Field names may be of any type. */
  type FieldValues<N> = map<N, string>

  datatype Row = Row(table: string, key: string)

  datatype Entry<N> = Entry(
    row: Row, fvs: FieldValues<N>, mutated: bool, backup: FieldValues<N>, lastUpdated: Option<nat>)

  datatype Tables<N> = Tables(entries: map<string, Entry<N>>, db: map<Row, FieldValues<N>>)

  // ------------------------------------------------------------- one entry

  /** A new entry takes its fields from the database, if the row is there. */
  function Hydrate<N>(db: map<Row, FieldValues<N>>, row: Row): Entry<N> {
    Entry(row, FromDb(db, row), false, FromDb(db, row), None)
  }

  function FromDb<N>(db: map<Row, FieldValues<N>>, row: Row): FieldValues<N> { if row in db then db[row] else map[] }

  /** `fvs_mut`: the first mutable access since the last commit or drop takes the backup. */
  function Touch<N>(e: Entry<N>): Entry<N> {
    if e.mutated then e else e.(backup := e.fvs, mutated := true)
  }

  function Overwrite<N>(e: Entry<N>, fvs: FieldValues<N>): Entry<N> { Touch(e).(fvs := fvs) }

  /** Committing clears the mark; it does not refresh the backup. */
  function Commit<N>(e: Entry<N>, now: nat): Entry<N> { e.(mutated := false, lastUpdated := Some(now)) }

  function Rollback<N>(e: Entry<N>): Entry<N> { e.(mutated := false, fvs := e.backup) }

  // ------------------------------------------------------------ the table

  /** What a callback does to the table; writing to an entry that was never added panics. */
  datatype TableOp<N> = Add(key: string, row: Row) | Write(key: string, fvs: FieldValues<N>)

  predicate Legal<N>(t: Tables<N>, op: TableOp<N>) { op.Write? ==> op.key in t.entries }

  function Apply<N>(t: Tables<N>, op: TableOp<N>): Tables<N>
    requires Legal(t, op)
  {
    match op
    case Add(key, row) => t.(entries := t.entries[key := Hydrate(t.db, row)])
    case Write(key, fvs) => t.(entries := t.entries[key := Overwrite(t.entries[key], fvs)])
  }

  predicate LegalAll<N>(t: Tables<N>, ops: seq<TableOp<N>>)
    decreases |ops|
  {
    ops == [] || (Legal(t, ops[0]) && LegalAll(Apply(t, ops[0]), ops[1..]))
  }

  function ApplyAll<N>(t: Tables<N>, ops: seq<TableOp<N>>): Tables<N>
    requires LegalAll(t, ops)
    decreases |ops|
  {
    if ops == [] then t else ApplyAll(Apply(t, ops[0]), ops[1..])
  }

  function RollbackAll<N>(t: Tables<N>): Tables<N> {
    t.(entries := map k | k in t.entries :: Rollback(t.entries[k]))
  }

  /** The rows written back in the order the table is walked; of entries that share a row the last wins. */
  function WriteBack<N>(t: Tables<N>, order: seq<string>): map<Row, FieldValues<N>>
    requires forall k :: k in order ==> k in t.entries
  {
    if order == [] then t.db
    else
      var k := order[|order| - 1];
      assert k in order;
      WriteBack(t, order[..|order| - 1])[t.entries[k].row := t.entries[k].fvs]
  }

  lemma WriteNext<N>(t: Tables<N>, order: seq<string>, k: string)
    requires (forall j :: j in order ==> j in t.entries) && k in t.entries
    ensures (forall j :: j in order + [k] ==> j in t.entries)
    ensures WriteBack(t, order + [k]) == WriteBack(t, order)[t.entries[k].row := t.entries[k].fvs]
  {
    var next := order + [k];
    assert next[..|next| - 1] == order;
  }

  ghost predicate Walks<N>(order: seq<string>, t: Tables<N>) { forall k :: k in order <==> k in t.entries }

  /** Every entry is committed and written, whether or not the callback touched it. */
  ghost function CommitAll<N>(t: Tables<N>, order: seq<string>, now: nat): Tables<N>
    requires Walks(order, t)
  {
    Tables(map k | k in t.entries :: Commit(t.entries[k], now), WriteBack(t, order))
  }

  predicate Settled<N>(t: Tables<N>) { forall k :: k in t.entries ==> !t.entries[k].mutated }

  predicate Touched<N>(ops: seq<TableOp<N>>, key: string) { exists op :: op in ops && op.Write? && op.key == key }

  predicate Readded<N>(ops: seq<TableOp<N>>, key: string) { exists op :: op in ops && op.Add? && op.key == key }

  /** The effect of a callback on an entry it does not add anew. */
  lemma {:induction false} EntryAfter<N>(t: Tables<N>, ops: seq<TableOp<N>>, key: string)
    requires LegalAll(t, ops) && key in t.entries && !Readded(ops, key)
    ensures key in ApplyAll(t, ops).entries
    ensures var e, e' := t.entries[key], ApplyAll(t, ops).entries[key];
            && e'.row == e.row
            && (!Touched(ops, key) ==> e' == e)
            && (Touched(ops, key) ==> e'.mutated && e'.backup == (if e.mutated then e.backup else e.fvs))
    decreases |ops|
  {
    if ops != [] {
      var t1, rest := Apply(t, ops[0]), ops[1..];
      assert ops[0] in ops;
      assert forall op :: op in rest ==> op in ops;
      assert forall op :: op in ops ==> op == ops[0] || op in rest;
      EntryAfter(t1, rest, key);
    }
  }

  lemma {:induction false} DbUntouched<N>(t: Tables<N>, ops: seq<TableOp<N>>)
    requires LegalAll(t, ops)
    ensures ApplyAll(t, ops).db == t.db
    decreases |ops|
  {
    if ops != [] {
      DbUntouched(Apply(t, ops[0]), ops[1..]);
    }
  }

  /** The row of the last time the callback adds this key. */
  function LastRow<N>(ops: seq<TableOp<N>>, key: string): Row
    requires Readded(ops, key)
    decreases |ops|
  {
    if Readded(ops[1..], key) then LastRow(ops[1..], key)
    else
      assert exists op :: op in ops && op.Add? && op.key == key && (op == ops[0] || op in ops[1..]);
      ops[0].row
  }

  /** An entry the callback adds holds the database row under its mark, whatever was there before. */
  lemma {:induction false} AddedEntry<N>(t: Tables<N>, ops: seq<TableOp<N>>, key: string)
    requires LegalAll(t, ops) && Readded(ops, key)
    ensures key in ApplyAll(t, ops).entries
    ensures var e, row := ApplyAll(t, ops).entries[key], LastRow(ops, key);
            e.row == row && e.backup == FromDb(t.db, row)
    decreases |ops|
  {
    var t1, rest := Apply(t, ops[0]), ops[1..];
    if Readded(rest, key) {
      AddedEntry(t1, rest, key);
    } else {
      assert forall op :: op in ops ==> op == ops[0] || op in rest;
      assert t1.entries[key] == Hydrate(t.db, ops[0].row);
      EntryAfter(t1, rest, key);
    }
  }

  lemma {:induction false} NeverAdded<N>(t: Tables<N>, ops: seq<TableOp<N>>, key: string)
    requires LegalAll(t, ops) && key !in t.entries && !Readded(ops, key)
    ensures key !in ApplyAll(t, ops).entries
    decreases |ops|
  {
    if ops != [] {
      assert ops[0] in ops && forall op :: op in ops[1..] ==> op in ops;
      NeverAdded(Apply(t, ops[0]), ops[1..], key);
    }
  }

  /** The last thing a callback does to a key, if it does anything. */
  function LastOn<N>(ops: seq<TableOp<N>>, key: string): (op: Option<TableOp<N>>)
    ensures op.Some? ==> op.value.key == key
  {
    if ops == [] then None
    else
      var op := ops[|ops| - 1];
      if op.key == key then Some(op) else LastOn(ops[..|ops| - 1], key)
  }

  lemma {:induction false} LastOnRest<N>(ops: seq<TableOp<N>>, key: string)
    requires ops != []
    ensures LastOn(ops, key) == if LastOn(ops[1..], key).Some? then LastOn(ops[1..], key)
                                else if ops[0].key == key then Some(ops[0]) else None
  {
    if |ops| == 1 {
      assert ops[..0] == [] && ops[1..] == [];
    } else {
      var init := ops[..|ops| - 1];
      assert init[1..] == ops[1..][..|ops[1..]| - 1];
      LastOnRest(init, key);
    }
  }

  /** What a callback leaves in an entry: what it wrote there last, or the database row if it has added the entry
      since; or what was there before. */
  lemma {:induction false} FieldsAfter<N>(t: Tables<N>, ops: seq<TableOp<N>>, key: string)
    requires LegalAll(t, ops)
    ensures var t' := ApplyAll(t, ops);
            && (key in t'.entries <==> key in t.entries || LastOn(ops, key).Some?)
            && (key in t'.entries ==>
                  t'.entries[key].fvs == match LastOn(ops, key)
                                         case None => t.entries[key].fvs
                                         case Some(Write(_, fvs)) => fvs
                                         case Some(Add(_, row)) => if row in t.db then t.db[row] else map[])
    decreases |ops|
  {
    if ops != [] {
      LastOnRest(ops, key);
      FieldsAfter(Apply(t, ops[0]), ops[1..], key);
    }
  }

  /** A commit notes the time in every entry and takes its mark away; a rollback only takes the mark away. */
  lemma Marks<N>(t: Tables<N>, order: seq<string>, now: nat, key: string)
    requires Walks(order, t) && key in t.entries
    ensures CommitAll(t, order, now).entries[key] == t.entries[key].(mutated := false, lastUpdated := Some(now))
    ensures RollbackAll(t).entries[key] == t.entries[key].(mutated := false, fvs := t.entries[key].backup)
    ensures CommitAll(t, order, now).entries.Keys == RollbackAll(t).entries.Keys == t.entries.Keys
  {
  }

  /** A database row that no entry stands for is left alone by a commit. */
  lemma {:induction false} RowsLeftAlone<N>(t: Tables<N>, order: seq<string>, row: Row)
    requires (forall k :: k in order ==> k in t.entries && t.entries[k].row != row)
    ensures row in WriteBack(t, order) <==> row in t.db
    ensures row in t.db ==> WriteBack(t, order)[row] == t.db[row]
  {
    if order != [] {
      var k := order[|order| - 1];
      assert k in order;
      RowsLeftAlone(t, order[..|order| - 1], row);
    }
  }

  // ------------------------------------------------------- a failed callback

  predicate Known<N>(t: Tables<N>, ops: seq<TableOp<N>>, key: string) { key in t.entries || Readded(ops, key) }

  /** What dropping the changes of a callback puts in an entry. */
  function Restored<N>(t: Tables<N>, ops: seq<TableOp<N>>, key: string): FieldValues<N>
    requires Known(t, ops, key)
  {
    if Readded(ops, key) then FromDb(t.db, LastRow(ops, key))
    else if Touched(ops, key) then t.entries[key].fvs
    else t.entries[key].backup
  }

  lemma BackupAfter<N>(t: Tables<N>, ops: seq<TableOp<N>>, key: string)
    requires Settled(t) && LegalAll(t, ops)
    ensures key in ApplyAll(t, ops).entries <==> Known(t, ops, key)
    ensures Known(t, ops, key) ==> ApplyAll(t, ops).entries[key].backup == Restored(t, ops, key)
  {
    if Readded(ops, key) {
      AddedEntry(t, ops, key);
    } else if key in t.entries {
      EntryAfter(t, ops, key);
    } else {
      NeverAdded(t, ops, key);
    }
  }

  /** A failed callback leaves the database alone. Each entry it wrote gets its value from before, each it left
      alone its backup; one it added, anew or for the first time, stays and holds the database row. */
  lemma FailureRestores<N>(t: Tables<N>, ops: seq<TableOp<N>>, key: string)
    requires Settled(t) && LegalAll(t, ops)
    ensures var t' := RollbackAll(ApplyAll(t, ops));
            && Settled(t') && t'.db == t.db
            && (key in t'.entries <==> Known(t, ops, key))
            && (Known(t, ops, key) ==> t'.entries[key].fvs == Restored(t, ops, key))
  {
    BackupAfter(t, ops, key);
    DbUntouched(t, ops);
  }

  /** The cache holds something else than what a rollback would restore. */
  predicate Stale<N>(e: Entry<N>) { e.backup != e.fvs }

  /** The same keys with the same fields. */
  ghost predicate SameFields<N>(t: Tables<N>, t': Tables<N>) {
    && (forall k :: k in t'.entries <==> k in t.entries)
    && (forall k :: k in t.entries && k in t'.entries ==> t'.entries[k].fvs == t.entries[k].fvs)
  }

  /** A failed callback leaves the table as it was if and only if it added no new key, an entry it added again
      held what the database holds, and no entry it left alone is stale. */
  lemma FailureIsAtomic<N>(t: Tables<N>, ops: seq<TableOp<N>>)
    requires Settled(t) && LegalAll(t, ops)
    ensures SameFields(t, RollbackAll(ApplyAll(t, ops))) <==>
            && (forall k :: Readded(ops, k) ==> k in t.entries && t.entries[k].fvs == FromDb(t.db, LastRow(ops, k)))
            && (forall k :: k in t.entries && !Readded(ops, k) && !Touched(ops, k) ==> !Stale(t.entries[k]))
  {
    var t' := RollbackAll(ApplyAll(t, ops));
    forall k ensures k in t'.entries <==> Known(t, ops, k)
      ensures Known(t, ops, k) ==> t'.entries[k].fvs == Restored(t, ops, k)
    {
      FailureRestores(t, ops, k);
    }
  }

  /** Where staleness comes from: after a commit an entry is stale exactly when it holds something else than a
      rollback of the same callback would have put there; a failed callback leaves none stale. */
  lemma StaleAfter<N>(t: Tables<N>, ops: seq<TableOp<N>>, key: string, order: seq<string>, now: nat)
    requires Settled(t) && LegalAll(t, ops) && Known(t, ops, key) && Walks(order, ApplyAll(t, ops))
    ensures var t' := CommitAll(ApplyAll(t, ops), order, now);
            key in t'.entries && (Stale(t'.entries[key]) <==> t'.entries[key].fvs != Restored(t, ops, key))
    ensures key in RollbackAll(ApplyAll(t, ops)).entries && !Stale(RollbackAll(ApplyAll(t, ops)).entries[key])
  {
    BackupAfter(t, ops, key);
  }

  ghost predicate OwnRow<N>(t: Tables<N>, key: string)
    requires key in t.entries
  {
    forall k :: k in t.entries && t.entries[k].row == t.entries[key].row ==> k == key
  }

  /** A committed row that no other entry shares holds the cached fields. */
  lemma {:induction false} RowWritten<N>(t: Tables<N>, order: seq<string>, key: string)
    requires (forall k :: k in order ==> k in t.entries) && key in t.entries && OwnRow(t, key)
    ensures key in order ==>
              t.entries[key].row in WriteBack(t, order) && WriteBack(t, order)[t.entries[key].row] == t.entries[key].fvs
  {
    if order != [] {
      var last, prior := order[|order| - 1], order[..|order| - 1];
      assert last in order;
      RowWritten(t, prior, key);
      assert key in order && key != last ==> key in prior;
    }
  }

  /** A callback that is committed, and the order in which the table is then walked. */
  datatype Call<N> = Call(ops: seq<TableOp<N>>, order: seq<string>, now: nat)

  predicate LeavesAlone<N>(ops: seq<TableOp<N>>, key: string) { !Touched(ops, key) && !Readded(ops, key) }

  ghost predicate CanCommit<N>(t: Tables<N>, calls: seq<Call<N>>)
    decreases |calls|
  {
    calls == [] ||
    (&& LegalAll(t, calls[0].ops) && Walks(calls[0].order, ApplyAll(t, calls[0].ops))
     && CanCommit(CommitAll(ApplyAll(t, calls[0].ops), calls[0].order, calls[0].now), calls[1..]))
  }

  ghost function Committed<N>(t: Tables<N>, calls: seq<Call<N>>): Tables<N>
    requires CanCommit(t, calls)
    decreases |calls|
  {
    if calls == [] then t
    else Committed(CommitAll(ApplyAll(t, calls[0].ops), calls[0].order, calls[0].now), calls[1..])
  }

  /** Commits that leave an entry alone keep its fields and its backup. */
  lemma {:induction false} KeptByCommits<N>(t: Tables<N>, calls: seq<Call<N>>, key: string)
    requires Settled(t) && key in t.entries && CanCommit(t, calls) && forall c :: c in calls ==> LeavesAlone(c.ops, key)
    ensures Settled(Committed(t, calls)) && key in Committed(t, calls).entries
    ensures var e, e' := t.entries[key], Committed(t, calls).entries[key];
            e'.row == e.row && e'.fvs == e.fvs && e'.backup == e.backup
    decreases |calls|
  {
    if calls != [] {
      assert calls[0] in calls;
      EntryAfter(t, calls[0].ops, key);
      KeptByCommits(CommitAll(ApplyAll(t, calls[0].ops), calls[0].order, calls[0].now), calls[1..], key);
    }
  }

  /** Whatever a callback committed to an entry is undone by the next failed callback, if none in between writes
      the entry, however many are committed there; and the next commit writes the old fields to the database. */
  lemma CommittedUpdateLost<N>(t0: Tables<N>, update: Call<N>, between: seq<Call<N>>, failed: seq<TableOp<N>>,
                               last: Call<N>, key: string)
    requires Settled(t0) && key in t0.entries && Touched(update.ops, key) && !Readded(update.ops, key)
    requires (forall c :: c in between ==> LeavesAlone(c.ops, key))
    requires LeavesAlone(failed, key) && LeavesAlone(last.ops, key)
    requires CanCommit(t0, [update] + between) && LegalAll(Committed(t0, [update] + between), failed)
    requires var t2 := RollbackAll(ApplyAll(Committed(t0, [update] + between), failed));
             CanCommit(t2, [last]) && (key in ApplyAll(t2, last.ops).entries ==> OwnRow(ApplyAll(t2, last.ops), key))
    ensures var t2 := RollbackAll(ApplyAll(Committed(t0, [update] + between), failed));
            var row := t0.entries[key].row;
            && key in t2.entries && t2.entries[key].fvs == t0.entries[key].fvs
            && row in Committed(t2, [last]).db && Committed(t2, [last]).db[row] == t0.entries[key].fvs
  {
    var calls := [update] + between;
    assert calls[0] == update && calls[1..] == between;
    EntryAfter(t0, update.ops, key);
    var t1 := CommitAll(ApplyAll(t0, update.ops), update.order, update.now);
    KeptByCommits(t1, between, key);
    var t := Committed(t0, calls);
    EntryAfter(t, failed, key);
    var t2 := RollbackAll(ApplyAll(t, failed));
    EntryAfter(t2, last.ops, key);
    RowWritten(ApplyAll(t2, last.ops), last.order, key);
    assert [last][1..] == [];
  }

  // -------------------------------------------------------------- the object

  class Internal<N(==)> {
    var entries: map<string, Entry<N>>
    var db: map<Row, FieldValues<N>>

    ghost function Abs(): Tables<N>
      reads this
    {
      Tables(entries, db)
    }

    constructor (db: map<Row, FieldValues<N>>)
      ensures Abs() == Tables(map[], db)
    {
      entries, this.db := map[], db;
    }

    method Add(key: string, row: Row)
      modifies this`entries
      ensures Abs() == Apply(old(Abs()), TableOp.Add(key, row))
    {
      entries := entries[key := Hydrate(db, row)];
    }

    /** `get_mut` and the assignment through it. */
    method Write(key: string, fvs: FieldValues<N>)
      requires key in entries
      modifies this`entries
      ensures Abs() == Apply(old(Abs()), TableOp.Write(key, fvs))
    {
      var e := entries[key];
      if !e.mutated {
        e := e.(backup := e.fvs, mutated := true);
      }
      entries := entries[key := e.(fvs := fvs)];
    }

    method DropChanges()
      modifies this`entries
      ensures Abs() == RollbackAll(old(Abs()))
    {
      var todo := entries.Keys;
      while todo != {}
        invariant todo <= entries.Keys == old(entries).Keys
        invariant forall k :: k in entries ==>
                    entries[k] == if k in todo then old(entries)[k] else Rollback(old(entries)[k])
        decreases |todo|
      {
        var k :| k in todo;
        entries := entries[k := Rollback(entries[k])];
        todo := todo - {k};
      }
    }

    method CommitChanges(now: nat) returns (ghost order: seq<string>)
      modifies this`entries, this`db
      ensures Walks(order, old(Abs())) && Abs() == CommitAll(old(Abs()), order, now)
    {
      var todo := entries.Keys;
      ghost var before := Abs();
      order := [];
      while todo != {}
        invariant todo <= before.entries.Keys == entries.Keys
        invariant forall k :: k in order <==> k in before.entries && k !in todo
        invariant forall k :: k in entries ==>
                    entries[k] == if k in todo then before.entries[k] else Commit(before.entries[k], now)
        invariant db == WriteBack(before, order)
        decreases |todo|
      {
        var k :| k in todo;
        var e := entries[k];
        WriteNext(before, order, k);
        db := db[e.row := e.fvs];
        entries := entries[k := Commit(e, now)];
        todo := todo - {k};
        order := order + [k];
      }
      assert entries == CommitAll(before, order, now).entries;
    }
  }
}
