/** The consumer bridge: partial row updates become whole rows in an actor's incoming table
    (crates/swss-common-bridge/src/consumer.rs, crates/swbus-actor/src/state/incoming.rs). */
module TableBridge {
  import opened ServicePaths
  import opened IncomingTable

  type FieldMap = map<string, string>

  datatype Operation = Set | Del

  datatype Kfv = Kfv(key: string, operation: Operation, fields: FieldMap)

  type Cache = map<string, FieldMap>

  // -------------------------------------------------------------- the cache

  function MergeCache(cache: Cache, kfv: Kfv): Cache {
    if kfv.operation == Del then cache - {kfv.key}
    else cache[kfv.key := (if kfv.key in cache then cache[kfv.key] else map[]) + kfv.fields]
  }

  /** What is sent on: the whole row after a Set, the update itself after a Del. */
  function Merged(cache: Cache, kfv: Kfv): Kfv {
    if kfv.operation == Del then kfv else kfv.(fields := MergeCache(cache, kfv)[kfv.key])
  }

  class TableCache {
    var rows: Cache

    constructor ()
      ensures rows == map[]
    {
      rows := map[];
    }

    method MergeKfv(kfv: Kfv) returns (r: Kfv)
      modifies this
      ensures rows == MergeCache(old(rows), kfv) && r == Merged(old(rows), kfv)
    {
      match kfv.operation
      case Set =>
        if kfv.key !in rows {
          rows := rows[kfv.key := map[]];
        }
        rows := rows[kfv.key := rows[kfv.key] + kfv.fields];
        r := Kfv(kfv.key, Set, rows[kfv.key]);
      case Del =>
        rows := rows - {kfv.key};
        r := kfv;
    }
  }

  // ----------------------------------------------------- the cache as history

  function CacheAfter(ups: seq<Kfv>): Cache {
    if ups == [] then map[] else MergeCache(CacheAfter(ups[..|ups| - 1]), ups[|ups| - 1])
  }

  predicate IsSet(ups: seq<Kfv>, i: int, row: string) {
    0 <= i < |ups| && ups[i].key == row && ups[i].operation == Set
  }

  /** No deletion of the row after position `i`. */
  predicate Undeleted(ups: seq<Kfv>, i: int, row: string) {
    forall j :: 0 <= j < |ups| && i < j && ups[j].key == row ==> ups[j].operation == Set
  }

  /** The last Set of this row that gives the field a value, and nothing deletes the row after it. */
  predicate LastWrite(ups: seq<Kfv>, row: string, field: string, i: int) {
    && IsSet(ups, i, row) && field in ups[i].fields && Undeleted(ups, i, row)
    && forall j :: i < j < |ups| && ups[j].key == row ==> field !in ups[j].fields
  }

  /** A field map is the right-biased union of all Set fields of the row since its last deletion. */
  ghost predicate UnionSinceDel(ups: seq<Kfv>, row: string, fields: FieldMap) {
    && (forall f :: f in fields ==> exists i :: LastWrite(ups, row, f, i) && fields[f] == ups[i].fields[f])
    && (forall f, i :: LastWrite(ups, row, f, i) ==> f in fields)
  }

  ghost predicate Present(ups: seq<Kfv>, row: string) { exists i :: IsSet(ups, i, row) && Undeleted(ups, i, row) }

  lemma WriteKept(ups: seq<Kfv>, u: Kfv, row: string, field: string, i: int)
    requires LastWrite(ups, row, field, i) && (u.key == row ==> u.operation == Set && field !in u.fields)
    ensures LastWrite(ups + [u], row, field, i)
  {
  }

  lemma WriteBefore(ups: seq<Kfv>, u: Kfv, row: string, field: string, i: int)
    requires LastWrite(ups + [u], row, field, i) && i < |ups|
    ensures LastWrite(ups, row, field, i) && (u.key == row ==> u.operation == Set && field !in u.fields)
  {
    var ups' := ups + [u];
    assert ups'[|ups|] == u;
    assert forall j :: 0 <= j < |ups| ==> ups'[j] == ups[j];
  }

  lemma NothingYet(ups: seq<Kfv>, row: string, field: string, i: int)
    requires LastWrite(ups, row, field, i)
    ensures Present(ups, row)
  {
  }

  lemma {:induction false} CacheIsUnion(ups: seq<Kfv>, row: string)
    ensures row in CacheAfter(ups) <==> Present(ups, row)
    ensures row in CacheAfter(ups) ==> UnionSinceDel(ups, row, CacheAfter(ups)[row])
  {
    if ups != [] {
      var init, u := ups[..|ups| - 1], ups[|ups| - 1];
      assert ups == init + [u];
      CacheIsUnion(init, row);
      if u.key != row {
        OtherRow(init, u, row);
      } else if u.operation == Set {
        assert IsSet(ups, |init|, row) && Undeleted(ups, |init|, row);
        RowExtended(init, u, row, if row in CacheAfter(init) then CacheAfter(init)[row] else map[]);
      }
    }
  }

  lemma OtherRow(ups: seq<Kfv>, u: Kfv, row: string)
    requires u.key != row
    ensures Present(ups + [u], row) <==> Present(ups, row)
    ensures forall fields :: UnionSinceDel(ups, row, fields) ==> UnionSinceDel(ups + [u], row, fields)
  {
    var ups' := ups + [u];
    assert forall j :: 0 <= j < |ups| ==> ups'[j] == ups[j];
    forall i ensures IsSet(ups', i, row) && Undeleted(ups', i, row) <==> IsSet(ups, i, row) && Undeleted(ups, i, row) {
      if IsSet(ups', i, row) && Undeleted(ups', i, row) {
        assert i < |ups|;
        forall j | 0 <= j < |ups| && i < j && ups[j].key == row ensures ups[j].operation == Set {
          assert ups'[j] == ups[j];
        }
      }
    }
    forall fields | UnionSinceDel(ups, row, fields) ensures UnionSinceDel(ups', row, fields) {
      forall f | f in fields ensures exists i :: LastWrite(ups', row, f, i) && fields[f] == ups'[i].fields[f] {
        var i :| LastWrite(ups, row, f, i) && fields[f] == ups[i].fields[f];
        WriteKept(ups, u, row, f, i);
      }
      forall f, i | LastWrite(ups', row, f, i) ensures f in fields {
        WriteBefore(ups, u, row, f, i);
      }
    }
  }

  lemma RowExtended(ups: seq<Kfv>, u: Kfv, row: string, fields: FieldMap)
    requires u.key == row && u.operation == Set
    requires if Present(ups, row) then UnionSinceDel(ups, row, fields) else fields == map[]
    ensures UnionSinceDel(ups + [u], row, fields + u.fields)
  {
    var ups', fields' := ups + [u], fields + u.fields;
    forall f | f in fields' ensures exists i :: LastWrite(ups', row, f, i) && fields'[f] == ups'[i].fields[f] {
      if f in u.fields {
        assert LastWrite(ups', row, f, |ups|);
      } else {
        var i :| LastWrite(ups, row, f, i) && fields[f] == ups[i].fields[f];
        WriteKept(ups, u, row, f, i);
      }
    }
    forall f, i | LastWrite(ups', row, f, i) ensures f in fields' {
      if i < |ups| {
        WriteBefore(ups, u, row, f, i);
        NothingYet(ups, row, f, i);
      }
    }
  }

  // ------------------------------------------------------------ the pipeline

  /** How a bridge is set up: which updates it passes on, and the message key of each row. */
  datatype Bridge = Bridge(selector: Kfv -> bool, keyOf: string -> string, source: ServicePath)

  /** Different rows have different message keys. */
  ghost predicate SeparateKeys(b: Bridge) { forall r, s :: b.keyOf(r) == b.keyOf(s) ==> r == s }

  type Table = map<string, InEntry<Kfv>>

  function SendKfv(b: Bridge, cache: Cache, table: Table, kfv: Kfv): Table {
    var m := Merged(cache, kfv);
    if b.selector(m) then Insert(table, b.keyOf(m.key), m, b.source, 0, 0) else table
  }

  function Delivered(b: Bridge, ups: seq<Kfv>): Table {
    if ups == [] then map[]
    else SendKfv(b, CacheAfter(ups[..|ups| - 1]), Delivered(b, ups[..|ups| - 1]), ups[|ups| - 1])
  }

  /** The bridge loop delivers the updates in order. */
  method RunBridge(b: Bridge, ups: seq<Kfv>) returns (table: Table)
    ensures table == Delivered(b, ups)
  {
    var cache := new TableCache();
    table := map[];
    for i := 0 to |ups|
      invariant cache.rows == CacheAfter(ups[..i]) && table == Delivered(b, ups[..i])
    {
      assert ups[..i + 1][..i] == ups[..i];
      var m := cache.MergeKfv(ups[i]);
      if b.selector(m) {
        table := Insert(table, b.keyOf(m.key), m, b.source, 0, 0);
      }
    }
    assert ups[..|ups|] == ups;
  }

  /** The message sent for update `i`. */
  function MessageAt(ups: seq<Kfv>, i: nat): Kfv
    requires i < |ups|
  {
    Merged(CacheAfter(ups[..i]), ups[i])
  }

  predicate Passed(b: Bridge, ups: seq<Kfv>, i: nat, row: string)
    requires i < |ups|
  {
    ups[i].key == row && b.selector(MessageAt(ups, i))
  }

  function CountPassed(b: Bridge, ups: seq<Kfv>, row: string): nat {
    if ups == [] then 0
    else CountPassed(b, ups[..|ups| - 1], row) + (if Passed(b, ups, |ups| - 1, row) then 1 else 0)
  }

  /** The entry of a row counts the updates passed on and holds the message of the last one. */
  lemma {:induction false} EntryOfRow(b: Bridge, ups: seq<Kfv>, row: string)
    requires SeparateKeys(b)
    ensures b.keyOf(row) in Delivered(b, ups) <==> CountPassed(b, ups, row) > 0
    ensures b.keyOf(row) in Delivered(b, ups) ==>
              && Delivered(b, ups)[b.keyOf(row)].version == CountPassed(b, ups, row)
              && exists i :: 0 <= i < |ups| && LastPassed(b, ups, i, row)
                   && Delivered(b, ups)[b.keyOf(row)].data == MessageAt(ups, i)
  {
    if ups != [] {
      var n, init := |ups| - 1, ups[..|ups| - 1];
      EntryOfRow(b, init, row);
      if Passed(b, ups, n, row) {
        assert LastPassed(b, ups, n, row);
        assert Delivered(b, ups)[b.keyOf(row)].data == MessageAt(ups, n);
      } else if b.keyOf(row) in Delivered(b, init) {
        assert Delivered(b, ups)[b.keyOf(row)] == Delivered(b, init)[b.keyOf(row)];
        var i :| && 0 <= i < |init| && LastPassed(b, init, i, row)
                 && Delivered(b, init)[b.keyOf(row)].data == MessageAt(init, i);
        LastPassedKept(b, ups, i, row);
      }
    }
  }

  predicate LastPassed(b: Bridge, ups: seq<Kfv>, i: nat, row: string)
    requires i < |ups|
  {
    Passed(b, ups, i, row) && forall j :: i < j < |ups| ==> !Passed(b, ups, j, row)
  }

  lemma MessagePrefix(ups: seq<Kfv>, n: nat, i: nat)
    requires i < n <= |ups|
    ensures MessageAt(ups[..n], i) == MessageAt(ups, i)
  {
    assert ups[..n][..i] == ups[..i];
  }

  lemma LastPassedKept(b: Bridge, ups: seq<Kfv>, i: nat, row: string)
    requires ups != [] && i < |ups| - 1 && LastPassed(b, ups[..|ups| - 1], i, row) && !Passed(b, ups, |ups| - 1, row)
    ensures LastPassed(b, ups, i, row) && MessageAt(ups, i) == MessageAt(ups[..|ups| - 1], i)
  {
    var n := |ups| - 1;
    MessagePrefix(ups, n, i);
    forall j | i < j < |ups| ensures !Passed(b, ups, j, row) {
      if j < n {
        MessagePrefix(ups, n, j);
        assert !Passed(b, ups[..n], j, row);
      }
    }
  }

  lemma MessageIsUnion(ups: seq<Kfv>, i: nat)
    requires i < |ups| && ups[i].operation == Set
    ensures MessageAt(ups, i).key == ups[i].key && MessageAt(ups, i).operation == Set
    ensures UnionSinceDel(ups[..i + 1], ups[i].key, MessageAt(ups, i).fields)
  {
    assert ups[..i + 1][..i] == ups[..i];
    CacheIsUnion(ups[..i + 1], ups[i].key);
  }

  /** Whatever updates arrive, the actor's entry for a row has as its version the number of updates passed on
      for the row, and its data is the last of them: the update itself for a Del, and for a Set the
      right-biased union of all Set fields of the row since its last Del. */
  lemma BridgeRefinement(b: Bridge, ups: seq<Kfv>, row: string)
    requires SeparateKeys(b)
    ensures b.keyOf(row) in Delivered(b, ups) <==> CountPassed(b, ups, row) > 0
    ensures b.keyOf(row) in Delivered(b, ups) ==>
              var e := Delivered(b, ups)[b.keyOf(row)];
              && e.version == CountPassed(b, ups, row)
              && exists i :: 0 <= i < |ups| && LastPassed(b, ups, i, row) && RowMessage(ups, i, e.data)
  {
    EntryOfRow(b, ups, row);
    if b.keyOf(row) in Delivered(b, ups) {
      var e := Delivered(b, ups)[b.keyOf(row)];
      var i :| 0 <= i < |ups| && LastPassed(b, ups, i, row) && e.data == MessageAt(ups, i);
      if ups[i].operation == Set {
        MessageIsUnion(ups, i);
      }
      assert RowMessage(ups, i, e.data);
    }
  }

  ghost predicate RowMessage(ups: seq<Kfv>, i: nat, m: Kfv)
    requires i < |ups|
  {
    && m.key == ups[i].key && m.operation == ups[i].operation
    && if m.operation == Set then UnionSinceDel(ups[..i + 1], m.key, m.fields) else m == ups[i]
  }
}
