/** The incoming state table: the latest message of each key (crates/swbus-actor/src/state/incoming.rs). */
module IncomingTable {
  import opened Wrappers
  import opened ServicePaths
  import opened Messages
  import opened Orders

  datatype InEntry<D> = InEntry(
    data: D, source: ServicePath, requestId: nat, version: nat, createdTime: nat, lastUpdatedTime: nat,
    response: Option<ErrorCode>, acked: bool)

  /** A new key starts at version 1; a known one keeps its response and ack until it is handled again. */
  function Insert<D>(table: map<string, InEntry<D>>, key: string, data: D, source: ServicePath, id: nat, secs: nat):
    map<string, InEntry<D>>
  {
    if key in table then
      var e := table[key];
      table[key := e.(data := data, source := source, requestId := id, version := e.version + 1,
                      lastUpdatedTime := secs)]
    else table[key := InEntry(data, source, id, 1, secs, secs, None, false)]
  }

  function Handled<D>(table: map<string, InEntry<D>>, key: string, code: ErrorCode): map<string, InEntry<D>>
    requires key in table
  {
    table[key := table[key].(acked := code == Ok, response := Some(code))]
  }

  // -------------------------------------------------------------- every run

  datatype InEvent<D> =
    | Received(key: string, data: D, source: ServicePath, id: nat, secs: nat)
    | Done(key: string, code: ErrorCode)

  predicate IsRun<D>(table: map<string, InEntry<D>>, evs: seq<InEvent<D>>)
    decreases |evs|
  {
    evs == [] || ((evs[0].Done? ==> evs[0].key in table) && IsRun(Next(table, evs[0]), evs[1..]))
  }

  function Next<D>(table: map<string, InEntry<D>>, ev: InEvent<D>): map<string, InEntry<D>>
    requires ev.Done? ==> ev.key in table
  {
    match ev
    case Received(key, data, source, id, secs) => Insert(table, key, data, source, id, secs)
    case Done(key, code) => Handled(table, key, code)
  }

  function After<D>(table: map<string, InEntry<D>>, evs: seq<InEvent<D>>): map<string, InEntry<D>>
    requires IsRun(table, evs)
    decreases |evs|
  {
    if evs == [] then table else After(Next(table, evs[0]), evs[1..])
  }

  /** The requests that came with a key, in order. */
  function Requests<D>(evs: seq<InEvent<D>>, key: string): (r: seq<InEvent<D>>)
    ensures forall i :: 0 <= i < |r| ==> r[i].Received? && r[i].key == key
    decreases |evs|
  {
    if evs == [] then []
    else (if evs[0].Received? && evs[0].key == key then [evs[0]] else []) + Requests(evs[1..], key)
  }

  /** How the requests with a key went that have been handled, in order. */
  function Results<D>(evs: seq<InEvent<D>>, key: string): seq<ErrorCode>
    decreases |evs|
  {
    if evs == [] then []
    else (if evs[0].Done? && evs[0].key == key then [evs[0].code] else []) + Results(evs[1..], key)
  }

  /** An entry tells of these requests: the last of them, how many, and when the first and the last came. */
  predicate TellsRequests<D(==)>(e: InEntry<D>, version: nat, created: nat, last: InEvent<D>)
    requires last.Received?
  {
    && e.data == last.data && e.source == last.source && e.requestId == last.id
    && e.version == version && e.createdTime == created && e.lastUpdatedTime == last.secs
  }

  ghost predicate SameRequests<D>(e: InEntry<D>, e': InEntry<D>) {
    e' == e.(response := e'.response, acked := e'.acked)
  }

  lemma {:induction false} RunRequests<D>(table: map<string, InEntry<D>>, evs: seq<InEvent<D>>, key: string)
    requires IsRun(table, evs)
    ensures var after, rs := After(table, evs), Requests(evs, key);
            if rs == [] then (key in after <==> key in table) && (key in table ==> SameRequests(table[key], after[key]))
            else
              && key in after
              && TellsRequests(after[key], (if key in table then table[key].version else 0) + |rs|,
                               if key in table then table[key].createdTime else rs[0].secs, rs[|rs| - 1])
    decreases |evs|
  {
    if evs != [] {
      RunRequests(Next(table, evs[0]), evs[1..], key);
    }
  }

  lemma {:induction false} RunResults<D>(table: map<string, InEntry<D>>, evs: seq<InEvent<D>>, key: string)
    requires IsRun(table, evs)
    ensures var after, rs := After(table, evs), Results(evs, key);
            && (rs != [] ==> key in after && after[key].response == Some(rs[|rs| - 1])
                             && (after[key].acked <==> rs[|rs| - 1] == Ok))
            && (rs == [] && key in after ==>
                  && after[key].response == (if key in table then table[key].response else None)
                  && after[key].acked == (key in table && table[key].acked))
    decreases |evs|
  {
    if evs != [] {
      RunRequests(Next(table, evs[0]), evs[1..], key);
      RunResults(Next(table, evs[0]), evs[1..], key);
    }
  }

  /** After any run: there is an entry for a key exactly if a request came with it; the entry holds what the last one
      brought, who sent it and under which id, how many there were, and when the first and the last came; and how the
      last handled one went, if any was handled. */
  lemma EntryTells<D>(evs: seq<InEvent<D>>, key: string)
    requires IsRun(map[], evs)
    ensures var table, rs, codes := After(map[], evs), Requests(evs, key), Results(evs, key);
            && (key in table <==> rs != [])
            && (rs != [] ==> TellsRequests(table[key], |rs|, rs[0].secs, rs[|rs| - 1]))
            && (key in table ==>
                  && table[key].response == (if codes == [] then None else Some(codes[|codes| - 1]))
                  && (table[key].acked <==> codes != [] && codes[|codes| - 1] == Ok))
  {
    RunRequests(map[], evs, key);
    RunResults(map[], evs, key);
  }

  class Incoming<D> {
    var table: map<string, InEntry<D>>

    constructor ()
      ensures table == map[]
    {
      table := map[];
    }

    method HandleRequest(id: nat, source: ServicePath, key: string, data: D, secs: nat)
      modifies this
      ensures table == Insert(old(table), key, data, source, id, secs)
    {
      if key in table {
        var e := table[key];
        table := table[key := e.(data := data, source := source, requestId := id, version := e.version + 1,
                                 lastUpdatedTime := secs)];
      } else {
        table := table[key := InEntry(data, source, id, 1, secs, secs, None, false)];
      }
    }

    method RequestHandled(key: string, code: ErrorCode) returns (id: nat, source: ServicePath)
      requires key in table
      modifies this
      ensures table == Handled(old(table), key, code)
      ensures id == old(table)[key].requestId && source == old(table)[key].source
    {
      var e := table[key];
      table := table[key := e.(acked := code == Ok, response := Some(code))];
      return e.requestId, e.source;
    }

    method GetByPrefix(prefix: string) returns (keys: seq<string>)
      ensures Enumerates(keys, set k | k in table && prefix <= k)
    {
      keys := KeysWithPrefix(table, prefix);
    }
  }

  /** Walks a table in some order and lists the keys that start with the prefix, each once. */
  method KeysWithPrefix<E>(table: map<string, E>, prefix: string) returns (keys: seq<string>)
    ensures Enumerates(keys, set k | k in table && prefix <= k)
  {
    var todo := table.Keys;
    keys := [];
    while todo != {}
      invariant todo <= table.Keys
      invariant forall k :: k in keys <==> k in table && k !in todo && prefix <= k
      invariant forall i, j :: 0 <= i < j < |keys| ==> keys[i] != keys[j]
      decreases |todo|
    {
      var k :| k in todo;
      if prefix <= k {
        assert k !in keys;
        keys := keys + [k];
      }
      todo := todo - {k};
    }
  }
}
