/** The actor driver: a callback is a transaction over the three state tables
    (crates/swbus-actor/src/driver.rs). */
module Driver {
  import opened ServicePaths
  import opened Messages
  import opened IncomingTable
  import opened InternalTable
  import opened OutgoingTable

  /** What a callback does before it returns: changes to the internal table and messages to send. They work
      on different tables, so their interleaving does not matter. Any callback is some script. */
  datatype Mail = Mail(dest: ServicePath, key: string, data: string)

  datatype Script<N> = Script(ops: seq<TableOp<N>>, mails: seq<Mail>, ok: bool, stop: bool)

  datatype Actor<N> = Actor(tables: Tables<N>, out: Out)

  function SendAll(o: Out, mails: seq<Mail>, now: nat): Out
    decreases |mails|
  {
    if mails == [] then o else SendAll(Send(o, mails[0].dest, mails[0].key, mails[0].data, now), mails[1..], now)
  }

  /** `handle_actor_message`: commit and send on success, roll back and discard on failure. */
  ghost function Callback<N>(a: Actor<N>, s: Script<N>, now: nat, order: seq<string>): Actor<N>
    requires LegalAll(a.tables, s.ops)
    requires s.ok ==> Walks(order, ApplyAll(a.tables, s.ops))
  {
    var t, o := ApplyAll(a.tables, s.ops), SendAll(a.out, s.mails, now);
    if s.ok then Actor(CommitAll(t, order, now), SendQueued(o, now)) else Actor(RollbackAll(t), DropQueued(o))
  }

  /** What the driver does between two polls. `Handle` stands for a request whose payload decodes; the
      acknowledgement it sends first draws a message id. */
  datatype DriverStep<N> =
    | Handle(script: Script<N>, now: nat, order: seq<string>)
    | Undecodable
    | Answer(id: nat, code: ErrorCode, source: ServicePath)
    | Manage
    | Resend(now: nat, gone: seq<nat>, due: seq<nat>)

  ghost predicate Feasible<N>(a: Actor<N>, step: DriverStep<N>) {
    match step
    case Handle(s, _, order) => LegalAll(a.tables, s.ops) && (s.ok ==> Walks(order, ApplyAll(a.tables, s.ops)))
    case Resend(now, gone, due) => Possible(a.out, Ticked(now, gone, due))
    case _ => true
  }

  /** The queue is empty, no entry is marked, and the outgoing tables agree with each other. */
  ghost predicate AtRest<N>(a: Actor<N>) {
    a.out.queued == [] && Settled(a.tables) && Consistent(a.out)
  }

  ghost function Step<N>(a: Actor<N>, step: DriverStep<N>): (a': Actor<N>)
    requires AtRest(a) && Feasible(a, step)
    ensures AtRest(a')
  {
    match step
    case Handle(s, now, order) =>
      SendConsistent(a.out, EmptyPath, "", "", 0);
      var a1 := a.(out := SkipId(a.out));
      CallbackAtRest(a1, s, now, order);
      Callback(a1, s, now, order)
    case Undecodable => a
    case Answer(id, code, source) =>
      ResponseConsistent(a.out, id, code, source);
      a.(out := HandleResponse(a.out, id, code, source))
    case Manage => SendConsistent(a.out, EmptyPath, "", "", 0); a.(out := SkipId(a.out))
    case Resend(now, gone, due) =>
      TickConsistent(a.out, now, gone, due);
      TickKeepsQueue(a.out, now, gone, due);
      a.(out := Tick(a.out, now, gone, due))
  }

  lemma {:induction false} ResendKeepsQueue(o: Out, ids: seq<nat>, now: nat)
    requires forall id :: id in ids ==> id in o.unacked && o.unacked[id].key in o.sent
    ensures ResendAll(o, ids, now).queued == o.queued
    decreases |ids|
  {
    if ids != [] {
      ResendKeepsQueue(ResendOne(o, ids[0], now), ids[1..], now);
    }
  }

  lemma TickKeepsQueue(o: Out, now: nat, gone: seq<nat>, due: seq<nat>)
    requires forall id :: id in due ==> id in Due(o, now) && o.unacked[id].key in o.sent
    ensures Tick(o, now, gone, due).queued == o.queued
  {
    assert forall id :: id in due ==> id in Due(o, now) && id in Fresh(o, now);
    ResendKeepsQueue(Expire(o, now, gone), due, now);
  }

  lemma {:induction false} SendAllConsistent(o: Out, mails: seq<Mail>, now: nat)
    requires Consistent(o)
    ensures Consistent(SendAll(o, mails, now))
    decreases |mails|
  {
    if mails != [] {
      SendConsistent(o, mails[0].dest, mails[0].key, mails[0].data, now);
      SendAllConsistent(Send(o, mails[0].dest, mails[0].key, mails[0].data, now), mails[1..], now);
    }
  }

  lemma CallbackAtRest<N>(a: Actor<N>, s: Script<N>, now: nat, order: seq<string>)
    requires AtRest(a) && LegalAll(a.tables, s.ops) && (s.ok ==> Walks(order, ApplyAll(a.tables, s.ops)))
    ensures AtRest(Callback(a, s, now, order))
  {
    var o := SendAll(a.out, s.mails, now);
    SendAllConsistent(a.out, s.mails, now);
    if s.ok {
      FlushAllConsistent(o.(queued := []), o.queued, now);
    } else {
      SendConsistent(o, EmptyPath, "", "", 0);
    }
  }

  // ------------------------------------------------------ what is sent, exactly

  /** The queue holds the mails in order, under consecutive ids. */
  function Numbered(mails: seq<Mail>, id: nat, now: nat): seq<Unacked>
    decreases |mails|
  {
    if mails == [] then []
    else [Unacked(mails[0].key, mails[0].data, mails[0].dest, id, now)] + Numbered(mails[1..], id + 1, now)
  }

  lemma {:induction false} NumberedAt(mails: seq<Mail>, id: nat, now: nat)
    ensures var ms := Numbered(mails, id, now);
            && |ms| == |mails|
            && forall i :: 0 <= i < |ms| ==> ms[i] == Unacked(mails[i].key, mails[i].data, mails[i].dest, id + i, now)
    decreases |mails|
  {
    if mails != [] {
      NumberedAt(mails[1..], id + 1, now);
    }
  }

  lemma Regroup<T>(a: seq<T>, x: T, b: seq<T>)
    ensures (a + [x]) + b == a + ([x] + b)
  {
  }

  lemma QueuedMore(o: Out, x: Unacked, more: seq<Unacked>, n: nat)
    ensures var o1 := o.(queued := o.queued + [x], nextId := o.nextId + 1);
            o1.(queued := o1.queued + more, nextId := o1.nextId + n)
            == o.(queued := o.queued + ([x] + more), nextId := o.nextId + (n + 1))
  {
    Regroup(o.queued, x, more);
  }

  lemma {:induction false} SendAllQueues(o: Out, mails: seq<Mail>, now: nat)
    ensures SendAll(o, mails, now)
            == o.(queued := o.queued + Numbered(mails, o.nextId, now), nextId := o.nextId + |mails|)
    decreases |mails|
  {
    if mails == [] {
      assert o.queued + Numbered(mails, o.nextId, now) == o.queued;
    } else {
      var m := mails[0];
      SendAllQueues(Send(o, m.dest, m.key, m.data, now), mails[1..], now);
      var queued := Unacked(m.key, m.data, m.dest, o.nextId, now);
      QueuedMore(o, queued, Numbered(mails[1..], o.nextId + 1, now), |mails| - 1);
    }
  }

  function SentItems(ms: seq<Unacked>): (items: seq<LogItem>)
    ensures |items| == |ms| && forall i :: 0 <= i < |ms| ==> items[i] == Sent(ms[i].key, ms[i].id)
  {
    seq(|ms|, i requires 0 <= i < |ms| => Sent(ms[i].key, ms[i].id))
  }

  lemma SentFirst(ms: seq<Unacked>)
    requires ms != []
    ensures SentItems(ms) == [Sent(ms[0].key, ms[0].id)] + SentItems(ms[1..])
  {
  }

  lemma {:induction false} FlushLogs(o: Out, ms: seq<Unacked>, now: nat)
    ensures FlushAll(o, ms, now).log == o.log + SentItems(ms)
    decreases |ms|
  {
    if ms == [] {
      assert o.log + SentItems(ms) == o.log;
    } else {
      FlushLogs(FlushOne(o, ms[0], now), ms[1..], now);
      SentFirst(ms);
      Regroup(o.log, Sent(ms[0].key, ms[0].id), SentItems(ms[1..]));
    }
  }

  lemma {:induction false} FlushKeeps(o: Out, ms: seq<Unacked>, now: nat, id: nat)
    requires forall i :: 0 <= i < |ms| ==> ms[i].id != id
    ensures id in FlushAll(o, ms, now).unacked <==> id in o.unacked
    ensures id in o.unacked ==> FlushAll(o, ms, now).unacked[id] == o.unacked[id]
    decreases |ms|
  {
    if ms != [] {
      FlushKeeps(FlushOne(o, ms[0], now), ms[1..], now, id);
    }
  }

  lemma {:induction false} FlushWaits(o: Out, ms: seq<Unacked>, now: nat, i: nat)
    requires i < |ms| && forall j :: i < j < |ms| ==> ms[j].id != ms[i].id
    ensures ms[i].id in FlushAll(o, ms, now).unacked && FlushAll(o, ms, now).unacked[ms[i].id] == ms[i]
    decreases |ms|
  {
    var o1, rest := FlushOne(o, ms[0], now), ms[1..];
    if i == 0 {
      FlushKeeps(o1, rest, now, ms[0].id);
    } else {
      assert rest[i - 1] == ms[i];
      FlushWaits(o1, rest, now, i - 1);
    }
  }

  lemma SuccessOut(o: Out, mails: seq<Mail>, now: nat)
    requires o.queued == []
    ensures var o', ms := SendQueued(SendAll(o, mails, now), now), Numbered(mails, o.nextId, now);
            && o'.log == o.log + SentItems(ms)
            && (forall i :: 0 <= i < |ms| ==> ms[i].id in o'.unacked && o'.unacked[ms[i].id] == ms[i])
  {
    SendAllQueues(o, mails, now);
    var o1, ms := SendAll(o, mails, now), Numbered(mails, o.nextId, now);
    assert o.queued + ms == ms;
    NumberedAt(mails, o.nextId, now);
    FlushLogs(o1.(queued := []), ms, now);
    forall i | 0 <= i < |ms|
      ensures ms[i].id in SendQueued(o1, now).unacked && SendQueued(o1, now).unacked[ms[i].id] == ms[i]
    {
      FlushWaits(o1.(queued := []), ms, now, i);
    }
  }

  lemma SuccessTables<N>(t: Tables<N>, order: seq<string>, now: nat)
    requires Walks(order, t)
    ensures var t' := CommitAll(t, order, now);
            && t'.entries.Keys == t.entries.Keys
            && (forall k :: k in t.entries ==> t'.entries[k].fvs == t.entries[k].fvs)
            && (forall k :: k in t.entries && OwnRow(t, k) ==>
                  t.entries[k].row in t'.db && t'.db[t.entries[k].row] == t.entries[k].fvs)
  {
    forall k | k in t.entries && OwnRow(t, k)
      ensures t.entries[k].row in WriteBack(t, order) && WriteBack(t, order)[t.entries[k].row] == t.entries[k].fvs
    {
      RowWritten(t, order, k);
    }
  }

  /** A callback that succeeds sends every message it queued, in order, and nothing else; every entry is
      committed with the value the callback left, in the cache and in the database. */
  lemma CallbackSucceeds<N>(a: Actor<N>, s: Script<N>, now: nat, order: seq<string>)
    requires a.out.queued == [] && s.ok && LegalAll(a.tables, s.ops) && Walks(order, ApplyAll(a.tables, s.ops))
    ensures var a', ms := Callback(a, s, now, order), Numbered(s.mails, a.out.nextId, now);
            var t := ApplyAll(a.tables, s.ops);
            && a'.out.log == a.out.log + SentItems(ms)
            && (forall i :: 0 <= i < |ms| ==> ms[i].id in a'.out.unacked && a'.out.unacked[ms[i].id] == ms[i])
            && a'.tables.entries.Keys == t.entries.Keys
            && (forall k :: k in t.entries ==> a'.tables.entries[k].fvs == t.entries[k].fvs)
            && (forall k :: k in t.entries && OwnRow(t, k) ==>
                  t.entries[k].row in a'.tables.db && a'.tables.db[t.entries[k].row] == t.entries[k].fvs)
  {
    SuccessOut(a.out, s.mails, now);
    SuccessTables(ApplyAll(a.tables, s.ops), order, now);
  }

  /** A callback that fails sends nothing and changes nothing in the outgoing tables but the id counter,
      leaves the database alone, and restores every entry as `Restored` says. */
  lemma CallbackFails<N>(a: Actor<N>, s: Script<N>, now: nat)
    requires a.out.queued == [] && Settled(a.tables) && !s.ok && LegalAll(a.tables, s.ops)
    ensures var a' := Callback(a, s, now, []);
            && a'.out == a.out.(nextId := a.out.nextId + |s.mails|)
            && a'.tables.db == a.tables.db
            && (forall k :: k in a'.tables.entries <==> Known(a.tables, s.ops, k))
            && (forall k :: Known(a.tables, s.ops, k) ==> a'.tables.entries[k].fvs == Restored(a.tables, s.ops, k))
  {
    SendAllQueues(a.out, s.mails, now);
    DbUntouched(a.tables, s.ops);
    var a' := Callback(a, s, now, []);
    forall k
      ensures k in a'.tables.entries <==> Known(a.tables, s.ops, k)
      ensures Known(a.tables, s.ops, k) ==> a'.tables.entries[k].fvs == Restored(a.tables, s.ops, k)
    {
      FailureRestores(a.tables, s.ops, k);
    }
  }

  // -------------------------------------------------------------- every run

  ghost predicate IsRun<N>(a: Actor<N>, steps: seq<DriverStep<N>>)
    requires AtRest(a)
    decreases |steps|
  {
    steps == [] || (Feasible(a, steps[0]) && IsRun(Step(a, steps[0]), steps[1..]))
  }

  /** Between any two steps of any run, nothing is half done. */
  ghost function After<N>(a: Actor<N>, steps: seq<DriverStep<N>>): (a': Actor<N>)
    requires AtRest(a) && IsRun(a, steps)
    ensures AtRest(a')
    decreases |steps|
  {
    if steps == [] then a else After(Step(a, steps[0]), steps[1..])
  }

  // -------------------------------------------------------------- the object

  /** Responses the driver sends itself. */
  datatype Ack = Ack(dest: ServicePath, requestId: nat, code: ErrorCode)

  class ActorDriver<N(==)> {
    const internal: Internal<N>
    const outgoing: Outgoing
    const incoming: Incoming<string>
    var acks: seq<Ack>
    var stopped: bool

    ghost function Abs(): Actor<N>
      reads this, internal, outgoing
    {
      Actor(internal.Abs(), outgoing.Abs())
    }

    constructor (db: map<Row, FieldValues<N>>, startId: nat)
      ensures fresh(internal) && fresh(outgoing) && fresh(incoming)
      ensures Abs() == Actor(Tables(map[], db), EmptyOut(startId)) && AtRest(Abs())
      ensures acks == [] && !stopped && incoming.table == map[]
    {
      internal := new Internal<N>(db);
      outgoing := new Outgoing(startId);
      incoming := new Incoming<string>();
      acks, stopped := [], false;
    }

    /** Runs the callback's changes to the internal table. */
    method RunTableOps(ops: seq<TableOp<N>>)
      requires LegalAll(internal.Abs(), ops)
      modifies internal
      ensures internal.Abs() == ApplyAll(old(internal.Abs()), ops)
    {
      ghost var goal := ApplyAll(internal.Abs(), ops);
      for i := 0 to |ops|
        invariant LegalAll(internal.Abs(), ops[i..]) && ApplyAll(internal.Abs(), ops[i..]) == goal
      {
        assert ops[i..][0] == ops[i] && ops[i..][1..] == ops[i + 1..];
        match ops[i] {
          case Add(key, row) => internal.Add(key, row);
          case Write(key, fvs) => internal.Write(key, fvs);
        }
      }
      assert ops[|ops|..] == [];
    }

    method RunMails(mails: seq<Mail>, now: nat)
      requires outgoing.Valid()
      modifies outgoing
      ensures outgoing.Valid() && outgoing.Abs() == SendAll(old(outgoing.Abs()), mails, now)
              && outgoing.wire == old(outgoing.wire)
    {
      ghost var goal := SendAll(outgoing.Abs(), mails, now);
      for i := 0 to |mails|
        invariant outgoing.Valid() && SendAll(outgoing.Abs(), mails[i..], now) == goal
                  && outgoing.wire == old(outgoing.wire)
      {
        assert mails[i..][0] == mails[i] && mails[i..][1..] == mails[i + 1..];
        outgoing.Enqueue(mails[i].dest, mails[i].key, mails[i].data, now);
      }
      assert mails[|mails|..] == [];
    }

    /** Commits and sends, or drops, what the callback left. */
    method Conclude(ok: bool, now: nat) returns (ghost order: seq<string>)
      requires outgoing.Valid()
      modifies internal, outgoing
      ensures outgoing.Valid() && (ok ==> Walks(order, old(internal.Abs())))
      ensures internal.Abs() ==
              if ok then CommitAll(old(internal.Abs()), order, now) else RollbackAll(old(internal.Abs()))
      ensures outgoing.Abs() == if ok then SendQueued(old(outgoing.Abs()), now) else DropQueued(old(outgoing.Abs()))
      ensures outgoing.wire == old(outgoing.wire) + if ok then old(outgoing.Abs()).queued else []
    {
      order := [];
      if ok {
        order := internal.CommitChanges(now);
        outgoing.SendQueuedMessages(now);
      } else {
        internal.DropChanges();
        outgoing.DropQueuedMessages();
      }
    }

    /** `handle_actor_message`, for a callback that does what the script says. */
    method HandleActorMessage(key: string, s: Script<N>, now: nat) returns (ghost order: seq<string>)
      requires outgoing.Valid() && LegalAll(internal.Abs(), s.ops) && key in incoming.table
      modifies this`stopped, internal, outgoing, incoming
      ensures outgoing.Valid() && (s.ok ==> Walks(order, ApplyAll(old(internal.Abs()), s.ops)))
      ensures Abs() == Callback(old(Abs()), s, now, order)
      ensures incoming.table == Handled(old(incoming.table), key, if s.ok then Ok else Fail)
      ensures stopped == (old(stopped) || s.stop)
      ensures outgoing.wire ==
              old(outgoing.wire) + if s.ok then SendAll(old(outgoing.Abs()), s.mails, now).queued else []
    {
      RunTableOps(s.ops);
      RunMails(s.mails, now);
      stopped := stopped || s.stop;
      order := Conclude(s.ok, now);
      var _, _ := incoming.RequestHandled(key, if s.ok then Ok else Fail);
    }

    /** A request that decodes is acknowledged with Ok before, and whatever, the callback returns. */
    method HandleRequest(id: nat, source: ServicePath, key: string, data: string, s: Script<N>, now: nat)
      returns (ghost order: seq<string>)
      requires AtRest(Abs()) && LegalAll(internal.Abs(), s.ops)
      modifies this`stopped, this`acks, internal, outgoing, incoming
      ensures Feasible(old(Abs()), Handle(s, now, order)) && AtRest(Abs())
      ensures Abs() == Step(old(Abs()), Handle(s, now, order))
      ensures acks == old(acks) + [Ack(source, id, Ok)]
      ensures incoming.table == Handled(Insert(old(incoming.table), key, data, source, id, now / SECOND), key,
                                        if s.ok then Ok else Fail)
    {
      ghost var before := Abs();
      incoming.HandleRequest(id, source, key, data, now / SECOND);
      outgoing.SkipMessageId();
      acks := acks + [Ack(source, id, Ok)];
      order := HandleActorMessage(key, s, now);
      CallbackAtRest(before.(out := SkipId(before.out)), s, now, order);
    }
  }
}
