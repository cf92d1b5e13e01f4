/** What the DPU actor knows and tells, judged by the rows it has received alone, over whole runs
    (crates/hamgrd/src/actors/dpu.rs). */
module DpuRows {
  import opened Wrappers
  import opened ServicePaths
  import opened DbStructs
  import opened DpuActor
  import opened DpuRuns

  // -------------------------------------------------------------------- rows

  /** A message that configures the DPU as a local one, on a node that has its own address. */
  predicate IsLocalRow(env: Env, ev: Event) {
    && ev.Arrive? && ev.key == "DPU" && env.npuV4.Some?
    && ev.entry.body.kfv.Some? && !ev.entry.body.kfv.value.del && ev.entry.body.kfv.value.dpu.Some?
  }

  /** A message that configures it as a remote one. */
  predicate IsRemoteRow(ev: Event) {
    && ev.Arrive? && "REMOTE_DPU" <= ev.key
    && ev.entry.body.kfv.Some? && !ev.entry.body.kfv.value.del && ev.entry.body.kfv.value.remote.Some?
  }

  predicate IsLocalDeletion(ev: Event) {
    ev.Arrive? && ev.key == "DPU" && ev.entry.body.kfv.Some? && ev.entry.body.kfv.value.del
  }

  predicate IsRemoteDeletion(ev: Event) {
    ev.Arrive? && "REMOTE_DPU" <= ev.key && ev.entry.body.kfv.Some? && ev.entry.body.kfv.value.del
  }

  /** What is known is this local row, with the addresses of the node; the DPU is managed in the slot of the node. */
  predicate KnowsLocal(env: Env, row: Dpu, known: Option<DpuData>) {
    && known.Some? && known.value.Local? && known.value.dpu == row
    && (known.value.managed <==> row.dpuId == env.slot)
    && Some(known.value.npuV4) == env.npuV4 && known.value.npuV6 == env.npuV6
  }

  /** What is known is this remote row. */
  predicate KnowsRemote(row: RemoteDpu, known: Option<DpuData>) {
    known.Some? && known.value.Remote? && known.value.remote == row
  }

  predicate LocalKnown(a: Actor) { a.dpu.Some? && a.dpu.value.Local? }

  predicate Ends(a: Actor, ev: Event) { IsLocalDeletion(ev) || (IsRemoteDeletion(ev) && !LocalKnown(a)) }

  lemma KeyKinds(key: string)
    ensures "REMOTE_DPU" <= key ==> key != "DPU"
  {
    assert "REMOTE_DPU"[0] == 'R' && "DPU"[0] == 'D';
  }

  /** One message: a row is taken over, a remote one only while no local one is known; everything else leaves what is
      known alone. A deletion stops the actor, and nothing else does; a stopped actor does nothing any more. */
  lemma StepKnows(w: World, ev: Event)
    ensures Step(w, ev).actor.env == w.actor.env
    ensures w.actor.stopped ==> Step(w, ev).actor == w.actor
    ensures Step(w, ev).actor.stopped <==> w.actor.stopped || Ends(w.actor, ev)
    ensures !w.actor.stopped ==>
              var known := Step(w, ev).actor.dpu;
              if IsLocalRow(w.actor.env, ev) then KnowsLocal(w.actor.env, ev.entry.body.kfv.value.dpu.value, known)
              else if IsRemoteRow(ev) && !LocalKnown(w.actor)
              then KnowsRemote(ev.entry.body.kfv.value.remote.value, known)
              else known == w.actor.dpu
  {
    if ev.Arrive? {
      KeyKinds(ev.key);
    }
  }

  // --------------------------------------------------------------- whole runs

  predicate LocalRowAt(env: Env, evs: seq<Event>, i: int) { 0 <= i < |evs| && IsLocalRow(env, evs[i]) }

  predicate RemoteRowAt(evs: seq<Event>, i: int) { 0 <= i < |evs| && IsRemoteRow(evs[i]) }

  ghost predicate SomeLocalRow(env: Env, evs: seq<Event>) { exists i :: LocalRowAt(env, evs, i) }

  ghost predicate SomeRemoteRow(evs: seq<Event>) { exists i :: RemoteRowAt(evs, i) }

  /** The last local row is known; or there was none, and it is the last remote one; or there was no row at all. */
  ghost predicate LastRowKnown(env: Env, evs: seq<Event>, known: Option<DpuData>) {
    && (forall i :: LocalRowAt(env, evs, i) && (forall j :: i < j ==> !LocalRowAt(env, evs, j)) ==>
          KnowsLocal(env, evs[i].entry.body.kfv.value.dpu.value, known))
    && (!SomeLocalRow(env, evs) ==>
          forall i :: RemoteRowAt(evs, i) && (forall j :: i < j ==> !RemoteRowAt(evs, j)) ==>
            KnowsRemote(evs[i].entry.body.kfv.value.remote.value, known))
    && (!SomeLocalRow(env, evs) && !SomeRemoteRow(evs) ==> known.None?)
    && (known.Some? && known.value.Local? <==> SomeLocalRow(env, evs))
  }

  lemma OneMoreEvent(env: Env, evs: seq<Event>, ev: Event)
    ensures forall i :: LocalRowAt(env, evs + [ev], i) <==>
              LocalRowAt(env, evs, i) || (i == |evs| && IsLocalRow(env, ev))
    ensures forall i :: RemoteRowAt(evs + [ev], i) <==> RemoteRowAt(evs, i) || (i == |evs| && IsRemoteRow(ev))
    ensures SomeLocalRow(env, evs + [ev]) <==> SomeLocalRow(env, evs) || IsLocalRow(env, ev)
    ensures SomeRemoteRow(evs + [ev]) <==> SomeRemoteRow(evs) || IsRemoteRow(ev)
  {
    if i :| LocalRowAt(env, evs, i) {
      assert LocalRowAt(env, evs + [ev], i);
    }
    if i :| RemoteRowAt(evs, i) {
      assert RemoteRowAt(evs + [ev], i);
    }
    assert IsLocalRow(env, ev) ==> LocalRowAt(env, evs + [ev], |evs|);
    assert IsRemoteRow(ev) ==> RemoteRowAt(evs + [ev], |evs|);
  }

  /** Taking over a row, as `StepKnows` says, keeps the last one known. */
  lemma LastRowNext(env: Env, evs: seq<Event>, ev: Event, before: Option<DpuData>, after: Option<DpuData>)
    requires LastRowKnown(env, evs, before)
    requires if IsLocalRow(env, ev) then KnowsLocal(env, ev.entry.body.kfv.value.dpu.value, after)
             else if IsRemoteRow(ev) && !(before.Some? && before.value.Local?)
             then KnowsRemote(ev.entry.body.kfv.value.remote.value, after)
             else after == before
    ensures LastRowKnown(env, evs + [ev], after)
  {
    var more := evs + [ev];
    OneMoreEvent(env, evs, ev);
    forall i | LocalRowAt(env, more, i) && (forall j :: i < j ==> !LocalRowAt(env, more, j))
      ensures KnowsLocal(env, more[i].entry.body.kfv.value.dpu.value, after)
    {
      if IsLocalRow(env, ev) {
        assert LocalRowAt(env, more, |evs|);
      } else {
        assert LocalRowAt(env, evs, i);
        forall j | i < j ensures !LocalRowAt(env, evs, j) {
          assert !LocalRowAt(env, more, j);
        }
      }
    }
    forall i | !SomeLocalRow(env, more) && RemoteRowAt(more, i) && (forall j :: i < j ==> !RemoteRowAt(more, j))
      ensures KnowsRemote(more[i].entry.body.kfv.value.remote.value, after)
    {
      if IsRemoteRow(ev) {
        assert RemoteRowAt(more, |evs|);
      } else {
        assert RemoteRowAt(evs, i);
        forall j | i < j ensures !RemoteRowAt(evs, j) {
          assert !RemoteRowAt(more, j);
        }
      }
    }
  }

  /** Over every run of an actor that still runs, the DPU it knows is the one of the last local row it was sent, or, if
      there was none, of the last remote row, as that row has it. */
  lemma {:induction false} KnowsLastRow(env: Env, evs: seq<Event>)
    ensures After(env, evs).actor.env == env
    ensures !After(env, evs).actor.stopped ==> LastRowKnown(env, evs, After(env, evs).actor.dpu)
  {
    if evs == [] {
      assert !SomeLocalRow(env, evs) && !SomeRemoteRow(evs);
    } else {
      var init, ev := evs[..|evs| - 1], evs[|evs| - 1];
      KnowsLastRow(env, init);
      StepKnows(After(env, init), ev);
      assert evs == init + [ev];
      if !After(env, evs).actor.stopped {
        LastRowNext(env, init, ev, After(env, init).actor.dpu, After(env, evs).actor.dpu);
      }
    }
  }

  /** The deletion of the local row; or of a remote row, while no local one has come. */
  ghost predicate EndAt(env: Env, evs: seq<Event>, i: int) {
    && 0 <= i < |evs|
    && (IsLocalDeletion(evs[i]) || (IsRemoteDeletion(evs[i]) && forall j :: LocalRowAt(env, evs, j) ==> j > i))
  }

  ghost predicate SomeEnd(env: Env, evs: seq<Event>) { exists i :: EndAt(env, evs, i) }

  lemma OneMoreEnd(env: Env, evs: seq<Event>, ev: Event)
    ensures SomeEnd(env, evs + [ev]) <==>
            SomeEnd(env, evs) || IsLocalDeletion(ev) || (IsRemoteDeletion(ev) && !SomeLocalRow(env, evs))
  {
    var more := evs + [ev];
    OneMoreEvent(env, evs, ev);
    if i :| EndAt(env, evs, i) {
      assert EndAt(env, more, i);
    }
    if IsLocalDeletion(ev) || (IsRemoteDeletion(ev) && !SomeLocalRow(env, evs)) {
      assert !IsLocalRow(env, ev) || IsLocalDeletion(ev) by {
        KeyKinds(ev.key);
      }
      assert EndAt(env, more, |evs|);
    }
    if i :| EndAt(env, more, i) {
      if i < |evs| {
        forall j | LocalRowAt(env, evs, j) && !IsLocalDeletion(evs[i]) ensures j > i {
          assert LocalRowAt(env, more, j);
        }
        assert EndAt(env, evs, i);
      } else if !IsLocalDeletion(ev) {
        forall j ensures !LocalRowAt(env, evs, j) {
          assert LocalRowAt(env, evs, j) ==> LocalRowAt(env, more, j);
        }
      }
    }
  }

  /** The actor stops exactly when the row of its DPU is deleted; a remote row counts only while no local one has
      come. */
  lemma {:induction false} StopsExactly(env: Env, evs: seq<Event>)
    ensures After(env, evs).actor.stopped <==> SomeEnd(env, evs)
  {
    if evs != [] {
      var init, ev := evs[..|evs| - 1], evs[|evs| - 1];
      StopsExactly(env, init);
      KnowsLastRow(env, init);
      StepKnows(After(env, init), ev);
      OneMoreEnd(env, init, ev);
      assert evs == init + [ev];
    }
  }

  // ------------------------------------------------- the table, as it was written

  /** A message that came to the running actor under this key. */
  predicate CameAt(evs: seq<Event>, i: int, key: string) { 0 <= i < |evs| && evs[i].Arrive? && evs[i].key == key }

  ghost predicate LastAt(evs: seq<Event>, i: int, key: string) {
    CameAt(evs, i, key) && forall j :: i < j ==> !CameAt(evs, j, key)
  }

  lemma OneMoreCame(evs: seq<Event>, ev: Event, key: string)
    ensures forall i :: CameAt(evs + [ev], i, key) <==>
              CameAt(evs, i, key) || (i == |evs| && ev.Arrive? && ev.key == key)
    ensures forall i :: LastAt(evs + [ev], i, key) <==>
              if ev.Arrive? && ev.key == key then i == |evs| else LastAt(evs, i, key)
  {
    var more := evs + [ev];
    forall i ensures LastAt(more, i, key) <==> if ev.Arrive? && ev.key == key then i == |evs| else LastAt(evs, i, key) {
      if ev.Arrive? && ev.key == key {
        assert CameAt(more, |evs|, key);
      } else {
        assert forall j :: CameAt(more, j, key) <==> CameAt(evs, j, key);
      }
    }
  }

  /** While the actor runs, its table holds the last message of each key. */
  lemma {:induction false} TableHoldsLast(env: Env, evs: seq<Event>, key: string)
    requires !After(env, evs).actor.stopped
    ensures key in After(env, evs).actor.table <==> exists i :: LastAt(evs, i, key)
    ensures forall i :: LastAt(evs, i, key) && key in After(env, evs).actor.table ==>
              After(env, evs).actor.table[key] == evs[i].entry
  {
    if evs != [] {
      var init, ev := evs[..|evs| - 1], evs[|evs| - 1];
      assert evs == init + [ev];
      StepKnows(After(env, init), ev);
      StepTable(After(env, init), ev);
      TableHoldsLast(env, init, key);
      OneMoreCame(init, ev, key);
      if i :| LastAt(init, i, key) {
        assert !(ev.Arrive? && ev.key == key) ==> LastAt(evs, i, key);
      }
      if i :| LastAt(evs, i, key) {
        assert !(ev.Arrive? && ev.key == key) ==> LastAt(init, i, key);
      }
      if ev.Arrive? && ev.key == key {
        assert LastAt(evs, |init|, key);
      }
    }
  }

  lemma StepTable(w: World, ev: Event)
    requires !w.actor.stopped
    ensures Step(w, ev).actor.table == if ev.Arrive? then w.actor.table[ev.key := ev.entry] else w.actor.table
  {
  }

  /** They are active who sent the last registration under some key, and made it active. */
  ghost predicate Subscribed(evs: seq<Event>, who: ServicePath, key: string, i: int) {
    && "DPUStateRegister|" <= key && LastAt(evs, i, key)
    && evs[i].entry.source == who && evs[i].entry.body.active == Some(true)
  }

  /** Over every run of an actor that still runs, registered are exactly those whose last registration under some key is
      active: one that was taken back, or overwritten by somebody else, no longer counts. */
  lemma RegisteredExactly(env: Env, evs: seq<Event>, who: ServicePath)
    requires !After(env, evs).actor.stopped
    ensures Registered(After(env, evs).actor.table, who) <==> exists key, i :: Subscribed(evs, who, key, i)
  {
    var table := After(env, evs).actor.table;
    if key :| ActiveAt(table, key) && table[key].source == who {
      TableHoldsLast(env, evs, key);
      var i :| LastAt(evs, i, key);
      assert Subscribed(evs, who, key, i);
    }
    if key, i :| Subscribed(evs, who, key, i) {
      TableHoldsLast(env, evs, key);
      assert ActiveAt(table, key) && table[key].source == who;
    }
  }

  /** What the last message under this key says, if it says anything that can be read. */
  ghost predicate LastSays<T(!new)>(evs: seq<Event>, key: string, read: Kfv -> Option<T>, said: Option<T>) {
    && (forall i :: LastAt(evs, i, key) ==>
          said == if evs[i].entry.body.kfv.Some? then read(evs[i].entry.body.kfv.value) else None)
    && ((forall i :: !LastAt(evs, i, key)) ==> said == None)
  }

  /** The platform and the BFD state that count are those of the last message of either, and none if it cannot be
      read. */
  lemma StateIsLast(env: Env, evs: seq<Event>)
    requires !After(env, evs).actor.stopped
    ensures LastSays(evs, "DPU_STATE", (k: Kfv) => k.pmon, PmonIn(After(env, evs).actor.table))
    ensures LastSays(evs, "DASH_BFD_PROBE_STATE", (k: Kfv) => k.bfd, BfdIn(After(env, evs).actor.table))
  {
    TableHoldsLast(env, evs, "DPU_STATE");
    TableHoldsLast(env, evs, "DASH_BFD_PROBE_STATE");
  }

  // -------------------------------------------------------- what is told, to whom

  /** A state as told of a remote row. */
  predicate ShowsRemote(env: Env, row: RemoteDpu, p: Published) {
    && p.remoteDpu && !p.managed && !p.up && p.dpuName == env.id && p.state == None
    && p.npuV4 == row.npuV4 && p.npuV6 == row.npuV6 && p.vipV4 == p.vipV6 == None
    && p.paV4 == row.paV4 && p.paV6 == row.paV6 && p.dpuId == row.dpuId && p.vdpuId == None
    && p.orchagentPort == 0 && p.swbusPort == row.swbusPort && p.midplaneV4 == None
    && p.pmon == None && p.bfd == None
  }

  /** A state as told of a local row. */
  predicate ShowsLocal(env: Env, row: Dpu, p: Published) {
    && !p.remoteDpu && (p.managed <==> row.dpuId == env.slot) && p.dpuName == env.id && p.state == row.state
    && Some(p.npuV4) == env.npuV4 && p.npuV6 == env.npuV6 && p.vipV4 == row.vipV4 && p.vipV6 == row.vipV6
    && p.paV4 == row.paV4 && p.paV6 == row.paV6 && p.dpuId == row.dpuId && p.vdpuId == row.vdpuId
    && p.orchagentPort == row.orchagentPort && p.swbusPort == row.swbusPort && p.midplaneV4 == Some(row.midplaneV4)
  }

  /** The state last on its way to a subscriber, or received by it, is that of the last row. */
  ghost predicate LastRowShown(env: Env, evs: seq<Event>, p: Published) {
    && (forall i :: LocalRowAt(env, evs, i) && (forall j :: i < j ==> !LocalRowAt(env, evs, j)) ==>
          ShowsLocal(env, evs[i].entry.body.kfv.value.dpu.value, p))
    && (!SomeLocalRow(env, evs) ==>
          forall i :: RemoteRowAt(evs, i) && (forall j :: i < j ==> !RemoteRowAt(evs, j)) ==>
            ShowsRemote(env, evs[i].entry.body.kfv.value.remote.value, p))
  }

  lemma KnownIsShown(env: Env, evs: seq<Event>, a: Actor)
    requires a.env == env && a.dpu.Some? && LastRowKnown(env, evs, a.dpu)
    ensures LastRowShown(env, evs, Current(a))
  {
  }

  /** The planes and sessions told are those last heard of, and `up` means three planes up and some session up. */
  ghost predicate LastStateShown(evs: seq<Event>, p: Published) {
    && LastSays(evs, "DPU_STATE", (k: Kfv) => k.pmon, p.pmon)
    && LastSays(evs, "DASH_BFD_PROBE_STATE", (k: Kfv) => k.bfd, p.bfd)
    && (p.up <==>
        && p.pmon.Some? && p.pmon.value.midplane == p.pmon.value.control == p.pmon.value.data == Up
        && p.bfd.Some? && |p.bfd.value.v4| + |p.bfd.value.v6| > 0)
  }

  /** In a regular run, every active subscriber of a running actor has been told, or is about to be told, the last row
      as it came: the last local one, with the state last heard of, or the last remote one if there was no local one. */
  lemma SubscribersToldLastRow(env: Env, evs: seq<Event>, who: ServicePath)
    requires Run(env, evs) && forall i :: 0 <= i < |evs| ==> RegularAt(env, evs, i)
    requires !After(env, evs).actor.stopped && Registered(After(env, evs).actor.table, who)
    requires SomeLocalRow(env, evs) || SomeRemoteRow(evs)
    ensures View(After(env, evs), who).Some? && LastRowShown(env, evs, View(After(env, evs), who).value)
    ensures SomeLocalRow(env, evs) ==> LastStateShown(evs, View(After(env, evs), who).value)
  {
    StateIsLast(env, evs);
    KnowsLastRow(env, evs);
    var a := After(env, evs).actor;
    RowMakesKnown(env, evs, a.dpu);
    SubscribersUpToDate(env, evs, who);
    KnownIsShown(env, evs, a);
    SubscribersCanTell(env.id, a.dpu.value, a.table);
  }

  lemma RowMakesKnown(env: Env, evs: seq<Event>, known: Option<DpuData>)
    requires LastRowKnown(env, evs, known) && (SomeLocalRow(env, evs) || SomeRemoteRow(evs))
    ensures known.Some?
  {
    if !SomeLocalRow(env, evs) {
      var first :| RemoteRowAt(evs, first);
      var i := LastRemote(evs, first);
    }
  }

  lemma {:induction false} LastRemote(evs: seq<Event>, i: int) returns (k: int)
    requires RemoteRowAt(evs, i)
    ensures RemoteRowAt(evs, k) && forall j :: k < j ==> !RemoteRowAt(evs, j)
    decreases |evs| - i
  {
    if j :| i < j && RemoteRowAt(evs, j) {
      k := LastRemote(evs, j);
    } else {
      k := i;
    }
  }

  /** The message makes the actor tell everybody: it is a row that is taken over, unless bridges for it cannot be
      spawned, or platform or BFD state of a DPU it manages. */
  predicate TellsAll(a: Actor, ev: Event)
    requires ev.Arrive?
  {
    || (IsLocalRow(a.env, ev)
        && (ev.spawns || a.dpu.Some? || ev.entry.body.kfv.value.dpu.value.dpuId != a.env.slot))
    || (IsRemoteRow(ev) && !LocalKnown(a))
    || (LocalKnown(a) && a.dpu.value.managed && (ev.key == "DPU_STATE" || ev.key == "DASH_BFD_PROBE_STATE"))
  }

  /** The message asks for the state of a DPU that is known. */
  predicate Asks(a: Actor, ev: Event)
    requires ev.Arrive?
  {
    a.dpu.Some? && "DPUStateRegister|" <= ev.key && ev.entry.body.active == Some(true)
  }

  /** What the handler sends: the current state, to all that are registered, to the one that asks, or to nobody. */
  ghost predicate SendsRight(w: World, ev: Event, w': World)
    requires ev.Arrive?
  {
    var a := w.actor;
    && w'.channels == Post(w.channels, if TellsAll(a, ev) then Publish(w'.actor, None, ev.order)
                                       else if Asks(a, ev) then Publish(w'.actor, Some(ev.entry.source), [])
                                       else [])
    && (TellsAll(a, ev) || Asks(a, ev) ==> w'.actor.dpu.Some?) && !(TellsAll(a, ev) && Asks(a, ev))
    && w'.actor.table == a.table[ev.key := ev.entry]
  }

  lemma LocalRowSends(w: World, ev: Event)
    requires ev.Arrive? && !w.actor.stopped && ev.key == DPU
    ensures SendsRight(w, ev, Step(w, ev))
  {
    KeysApart(ev.key);
  }

  lemma RemoteRowSends(w: World, ev: Event)
    requires ev.Arrive? && !w.actor.stopped && REMOTE_DPU <= ev.key
    ensures SendsRight(w, ev, Step(w, ev))
  {
    KeysApart(ev.key);
  }

  lemma OtherSends(w: World, ev: Event)
    requires ev.Arrive? && !w.actor.stopped && ev.key != DPU && !(REMOTE_DPU <= ev.key)
    ensures SendsRight(w, ev, Step(w, ev))
  {
    KeysApart(ev.key);
  }

  lemma SendsExactly(w: World, ev: Event)
    requires ev.Arrive? && !w.actor.stopped
    ensures SendsRight(w, ev, Step(w, ev))
  {
    if ev.key == DPU {
      LocalRowSends(w, ev);
    } else if REMOTE_DPU <= ev.key {
      RemoteRowSends(w, ev);
    } else {
      OtherSends(w, ev);
    }
  }

  lemma {:induction false} PostToAllOnly(channels: map<ServicePath, seq<Published>>, targets: seq<ServicePath>,
                                         msg: Published, who: ServicePath)
    ensures var before, after := Chan(channels, who), Chan(Post(channels, ToAll(targets, msg)), who);
            before <= after && forall i :: |before| <= i < |after| ==> after[i] == msg
  {
    if targets != [] {
      var init, to := targets[..|targets| - 1], targets[|targets| - 1];
      PostToAllOnly(channels, init, msg, who);
      assert ToAll(targets, msg) == ToAll(init, msg) + [(to, msg)];
      PostNext(channels, ToAll(init, msg), to, msg, who);
    }
  }

  /** The channel of anybody grows by the current state and nothing else; and it grows exactly if they are registered
      and all are told, or if it is they who ask. */
  lemma ToldExactly(w: World, ev: Event, who: ServicePath)
    requires ev.Arrive? && !w.actor.stopped && Possible(w, ev)
    ensures var before, after, a := Chan(w.channels, who), Chan(Step(w, ev).channels, who), Step(w, ev).actor;
            && before <= after
            && (forall i :: |before| <= i < |after| ==> a.dpu.Some? && after[i] == Current(a))
            && (|before| < |after| <==>
                  || (TellsAll(w.actor, ev) && Registered(a.table, who))
                  || (Asks(w.actor, ev) && who == ev.entry.source))
  {
    SendsExactly(w, ev);
    var a := Step(w, ev).actor;
    if TellsAll(w.actor, ev) {
      var targets := Targets(a.table, ev.order);
      TargetsRegistered(a.table, ev.order, who);
      PostToAllOnly(w.channels, targets, Current(a), who);
      PostToAllGrows(w.channels, targets, Current(a), who);
    } else if Asks(w.actor, ev) {
      assert Publish(a, Some(ev.entry.source), []) == ToAll([ev.entry.source], Current(a));
      PostToAllOnly(w.channels, [ev.entry.source], Current(a), who);
      PostToAllGrows(w.channels, [ev.entry.source], Current(a), who);
    }
  }

  lemma {:induction false} PostToAllGrows(channels: map<ServicePath, seq<Published>>, targets: seq<ServicePath>,
                                          msg: Published, who: ServicePath)
    ensures |Chan(channels, who)| < |Chan(Post(channels, ToAll(targets, msg)), who)| <==> who in targets
  {
    PostToAllOnly(channels, targets, msg, who);
    if targets != [] {
      var init, to := targets[..|targets| - 1], targets[|targets| - 1];
      PostToAllOnly(channels, init, msg, who);
      PostToAllGrows(channels, init, msg, who);
      assert ToAll(targets, msg) == ToAll(init, msg) + [(to, msg)];
      PostNext(channels, ToAll(init, msg), to, msg, who);
      assert targets == init + [to];
    }
  }

  // ---------------------------------------------------------------- failures

  /** The table holds a global configuration that can be read. */
  predicate Configured(table: Table) {
    && "DASH_HA_GLOBAL_CONFIG" in table
    && var body := table["DASH_HA_GLOBAL_CONFIG"].body;
    body.kfv.Some? && body.kfv.value.isGlobalConfig
  }

  /** A handler fails exactly on a message it cannot read, where the node has no address or cannot spawn the bridges a
      newly managed DPU needs, and where the global configuration is wanted and missing; and then it sends nothing. */
  lemma FailsExactly(a: Actor, key: string, spawns: bool, order: seq<string>)
    requires key in a.table
    ensures var h, body := Handle(a, key, spawns, order), a.table[key].body;
            && (!h.ok ==> h.sends == [] && h.actor.stopped == a.stopped)
            && (!h.ok <==>
                  if key == "DPU" then
                    || body.kfv.None?
                    || (!body.kfv.value.del
                        && (|| body.kfv.value.dpu.None? || a.env.npuV4.None?
                            || (body.kfv.value.dpu.value.dpuId == a.env.slot && a.dpu.None? && !spawns)))
                  else if "REMOTE_DPU" <= key then
                    if LocalKnown(a)
                    then body.kfv.None? || body.kfv.value.remote.None? || !Configured(a.table)
                    else body.kfv.None? || (!body.kfv.value.del && body.kfv.value.remote.None?)
                  else
                    && a.dpu.Some?
                    && if "DPUStateRegister|" <= key then body.active.None?
                       else
                         && LocalKnown(a) && a.dpu.value.managed
                         && key == "DASH_HA_GLOBAL_CONFIG" && !Configured(a.table))
  {
  }
}
