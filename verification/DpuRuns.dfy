/** Publish/subscribe consistency over whole runs of the DPU actor, and exactly when it holds
    (crates/hamgrd/src/actors/dpu.rs). */
module DpuRuns {
  import opened Wrappers
  import opened ServicePaths
  import opened DbStructs
  import opened DpuActor

  /** The message changes what the tables say of a DPU that the actor does not manage. */
  predicate Overlooks(w: World, ev: Event) {
    && ev.Arrive? && !w.actor.stopped && w.actor.dpu.Some? && w.actor.dpu.value.Local? && !w.actor.dpu.value.managed
    && (|| PmonIn(Heard(w.actor, ev).table) != PmonIn(w.actor.table)
        || BfdIn(Heard(w.actor, ev).table) != BfdIn(w.actor.table))
  }

  /** The DPU becomes known and managed, but its bridges cannot be spawned. */
  predicate SpawnFails(w: World, ev: Event) {
    && ev.Arrive? && !w.actor.stopped && ev.key == DPU && !ev.spawns && w.actor.dpu.None? && w.actor.env.npuV4.Some?
    && ev.entry.body.kfv.Some? && !ev.entry.body.kfv.value.del && ev.entry.body.kfv.value.dpu.Some?
    && ev.entry.body.kfv.value.dpu.value.dpuId == w.actor.env.slot
  }

  ghost predicate SomeoneRegistered(a: Actor) { exists who :: Registered(a.table, who) }

  /** The step leaves a subscriber with an outdated state. */
  ghost predicate Offends(w: World, ev: Event) { (Overlooks(w, ev) || SpawnFails(w, ev)) && SomeoneRegistered(w.actor) }

  ghost predicate Possible(w: World, ev: Event) { ev.Arrive? ==> Walks(Heard(w.actor, ev).table, ev.order) }

  // ---------------------------------------------------------------- kinds of key

  lemma KeysApart(key: string)
    ensures REGISTER <= key ==> key != DPU && key != DPU_STATE && key != BFD_STATE && !(REMOTE_DPU <= key)
    ensures REMOTE_DPU <= key ==> key != DPU && key != DPU_STATE && key != BFD_STATE && !(REGISTER <= key)
    ensures DPU != DPU_STATE && DPU != BFD_STATE
  {
    assert REGISTER[3] == 'S' && DPU_STATE[3] == '_' && REGISTER[1] == 'P' && BFD_STATE[1] == 'A' && |DPU| == 3;
    assert REMOTE_DPU[0] == 'R' && REGISTER[0] == 'D' && DPU[0] == 'D' && DPU_STATE[0] == 'D' && BFD_STATE[0] == 'D';
  }

  /** A message that is no registration leaves the subscribers as they are. */
  lemma SameSubscribers(a: Actor, ev: Event, who: ServicePath)
    requires ev.Arrive? && !(REGISTER <= ev.key)
    ensures Registered(Heard(a, ev).table, who) <==> Registered(a.table, who)
  {
    var t, t' := a.table, Heard(a, ev).table;
    if k :| ActiveAt(t, k) && t[k].source == who {
      assert ActiveAt(t', k);
    }
    if k :| ActiveAt(t', k) && t'[k].source == who {
      assert ActiveAt(t, k);
    }
  }

  /** A registration concerns its sender only. */
  lemma OtherSubscribers(a: Actor, ev: Event, who: ServicePath)
    requires ev.Arrive? && Registered(Heard(a, ev).table, who)
             && !(who == ev.entry.source && ActiveAt(Heard(a, ev).table, ev.key))
    ensures Registered(a.table, who)
  {
    var t, t' := a.table, Heard(a, ev).table;
    var k :| ActiveAt(t', k) && t'[k].source == who;
    assert ActiveAt(t, k);
  }

  /** Only the two state tables enter into the computed state. */
  lemma SameState(dpu: DpuData, id: string, t: Table, t': Table)
    requires dpu.Local? ==> PmonIn(t') == PmonIn(t) && BfdIn(t') == BfdIn(t)
    ensures Computed(id, dpu, t') == Computed(id, dpu, t)
  {
  }

  lemma OtherState(dpu: DpuData, id: string, t: Table, t': Table)
    requires dpu.Local? && (PmonIn(t') != PmonIn(t) || BfdIn(t') != BfdIn(t))
    ensures Computed(id, dpu, t') != Computed(id, dpu, t)
  {
  }

  // ---------------------------------------------------------------- single steps

  /** Publishing to all makes everything consistent. */
  lemma PublishedToAll(w: World, a: Actor, order: seq<string>)
    requires a.dpu.Some? && Walks(a.table, order)
    ensures Consistent(w.(actor := a, channels := Post(w.channels, Publish(a, None, order))))
  {
    var w' := w.(actor := a, channels := Post(w.channels, Publish(a, None, order)));
    forall who | Registered(a.table, who) ensures View(w', who) == Some(Current(a)) {
      TargetsRegistered(a.table, order, who);
      PostToAll(w.channels, Targets(a.table, order), Current(a), who);
    }
  }

  /** The handler ends without publishing, and the DPU it knows stays the same. */
  lemma Unpublished(w: World, ev: Event, a: Actor)
    requires ev.Arrive? && Consistent(w) && w.actor.dpu.Some? && !(REGISTER <= ev.key)
    requires a == Heard(w.actor, ev).(stopped := a.stopped)
    ensures Consistent(w.(actor := a)) <==>
            !(w.actor.dpu.value.Local? && SomeoneRegistered(w.actor)
              && (PmonIn(a.table) != PmonIn(w.actor.table) || BfdIn(a.table) != BfdIn(w.actor.table)))
  {
    var w', d, id := w.(actor := a), w.actor.dpu.value, w.actor.env.id;
    forall who ensures Registered(a.table, who) <==> Registered(w.actor.table, who) {
      SameSubscribers(w.actor, ev, who);
    }
    forall who ensures View(w', who) == View(w, who) {
    }
    if d.Local? && (PmonIn(a.table) != PmonIn(w.actor.table) || BfdIn(a.table) != BfdIn(w.actor.table)) {
      OtherState(d, id, w.actor.table, a.table);
      if who :| Registered(w.actor.table, who) {
        assert View(w', who) != Some(Current(a));
      }
    } else {
      SameState(d, id, w.actor.table, a.table);
    }
  }

  /** A registration is answered with the current state. */
  lemma RegistrationAnswered(w: World, ev: Event)
    requires ev.Arrive? && Consistent(w) && w.actor.dpu.Some? && REGISTER <= ev.key && !w.actor.stopped
    ensures Consistent(Step(w, ev))
  {
    KeysApart(ev.key);
    var a, w' := Heard(w.actor, ev), Step(w, ev);
    SameState(a.dpu.value, a.env.id, w.actor.table, a.table);
    forall who | Registered(a.table, who) ensures View(w', who) == Some(Current(a)) {
      if ev.entry.body.active == Some(true) {
        PostToAll(w.channels, [ev.entry.source], Current(a), who);
        assert Publish(a, Some(ev.entry.source), ev.order) == ToAll([ev.entry.source], Current(a));
      }
      if !(who == ev.entry.source && ActiveAt(a.table, ev.key)) {
        OtherSubscribers(w.actor, ev, who);
      }
    }
  }

  /** Delivery does not change what a subscriber is going to see. */
  lemma DeliveryKeepsViews(w: World, to: ServicePath, who: ServicePath)
    ensures View(Step(w, Deliver(to)), who) == View(w, who)
  {
  }

  lemma SilentKept(w: World, ev: Event)
    requires Silent(w)
    ensures Silent(Step(w, ev))
  {
    var w' := Step(w, ev);
    if w'.actor.dpu.None? {
      forall who ensures View(w', who) == None {
        if ev.Deliver? {
          DeliveryKeepsViews(w, ev.to, who);
        } else {
          assert View(w, who) == None;
        }
      }
    }
  }

  /** A message that the actor does not know its DPU by cannot break consistency, except through a failed spawn. */
  lemma UnknownDpu(w: World, ev: Event)
    requires ev.Arrive? && !w.actor.stopped && Possible(w, ev) && Silent(w) && w.actor.dpu.None?
    ensures Consistent(Step(w, ev)) <==> !Offends(w, ev)
  {
    KeysApart(ev.key);
    var a, w' := Heard(w.actor, ev), Step(w, ev);
    if w'.actor.dpu.Some? {
      if SpawnFails(w, ev) {
        forall who ensures Registered(w'.actor.table, who) <==> Registered(w.actor.table, who) {
          SameSubscribers(w.actor, ev, who);
        }
        forall who ensures View(w', who) == None {
          assert View(w, who) == None;
        }
        if who :| Registered(w.actor.table, who) {
          assert View(w', who) != Some(Current(w'.actor));
        }
      } else {
        PublishedToAll(w, w'.actor, ev.order);
      }
    }
  }

  /** The actor only takes note of the message, and that changes nothing about a DPU it manages. */
  predicate Noted(w: World, ev: Event, w': World)
    requires ev.Arrive?
  {
    && w' == w.(actor := Heard(w.actor, ev).(stopped := w'.actor.stopped))
    && (Managed(w.actor) ==>
          PmonIn(w'.actor.table) == PmonIn(w.actor.table) && BfdIn(w'.actor.table) == BfdIn(w.actor.table))
  }

  /** The actor publishes its state to all, and does not overlook a change. */
  predicate PublishedAll(w: World, ev: Event, w': World)
    requires ev.Arrive?
  {
    && w'.actor.dpu.Some? && w'.actor.table == Heard(w.actor, ev).table && !Overlooks(w, ev)
    && w' == w.(actor := w'.actor, channels := Post(w.channels, Publish(w'.actor, None, ev.order)))
  }

  lemma RowHandling(w: World, ev: Event)
    requires ev.Arrive? && !w.actor.stopped && w.actor.dpu.Some? && (ev.key == DPU || REMOTE_DPU <= ev.key)
    ensures Noted(w, ev, Step(w, ev)) || PublishedAll(w, ev, Step(w, ev))
  {
    KeysApart(ev.key);
  }

  lemma StateHandling(w: World, ev: Event)
    requires ev.Arrive? && !w.actor.stopped && w.actor.dpu.Some? && !(REGISTER <= ev.key)
    requires ev.key != DPU && !(REMOTE_DPU <= ev.key)
    ensures Noted(w, ev, Step(w, ev)) || PublishedAll(w, ev, Step(w, ev))
  {
  }

  /** A message that is no registration is only noted, or makes the actor publish its state to all. */
  lemma QuietHandling(w: World, ev: Event)
    requires ev.Arrive? && !w.actor.stopped && w.actor.dpu.Some? && !(REGISTER <= ev.key)
    ensures Noted(w, ev, Step(w, ev)) || PublishedAll(w, ev, Step(w, ev))
  {
    if ev.key == DPU || REMOTE_DPU <= ev.key {
      RowHandling(w, ev);
    } else {
      StateHandling(w, ev);
    }
  }

  lemma KnownDpu(w: World, ev: Event)
    requires ev.Arrive? && !w.actor.stopped && Possible(w, ev) && Consistent(w) && w.actor.dpu.Some?
    ensures Consistent(Step(w, ev)) <==> !Offends(w, ev)
  {
    KeysApart(ev.key);
    if REGISTER <= ev.key {
      RegistrationAnswered(w, ev);
    } else {
      var w' := Step(w, ev);
      QuietHandling(w, ev);
      if Noted(w, ev, w') {
        Unpublished(w, ev, w'.actor);
      } else {
        PublishedToAll(w, w'.actor, ev.order);
      }
    }
  }

  /** From a consistent state, a step keeps every subscriber up to date exactly when it does not both change the
      state of the DPU unpublished and find somebody registered. */
  lemma StepConsistentIff(w: World, ev: Event)
    requires Consistent(w) && Silent(w) && Possible(w, ev)
    ensures Silent(Step(w, ev))
    ensures Consistent(Step(w, ev)) <==> !Offends(w, ev)
  {
    SilentKept(w, ev);
    match ev
    case Deliver(to) =>
      forall who ensures View(Step(w, ev), who) == View(w, who) {
        DeliveryKeepsViews(w, to, who);
      }
    case Arrive(_, _, _, _) =>
      if !w.actor.stopped {
        if w.actor.dpu.None? {
          UnknownDpu(w, ev);
        } else {
          KnownDpu(w, ev);
        }
      }
  }

  // ---------------------------------------------------------------- whole runs

  function After(env: Env, evs: seq<Event>): World {
    if evs == [] then NewWorld(env) else Step(After(env, evs[..|evs| - 1]), evs[|evs| - 1])
  }

  ghost predicate Run(env: Env, evs: seq<Event>) {
    forall i :: 0 <= i < |evs| ==> Possible(After(env, evs[..i]), evs[i])
  }

  lemma AfterNext(env: Env, evs: seq<Event>, i: nat)
    requires i < |evs|
    ensures After(env, evs[..i + 1]) == Step(After(env, evs[..i]), evs[i])
  {
    assert evs[..i + 1][..i] == evs[..i];
  }

  lemma {:induction false} RunSilent(env: Env, evs: seq<Event>, n: nat)
    requires n <= |evs|
    ensures Silent(After(env, evs[..n]))
  {
    if n > 0 {
      RunSilent(env, evs, n - 1);
      AfterNext(env, evs, n - 1);
      SilentKept(After(env, evs[..n - 1]), evs[n - 1]);
    }
  }

  ghost predicate OffendsAt(env: Env, evs: seq<Event>, i: nat)
    requires i < |evs|
  {
    Offends(After(env, evs[..i]), evs[i])
  }

  ghost predicate ConsistentAt(env: Env, evs: seq<Event>, n: nat)
    requires n <= |evs|
  {
    Consistent(After(env, evs[..n]))
  }

  lemma {:induction false} RunConsistent(env: Env, evs: seq<Event>, n: nat)
    requires Run(env, evs) && n <= |evs| && forall i :: 0 <= i < n ==> !OffendsAt(env, evs, i)
    ensures ConsistentAt(env, evs, n)
  {
    if n > 0 {
      RunConsistent(env, evs, n - 1);
      RunSilent(env, evs, n - 1);
      AfterNext(env, evs, n - 1);
      assert !OffendsAt(env, evs, n - 1);
      StepConsistentIff(After(env, evs[..n - 1]), evs[n - 1]);
    }
  }

  /** A whole run keeps every subscriber up to date after every step exactly when none of its steps offends. */
  lemma RunConsistentIff(env: Env, evs: seq<Event>)
    requires Run(env, evs)
    ensures (forall n :: 0 <= n <= |evs| ==> ConsistentAt(env, evs, n)) <==>
            (forall i :: 0 <= i < |evs| ==> !OffendsAt(env, evs, i))
  {
    if forall i :: 0 <= i < |evs| ==> !OffendsAt(env, evs, i) {
      forall n | 0 <= n <= |evs| ensures ConsistentAt(env, evs, n) {
        RunConsistent(env, evs, n);
      }
    }
    if forall n :: 0 <= n <= |evs| ==> ConsistentAt(env, evs, n) {
      forall i | 0 <= i < |evs| ensures !OffendsAt(env, evs, i) {
        assert ConsistentAt(env, evs, i) && ConsistentAt(env, evs, i + 1);
        RunSilent(env, evs, i);
        AfterNext(env, evs, i);
        StepConsistentIff(After(env, evs[..i]), evs[i]);
      }
    }
  }

  /** The bridge never fails, and a DPU the actor does not manage gets no DPU_STATE or BFD message. */
  predicate Regular(w: World, ev: Event) {
    ev.Arrive? ==>
      && ev.spawns
      && (w.actor.dpu.Some? && w.actor.dpu.value.Local? && !w.actor.dpu.value.managed ==>
            ev.key != DPU_STATE && ev.key != BFD_STATE)
  }

  lemma RegularOffendsNobody(w: World, ev: Event)
    requires Regular(w, ev)
    ensures !Offends(w, ev)
  {
  }

  lemma UpToDate(w: World, who: ServicePath)
    requires Consistent(w) && w.actor.dpu.Some? && Registered(w.actor.table, who)
    ensures View(w, who) == Some(Current(w.actor))
    ensures Chan(w.channels, who) == [] ==> who in w.received && w.received[who] == Current(w.actor)
  {
  }

  ghost predicate RegularAt(env: Env, evs: seq<Event>, i: nat)
    requires i < |evs|
  {
    Regular(After(env, evs[..i]), evs[i])
  }

  /** So in regular runs the last state each active subscriber has, or is about to get, is the current one; and
      once its channel is empty it has received it. */
  lemma SubscribersUpToDate(env: Env, evs: seq<Event>, who: ServicePath)
    requires Run(env, evs) && forall i :: 0 <= i < |evs| ==> RegularAt(env, evs, i)
    requires After(env, evs).actor.dpu.Some? && Registered(After(env, evs).actor.table, who)
    ensures var w := After(env, evs);
            && View(w, who) == Some(Current(w.actor))
            && (Chan(w.channels, who) == [] ==> who in w.received && w.received[who] == Current(w.actor))
  {
    forall i | 0 <= i < |evs| ensures !OffendsAt(env, evs, i) {
      assert RegularAt(env, evs, i);
      RegularOffendsNobody(After(env, evs[..i]), evs[i]);
    }
    RunConsistent(env, evs, |evs|);
    assert evs[..|evs|] == evs;
    UpToDate(After(env, evs), who);
  }

  // ------------------------------------------------------------ a DPU that keeps its slot

  /** DPU_STATE and BFD messages come over the bridges the actor spawned, and from nowhere else. */
  predicate Wired(w: World, ev: Event) {
    ev.Arrive? && (ev.key == DPU_STATE || ev.key == BFD_STATE) ==> w.actor.bridged
  }

  ghost predicate WiredAt(env: Env, evs: seq<Event>, i: nat)
    requires i < |evs|
  {
    Wired(After(env, evs[..i]), evs[i])
  }

  predicate RowOfSlot(ev: Event, dpuId: nat) {
    ev.Arrive? && ev.key == DPU && ev.entry.body.kfv.Some? && ev.entry.body.kfv.value.dpu.Some? ==>
      ev.entry.body.kfv.value.dpu.value.dpuId == dpuId
  }

  /** What a DPU that keeps its slot is like: bridges mean that it is managed. */
  predicate KeepsSlot(w: World, dpuId: nat) {
    && (w.actor.bridged ==> dpuId == w.actor.env.slot)
    && (w.actor.dpu.Some? && w.actor.dpu.value.Local? ==> (w.actor.dpu.value.managed <==> dpuId == w.actor.env.slot))
  }

  lemma StepKeepsSlot(w: World, ev: Event, dpuId: nat)
    requires KeepsSlot(w, dpuId) && RowOfSlot(ev, dpuId)
    ensures KeepsSlot(Step(w, ev), dpuId)
  {
  }

  lemma {:induction false} RunKeepsSlot(env: Env, evs: seq<Event>, dpuId: nat, n: nat)
    requires n <= |evs| && forall ev :: ev in evs ==> RowOfSlot(ev, dpuId)
    ensures KeepsSlot(After(env, evs[..n]), dpuId)
  {
    if n > 0 {
      RunKeepsSlot(env, evs, dpuId, n - 1);
      AfterNext(env, evs, n - 1);
      StepKeepsSlot(After(env, evs[..n - 1]), evs[n - 1], dpuId);
    }
  }

  lemma WiredIsRegular(w: World, ev: Event, dpuId: nat)
    requires KeepsSlot(w, dpuId) && Wired(w, ev) && (ev.Arrive? ==> ev.spawns)
    ensures Regular(w, ev)
  {
  }

  /** With the bridges as the actor spawns them, a DPU whose row never moves to another slot keeps all its
      subscribers up to date. */
  lemma UpToDateInItsSlot(env: Env, evs: seq<Event>, dpuId: nat, who: ServicePath)
    requires Run(env, evs) && forall i :: 0 <= i < |evs| ==> WiredAt(env, evs, i)
    requires forall ev :: ev in evs ==> RowOfSlot(ev, dpuId) && (ev.Arrive? ==> ev.spawns)
    requires After(env, evs).actor.dpu.Some? && Registered(After(env, evs).actor.table, who)
    ensures View(After(env, evs), who) == Some(Current(After(env, evs).actor))
  {
    forall i | 0 <= i < |evs| ensures RegularAt(env, evs, i) {
      assert evs[i] in evs && WiredAt(env, evs, i);
      RunKeepsSlot(env, evs, dpuId, i);
      WiredIsRegular(After(env, evs[..i]), evs[i], dpuId);
    }
    SubscribersUpToDate(env, evs, who);
  }

  // ------------------------------------------------------- a subscriber left behind

  const KEY := REGISTER + "vdpu"

  function Row(k: Kfv, from: ServicePath): Entry { Entry(Body(Some(k), None), from) }

  /** The DPU is configured in the slot of this node, a subscriber registers, the DPU is moved to another slot,
      and the bridge that was spawned for it brings its state. */
  function Moving(here: Dpu, there: Dpu, p: DpuState, from: ServicePath, who: ServicePath): seq<Event> {
    [Arrive(DPU, Row(Kfv(false, Some(here), None, None, None, false), from), true, []),
     Arrive(KEY, Entry(Body(None, Some(true)), who), true, [KEY]),
     Arrive(DPU, Row(Kfv(false, Some(there), None, None, None, false), from), true, [KEY]),
     Arrive(DPU_STATE, Row(Kfv(false, None, None, Some(p), None, false), from), true, [KEY])]
  }

  lemma OnlyRegistration(table: Table)
    requires forall k :: k in table ==> k == DPU || k == DPU_STATE || k == KEY
    ensures (set k | k in table && REGISTER <= k) == if KEY in table then {KEY} else {}
  {
    KeysApart(DPU);
    KeysApart(DPU_STATE);
    assert REGISTER <= KEY;
  }

  lemma Possibly(w: World, ev: Event)
    requires ev.Arrive? && forall k :: k in w.actor.table ==> k == DPU || k == KEY
    requires ev.key == DPU || ev.key == DPU_STATE || ev.key == KEY
    requires ev.order == if ev.key == KEY || KEY in w.actor.table then [KEY] else []
    ensures Possible(w, ev)
  {
    OnlyRegistration(Heard(w.actor, ev).table);
  }

  function Knows(env: Env, d: Dpu): Option<DpuData>
    requires env.npuV4.Some?
  {
    Some(DpuData.Local(d, d.dpuId == env.slot, env.npuV4.value, env.npuV6))
  }

  lemma RowKnown(w: World, ev: Event, d: Dpu)
    requires ev.Arrive? && ev.key == DPU && ev.spawns && !w.actor.stopped && w.actor.env.npuV4.Some?
    requires ev.entry.body.kfv == Some(Kfv(false, Some(d), None, None, None, false))
    ensures Step(w, ev).actor == Heard(w.actor, ev).(
              dpu := Knows(w.actor.env, d),
              bridged := w.actor.bridged || (d.dpuId == w.actor.env.slot && w.actor.dpu.None?))
  {
  }

  lemma MovingFirst(env: Env, evs: seq<Event>, here: Dpu, there: Dpu, p: DpuState, from: ServicePath, who: ServicePath)
    requires evs == Moving(here, there, p, from, who) && env.npuV4.Some? && here.dpuId == env.slot
    ensures Possible(After(env, evs[..0]), evs[0]) && Possible(After(env, evs[..1]), evs[1])
    ensures After(env, evs[..2]).actor ==
            Actor(env, Knows(env, here), map[DPU := evs[0].entry, KEY := evs[1].entry], true, false)
  {
    KeysApart(KEY);
    AfterNext(env, evs, 0);
    RowKnown(NewWorld(env), evs[0], here);
    AfterNext(env, evs, 1);
    Possibly(NewWorld(env), evs[0]);
    Possibly(After(env, evs[..1]), evs[1]);
  }

  lemma MovingThen(env: Env, evs: seq<Event>, here: Dpu, there: Dpu, p: DpuState, from: ServicePath, who: ServicePath)
    requires evs == Moving(here, there, p, from, who) && env.npuV4.Some? && here.dpuId == env.slot != there.dpuId
    ensures Run(env, evs)
    ensures After(env, evs[..3]).actor ==
            Actor(env, Knows(env, there), map[DPU := evs[2].entry, KEY := evs[1].entry], true, false)
  {
    MovingFirst(env, evs, here, there, p, from, who);
    AfterNext(env, evs, 2);
    RowKnown(After(env, evs[..2]), evs[2], there);
    Possibly(After(env, evs[..2]), evs[2]);
    Possibly(After(env, evs[..3]), evs[3]);
  }

  lemma MovedOffends(w: World, ev: Event, p: DpuState, who: ServicePath)
    requires ev.Arrive? && ev.key == DPU_STATE
             && ev.entry.body.kfv == Some(Kfv(false, None, None, Some(p), None, false))
    requires w.actor.table.Keys == {DPU, KEY} && ActiveAt(w.actor.table, KEY) && w.actor.table[KEY].source == who
    requires !w.actor.stopped && w.actor.dpu.Some? && w.actor.dpu.value.Local? && !w.actor.dpu.value.managed
    ensures Offends(w, ev)
  {
    KeysApart(KEY);
    KeysApart(DPU_STATE);
    assert Registered(w.actor.table, who);
    assert PmonIn(w.actor.table) == None && PmonIn(Heard(w.actor, ev).table) == Some(p);
  }

  lemma MovingRegular(env: Env, evs: seq<Event>, here: Dpu, there: Dpu, p: DpuState, from: ServicePath,
                      who: ServicePath)
    requires evs == Moving(here, there, p, from, who)
    ensures forall i :: 0 <= i < 3 ==> !OffendsAt(env, evs, i)
    ensures After(env, evs[..3]).actor.bridged ==> forall i :: 0 <= i < 4 ==> WiredAt(env, evs, i)
  {
    KeysApart(KEY);
    KeysApart(DPU);
    forall i | 0 <= i < 3 ensures !OffendsAt(env, evs, i) && WiredAt(env, evs, i) {
      OtherKeyIsFine(After(env, evs[..i]), evs[i]);
    }
  }

  lemma OtherKeyIsFine(w: World, ev: Event)
    requires ev.Arrive? && ev.spawns && ev.key != DPU_STATE && ev.key != BFD_STATE
    ensures !Offends(w, ev) && Wired(w, ev)
  {
    RegularOffendsNobody(w, ev);
  }

  /** For any DPU, state and subscriber: after the move the subscriber is told, after the state it is not. */
  lemma SubscriberLeftBehind(env: Env, here: Dpu, there: Dpu, p: DpuState, from: ServicePath, who: ServicePath)
    requires env.npuV4.Some? && here.dpuId == env.slot != there.dpuId
    ensures var evs := Moving(here, there, p, from, who);
            && Run(env, evs) && (forall i :: 0 <= i < 4 ==> WiredAt(env, evs, i))
            && ConsistentAt(env, evs, 3) && !ConsistentAt(env, evs, 4)
  {
    var evs := Moving(here, there, p, from, who);
    MovingThen(env, evs, here, there, p, from, who);
    MovingRegular(env, evs, here, there, p, from, who);
    assert REGISTER <= KEY;
    MovedOffends(After(env, evs[..3]), evs[3], p, who);
    RunConsistent(env, evs, 3);
    RunSilent(env, evs, 3);
    AfterNext(env, evs, 3);
    StepConsistentIff(After(env, evs[..3]), evs[3]);
  }
}
