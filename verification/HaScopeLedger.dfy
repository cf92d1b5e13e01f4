/** Whole runs of the HA-scope actor: the ledger of pending operations is conserved, and an approved operation
    is requested from the DPU once (crates/hamgrd/src/actors/ha_scope.rs). */
module HaScopeLedger {
  import opened Wrappers
  import opened NpuRow
  import opened HaScope
  import opened HaScopeRuns

  // --------------------------------------------------------------------- runs

  /** The driver keeps the old state when a handler does not succeed; a panic ends the actor. */
  function StateAfter(s: Scope, ev: Event): Scope {
    match Step(s, ev) case Okay(s') => s' case Fails => s case Panics => s.(stopped := true)
  }

  ghost predicate Follows(s: Scope, ev: Event, s': Scope) { Possible(s, ev) && s' == StateAfter(s, ev) }

  /** The states before, between and after the events of a run of a new actor. */
  ghost predicate Run(cx: Codec, states: seq<Scope>, evs: seq<Event>) {
    && Lawful(cx) && AcceptsGroups(cx)
    && |states| == |evs| + 1 && states[0] == NewScope(cx)
    && forall i :: 0 <= i < |evs| ==> Follows(states[i], evs[i], states[i + 1])
  }

  /** The handler succeeds with the specified effect, or it is the one crash and the actor is gone. */
  ghost predicate Sound(s: Scope, ev: Event, s': Scope) {
    if Crashes(s, ev) then Step(s, ev).Panics? && s' == s.(stopped := true)
    else Step(s, ev) == Okay(s') && Moved(s, ev, s')
  }

  lemma FollowsSound(s: Scope, ev: Event, s': Scope)
    requires Inv(s) && Follows(s, ev, s')
    ensures Sound(s, ev, s') && Inv(s')
  {
    StepKeepsInv(s, ev);
  }

  lemma NewInv(cx: Codec)
    requires Lawful(cx) && AcceptsGroups(cx)
    ensures Inv(NewScope(cx)) && PendingOps(NewScope(cx)) == map[]
  {
  }

  lemma {:induction false} RunInv(cx: Codec, states: seq<Scope>, evs: seq<Event>, n: nat)
    requires Run(cx, states, evs) && n <= |evs|
    ensures Inv(states[n])
  {
    if n == 0 {
      NewInv(cx);
    } else {
      var s, ev := states[n - 1], evs[n - 1];
      RunInv(cx, states, evs, n - 1);
      FollowsSound(s, ev, states[n]);
    }
  }

  /** In every reachable state the row is well formed, and every handler succeeds but for the one crash: the
      length error is never taken. */
  lemma RunSound(cx: Codec, states: seq<Scope>, evs: seq<Event>, i: nat)
    requires Run(cx, states, evs) && i < |evs|
    ensures Inv(states[i]) && Sound(states[i], evs[i], states[i + 1])
  {
    RunInv(cx, states, evs, i);
    FollowsSound(states[i], evs[i], states[i + 1]);
  }

  lemma FollowsRegistered(s: Scope, ev: Event, s': Scope)
    requires Inv(s) && Follows(s, ev, s') && RegisteredOnce(s)
    ensures RegisteredOnce(s')
  {
    FollowsSound(s, ev, s');
    if !Crashes(s, ev) {
      StepRegisters(s, ev);
    }
  }

  /** At any point of any run the actor has registered once if it is configured, and unregistered if stopped. */
  lemma {:induction false} RunRegistered(cx: Codec, states: seq<Scope>, evs: seq<Event>, n: nat)
    requires Run(cx, states, evs) && n <= |evs|
    ensures RegisteredOnce(states[n])
  {
    if n > 0 {
      RunRegistered(cx, states, evs, n - 1);
      RunInv(cx, states, evs, n - 1);
      FollowsRegistered(states[n - 1], evs[n - 1], states[n]);
    }
  }

  // --------------------------------------------------- ledgers as such

  /** Successive ledgers: each loses what is cleared and gains what enters, and no id enters twice. */
  ghost predicate Ledgers(pend: seq<Pending>, cleared: seq<set<string>>, entered: seq<Pending>) {
    && |pend| == |cleared| + 1 && |entered| == |cleared| && pend[0] == map[]
    && (forall i :: 0 <= i < |cleared| ==> pend[i + 1] == (pend[i] - cleared[i]) + entered[i])
    && (forall i, j :: 0 <= i < j < |entered| ==> entered[i].Keys !! entered[j].Keys)
  }

  ghost predicate KeptFrom(entered: seq<Pending>, cleared: seq<set<string>>, i: nat, n: nat, id: string, kind: string)
    requires i < n <= |entered| == |cleared|
  {
    id in entered[i] && entered[i][id] == kind && forall j :: i < j < n ==> id !in cleared[j]
  }

  lemma {:induction false} Conserved(pend: seq<Pending>, cleared: seq<set<string>>, entered: seq<Pending>, n: nat,
                                     id: string, kind: string)
    requires Ledgers(pend, cleared, entered) && n <= |cleared|
    ensures (id in pend[n] && pend[n][id] == kind) <==>
            (exists i :: 0 <= i < n && KeptFrom(entered, cleared, i, n, id, kind))
  {
    if n > 0 {
      var m := n - 1;
      Conserved(pend, cleared, entered, m, id, kind);
      assert pend[m + 1] == (pend[m] - cleared[m]) + entered[m];
      if id in pend[n] && pend[n][id] == kind {
        if id in entered[m] {
          assert KeptFrom(entered, cleared, m, n, id, kind);
        } else {
          var i :| 0 <= i < m && KeptFrom(entered, cleared, i, m, id, kind);
          assert KeptFrom(entered, cleared, i, n, id, kind);
        }
      }
      if i :| 0 <= i < n && KeptFrom(entered, cleared, i, n, id, kind) {
        if i < m {
          assert KeptFrom(entered, cleared, i, m, id, kind);
          assert id in entered[i].Keys;
        }
      }
    }
  }

  // -------------------------------------------------------------- conservation

  /** An operation enters the ledger once: identifiers are not drawn twice. */
  ghost predicate EntersOnce(states: seq<Scope>, evs: seq<Event>)
    requires |states| == |evs| + 1
  {
    forall i, j :: 0 <= i < j < |evs| ==> Entering(states[i], evs[i]).Keys !! Entering(states[j], evs[j]).Keys
  }

  /** The operation enters with event `i` and no event before the `n`-th clears it. */
  ghost predicate StillPending(states: seq<Scope>, evs: seq<Event>, i: nat, n: nat, id: string, kind: string)
    requires i < n <= |evs| && |states| == |evs| + 1
  {
    && id in Entering(states[i], evs[i]) && Entering(states[i], evs[i])[id] == kind
    && forall j :: i < j < n ==> id !in Clearing(states[j], evs[j])
  }

  lemma SoundMoves(s: Scope, ev: Event, s': Scope)
    requires Sound(s, ev, s')
    ensures PendingOps(s') == (PendingOps(s) - Clearing(s, ev)) + Entering(s, ev)
  {
    LedgerMoves(s, ev);
  }

  /** At any point of any run the pending operations are exactly those that entered and were not cleared since. */
  lemma PendingExactly(cx: Codec, states: seq<Scope>, evs: seq<Event>, n: nat, id: string, kind: string)
    requires Run(cx, states, evs) && EntersOnce(states, evs) && n <= |evs|
    ensures (id in PendingOps(states[n]) && PendingOps(states[n])[id] == kind) <==>
            (exists i :: 0 <= i < n && StillPending(states, evs, i, n, id, kind))
  {
    var pend := seq(|states|, i requires 0 <= i < |states| => PendingOps(states[i]));
    var cleared := seq(|evs|, i requires 0 <= i < |evs| => Clearing(states[i], evs[i]));
    var entered := seq(|evs|, i requires 0 <= i < |evs| => Entering(states[i], evs[i]));
    NewInv(cx);
    forall i | 0 <= i < |evs| ensures pend[i + 1] == (pend[i] - cleared[i]) + entered[i] {
      RunSound(cx, states, evs, i);
      SoundMoves(states[i], evs[i], states[i + 1]);
    }
    Conserved(pend, cleared, entered, n, id, kind);
    forall i | 0 <= i < n
      ensures KeptFrom(entered, cleared, i, n, id, kind) <==> StillPending(states, evs, i, n, id, kind)
    {
      assert entered[i] == Entering(states[i], evs[i]);
      assert forall j :: i < j < n ==> cleared[j] == Clearing(states[j], evs[j]);
    }
  }

  // ------------------------------------------- conservation in terms of messages

  /** The DPU flag that asks for an operation of this kind. */
  predicate Flag(d: DpuScope, kind: string) {
    if kind == "activate_role" then d.activateRole
    else if kind == "brainsplit_recover" then d.brainsplitRecover
    else kind == "flow_reconcile" && d.flowReconcile
  }

  /** The identifier drawn for an operation of this kind. */
  function IdFor(ids: (string, string, string), kind: string): string {
    if kind == "activate_role" then ids.0 else if kind == "brainsplit_recover" then ids.1 else ids.2
  }

  predicate Rises(prev: Option<DpuScope>, d: DpuScope, kind: string) {
    Flag(d, kind) && !(prev.Some? && Flag(prev.value, kind))
  }

  /** The DPU state last received. */
  function LastDpu(evs: seq<Event>): Option<DpuScope> {
    if evs == [] then None
    else
      var ev := evs[|evs| - 1];
      if ev.DpuMsg? && ev.dpu.Some? then ev.dpu else LastDpu(evs[..|evs| - 1])
  }

  predicate Distinct(ids: (string, string, string)) { ids.0 != ids.1 && ids.0 != ids.2 && ids.1 != ids.2 }

  lemma KindsDiffer()
    ensures "activate_role" != "brainsplit_recover" && "activate_role" != "flow_reconcile"
    ensures "brainsplit_recover" != "flow_reconcile"
  {
    assert "activate_role"[0] == 'a' && "brainsplit_recover"[0] == 'b' && "flow_reconcile"[0] == 'f';
  }

  lemma OperationsAre(prev: Option<DpuScope>, d: DpuScope, ids: (string, string, string), op: (string, string))
    ensures op in Operations(prev, d, ids) <==> Rises(prev, d, op.1) && op.0 == IdFor(ids, op.1)
  {
    KindsDiffer();
  }

  lemma OperationsApart(prev: Option<DpuScope>, d: DpuScope, ids: (string, string, string))
    requires Distinct(ids)
    ensures var ops := Operations(prev, d, ids); forall i, j :: 0 <= i < j < |ops| ==> ops[i].0 != ops[j].0
  {
  }

  /** Each rising flag, and nothing else, makes one operation of its kind. */
  lemma OneOperationPerEdge(prev: Option<DpuScope>, d: DpuScope, ids: (string, string, string), id: string,
                            kind: string)
    requires Distinct(ids)
    ensures var added := AddAll(map[], Operations(prev, d, ids));
            (id in added && added[id] == kind) <==> (Rises(prev, d, kind) && id == IdFor(ids, kind))
  {
    var ops := Operations(prev, d, ids);
    OperationsApart(prev, d, ids);
    OperationsAre(prev, d, ids, (id, kind));
    AddedExactly(ops, id, kind);
  }

  lemma AddedExactly(ops: seq<(string, string)>, id: string, kind: string)
    requires forall i, j :: 0 <= i < j < |ops| ==> ops[i].0 != ops[j].0
    ensures var added := AddAll(map[], ops); (id in added && added[id] == kind) <==> (id, kind) in ops
  {
    AddAllAt(map[], ops, id);
  }

  /** With distinct ids, the added operations are exactly those listed. */
  lemma {:induction false} AddAllAt(p: Pending, ops: seq<(string, string)>, id: string)
    requires forall i, j :: 0 <= i < j < |ops| ==> ops[i].0 != ops[j].0
    ensures forall op :: op in ops && op.0 == id ==> id in AddAll(p, ops) && AddAll(p, ops)[id] == op.1
    ensures (forall op :: op in ops ==> op.0 != id) ==> (id in AddAll(p, ops) <==> id in p)
    ensures (forall op :: op in ops ==> op.0 != id) && id in p ==> AddAll(p, ops)[id] == p[id]
    decreases |ops|
  {
    if ops != [] {
      AddAllAt(p[ops[0].0 := ops[0].1], ops[1..], id);
    }
  }

  lemma {:induction false} DpuIsLast(cx: Codec, states: seq<Scope>, evs: seq<Event>, n: nat)
    requires Run(cx, states, evs) && n <= |evs|
    ensures states[n].dpu == LastDpu(evs[..n])
  {
    if n > 0 {
      DpuIsLast(cx, states, evs, n - 1);
      RunSound(cx, states, evs, n - 1);
      assert evs[..n][..n - 1] == evs[..n - 1];
    }
  }

  lemma KeptByStep(cx: Codec, states: seq<Scope>, evs: seq<Event>, i: nat)
    requires Run(cx, states, evs) && i < |evs|
    ensures states[i + 1].codec == states[i].codec && (Populated(states[i]) ==> Populated(states[i + 1]))
  {
    RunSound(cx, states, evs, i);
  }

  lemma {:induction false} Persists(states: seq<Scope>, i: nat, n: nat)
    requires i <= n < |states| && Populated(states[i])
    requires forall k :: i <= k < n && Populated(states[k]) ==> Populated(states[k + 1])
    ensures Populated(states[n])
  {
    if i < n {
      Persists(states, i, n - 1);
    }
  }

  lemma StaysPopulated(cx: Codec, states: seq<Scope>, evs: seq<Event>, i: nat, n: nat)
    requires Run(cx, states, evs) && i <= n <= |evs| && Populated(states[i])
    ensures Populated(states[n])
  {
    forall k | i <= k < n && Populated(states[k]) ensures Populated(states[k + 1]) {
      KeptByStep(cx, states, evs, k);
    }
    Persists(states, i, n);
  }

  /** Event `i` brings a rising edge of the flag of this kind, for which `id` is drawn. */
  predicate EdgeAt(evs: seq<Event>, i: nat, id: string, kind: string)
    requires i < |evs|
  {
    && evs[i].DpuMsg? && evs[i].dpu.Some?
    && Rises(LastDpu(evs[..i]), evs[i].dpu.value, kind) && id == IdFor(evs[i].ids, kind)
  }

  predicate Approves(ev: Event, id: string) {
    && ev.ConfigMsg? && ev.update.Put?
    && ev.update.config.approved.Some? && id in ev.update.config.approved.value
  }

  function IdsOf(ids: (string, string, string)): set<string> { {ids.0, ids.1, ids.2} }

  predicate FreshIds(evs: seq<Event>) {
    forall i, j :: 0 <= i < j < |evs| && evs[i].DpuMsg? && evs[j].DpuMsg? ==> IdsOf(evs[i].ids) !! IdsOf(evs[j].ids)
  }

  /** The row is populated before DPU state arrives. */
  predicate PopulatedFirst(states: seq<Scope>, evs: seq<Event>)
    requires |states| == |evs| + 1
  {
    forall i :: 0 <= i < |evs| && evs[i].DpuMsg? ==> Populated(states[i])
  }

  predicate ApprovesSome(ev: Event) { ev.ConfigMsg? && ev.update.Put? && ev.update.config.ApprovedIds() != [] }

  /** Approvals come while the vDPU is managed. */
  predicate ApprovedWhenManaged(states: seq<Scope>, evs: seq<Event>)
    requires |states| == |evs| + 1
  {
    forall i :: 0 <= i < |evs| && ApprovesSome(evs[i]) ==> Managed(states[i])
  }

  /** The row the actor loads lists no pending operations. */
  predicate NoLeftovers(cx: Codec, states: seq<Scope>, evs: seq<Event>)
    requires |states| == |evs| + 1
  {
    forall i :: 0 <= i < |evs| && Loads(states[i], evs[i]) ==> PendingFromRow(cx, evs[i].dbRow) == Some(map[])
  }

  lemma EntersAtEdges(cx: Codec, states: seq<Scope>, evs: seq<Event>, i: nat, id: string, kind: string)
    requires Run(cx, states, evs) && PopulatedFirst(states, evs) && NoLeftovers(cx, states, evs) && i < |evs|
    ensures (id in Entering(states[i], evs[i]) && Entering(states[i], evs[i])[id] == kind) <==> EdgeAt(evs, i, id, kind)
  {
    RunSound(cx, states, evs, i);
    DpuIsLast(cx, states, evs, i);
    CodecStays(cx, states, evs, i);
    if evs[i].DpuMsg? && evs[i].dpu.Some? {
      assert Possible(states[i], evs[i]);
      OneOperationPerEdge(states[i].dpu, evs[i].dpu.value, evs[i].ids, id, kind);
    }
  }

  lemma {:induction false} CodecStays(cx: Codec, states: seq<Scope>, evs: seq<Event>, n: nat)
    requires Run(cx, states, evs) && n <= |evs|
    ensures states[n].codec == cx
  {
    if n > 0 {
      CodecStays(cx, states, evs, n - 1);
      KeptByStep(cx, states, evs, n - 1);
    }
  }

  lemma EntersAsDrawn(cx: Codec, states: seq<Scope>, evs: seq<Event>, i: nat, id: string)
    requires Run(cx, states, evs) && PopulatedFirst(states, evs) && NoLeftovers(cx, states, evs) && i < |evs|
    ensures id in Entering(states[i], evs[i]) ==> evs[i].DpuMsg? && id in IdsOf(evs[i].ids)
  {
    if id in Entering(states[i], evs[i]) {
      EntersAtEdges(cx, states, evs, i, id, Entering(states[i], evs[i])[id]);
    }
  }

  lemma FreshEntersOnce(cx: Codec, states: seq<Scope>, evs: seq<Event>)
    requires Run(cx, states, evs) && PopulatedFirst(states, evs) && NoLeftovers(cx, states, evs) && FreshIds(evs)
    ensures EntersOnce(states, evs)
  {
    forall i, j, id | 0 <= i < j < |evs| && id in Entering(states[i], evs[i]).Keys
      ensures id !in Entering(states[j], evs[j]).Keys
    {
      EntersAsDrawn(cx, states, evs, i, id);
      EntersAsDrawn(cx, states, evs, j, id);
    }
  }

  /** The operation was asked for by event `i` and no configuration since has approved it. */
  ghost predicate Outstanding(evs: seq<Event>, i: nat, n: nat, id: string, kind: string)
    requires i < n <= |evs|
  {
    EdgeAt(evs, i, id, kind) && forall j :: i < j < n ==> !Approves(evs[j], id)
  }

  lemma ClearedWhenApproved(cx: Codec, states: seq<Scope>, evs: seq<Event>, i: nat, j: nat, id: string, kind: string)
    requires Run(cx, states, evs) && PopulatedFirst(states, evs) && ApprovedWhenManaged(states, evs)
    requires i < j < |evs| && EdgeAt(evs, i, id, kind)
    ensures id in Clearing(states[j], evs[j]) <==> Approves(evs[j], id)
  {
    StaysPopulated(cx, states, evs, i, j);
  }

  /** Conservation: when the row is populated before DPU state arrives and approvals come while the vDPU is
      managed, the pending operations after any number of messages are the rising edges of the three flags,
      one operation for each, less those approved by a later configuration. */
  lemma LedgerConservation(cx: Codec, states: seq<Scope>, evs: seq<Event>, n: nat, id: string, kind: string)
    requires Run(cx, states, evs) && n <= |evs|
    requires PopulatedFirst(states, evs) && ApprovedWhenManaged(states, evs)
    requires NoLeftovers(cx, states, evs) && FreshIds(evs)
    ensures (id in PendingOps(states[n]) && PendingOps(states[n])[id] == kind) <==>
            (exists i :: 0 <= i < n && Outstanding(evs, i, n, id, kind))
  {
    FreshEntersOnce(cx, states, evs);
    PendingExactly(cx, states, evs, n, id, kind);
    forall i | 0 <= i < n
      ensures StillPending(states, evs, i, n, id, kind) <==> Outstanding(evs, i, n, id, kind)
    {
      EntersAtEdges(cx, states, evs, i, id, kind);
      if EdgeAt(evs, i, id, kind) {
        forall j | i < j < n ensures id in Clearing(states[j], evs[j]) <==> Approves(evs[j], id) {
          ClearedWhenApproved(cx, states, evs, i, j, id, kind);
        }
      }
    }
  }
}
