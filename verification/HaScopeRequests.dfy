/** An approved operation is requested from the DPU once over a whole run, and exactly when the code keeps to
    that (crates/hamgrd/src/actors/ha_scope.rs). */
module HaScopeRequests {
  import opened Wrappers
  import opened Orders
  import opened NpuRow
  import opened HaScope
  import opened HaScopeRuns
  import opened HaScopeLedger

  function ApprovedNow(s: Scope): seq<string> { if s.config.Some? then s.config.value.ApprovedIds() else [] }

  /** Two messages to the DPU were raised by the same operation. */
  ghost predicate Repeats(requests: seq<Request>) {
    exists p, q, id :: 0 <= p < q < |requests| && id in requests[p].raisedBy && id in requests[q].raisedBy
  }

  /** Operations that raised a flag are no longer pending, no two messages to the DPU were raised by the same
      one, and nothing pending is on the approval list. `seen` are the operations that have entered. */
  ghost predicate Requested(seen: set<string>, requests: seq<Request>, pend: Pending, approved: seq<string>) {
    && pend.Keys <= seen
    && (forall p :: 0 <= p < |requests| ==> requests[p].raisedBy <= seen && requests[p].raisedBy !! pend.Keys)
    && (forall p, q :: 0 <= p < q < |requests| ==> requests[p].raisedBy !! requests[q].raisedBy)
    && (forall id :: id in approved ==> id !in pend)
  }

  lemma RaisedByApproved(c: Config, p: Pending)
    ensures forall id :: id in TableFor(c, p).raisedBy ==> id in c.ApprovedIds() && id in p
  {
  }

  /** A message is added whose raisers are then cleared. */
  lemma RequestedConfig(seen: set<string>, requests: seq<Request>, pend: Pending, approved: seq<string>, c: Config)
    requires Requested(seen, requests, pend, approved)
    ensures var cleared := set id | id in c.ApprovedIds();
            Requested(seen, requests + [TableFor(c, pend)], pend - cleared, c.ApprovedIds())
  {
    RaisedByApproved(c, pend);
  }

  /** A message with the old approvals raises nothing. */
  lemma RequestedAgain(seen: set<string>, requests: seq<Request>, pend: Pending, c: Config)
    requires Requested(seen, requests, pend, c.ApprovedIds())
    ensures Requested(seen, requests + [TableFor(c, pend)], pend, c.ApprovedIds())
    ensures TableFor(c, pend).raisedBy == {}
  {
    RaisedByApproved(c, pend);
  }

  lemma RequestedEntering(seen: set<string>, requests: seq<Request>, pend: Pending, approved: seq<string>,
                          entering: Pending)
    requires Requested(seen, requests, pend, approved)
    requires entering.Keys !! seen && forall id :: id in approved ==> id !in entering
    ensures Requested(seen + entering.Keys, requests, pend + entering, approved)
  {
  }

  // ------------------------------------------------------------------ one step

  ghost predicate RequestedIn(seen: set<string>, s: Scope) {
    Requested(seen, s.requests, PendingOps(s), ApprovedNow(s))
  }

  /** What enters is new and not approved in advance, and approvals come while the vDPU is managed. */
  predicate Orderly(seen: set<string>, s: Scope, ev: Event) {
    && Entering(s, ev).Keys !! seen
    && (forall id :: id in ApprovedNow(s) ==> id !in Entering(s, ev))
    && (ApprovesSome(ev) ==> Managed(s))
  }

  lemma PendingMeansPopulated(s: Scope)
    ensures PendingOps(s) != map[] ==> Populated(s)
  {
  }

  lemma ConfigKeepsRequested(seen: set<string>, s: Scope, c: Config, order: seq<string>, now: int)
    requires RequestedIn(seen, s) && Orderly(seen, s, ConfigMsg(Put(c), order, now))
    ensures var ev := ConfigMsg(Put(c), order, now);
            Requested(seen, s.requests + Sent(s, ev), NextPending(s, ev), c.ApprovedIds())
  {
    var ev := ConfigMsg(Put(c), order, now);
    LedgerMoves(s, ev);
    PendingMeansPopulated(s);
    RequestedConfig(seen, s.requests, PendingOps(s), ApprovedNow(s), c);
    var cleared := set id | id in c.ApprovedIds();
    if Managed(s) {
      assert NextPending(s, ev) == PendingOps(s) - cleared;
    } else {
      assert s.requests + Sent(s, ev) == s.requests;
    }
  }

  lemma VDpuKeepsRequested(seen: set<string>, s: Scope, ev: Event)
    requires RequestedIn(seen, s) && Orderly(seen, s, ev) && ev.VDpuMsg?
    ensures Requested(seen + Entering(s, ev).Keys, s.requests + Sent(s, ev), NextPending(s, ev), ApprovedNow(s))
  {
    LedgerMoves(s, ev);
    assert PendingOps(s) - Clearing(s, ev) == PendingOps(s);
    RequestedEntering(seen, s.requests, PendingOps(s), ApprovedNow(s), Entering(s, ev));
    if Sent(s, ev) == [] {
      assert s.requests + Sent(s, ev) == s.requests;
    } else {
      RequestedAgain(seen + Entering(s, ev).Keys, s.requests, NextPending(s, ev), s.config.value);
    }
  }

  lemma OtherKeepsRequested(seen: set<string>, s: Scope, ev: Event)
    requires RequestedIn(seen, s) && Orderly(seen, s, ev) && !ev.VDpuMsg? && !(ev.ConfigMsg? && ev.update.Put?)
    ensures Requested(seen + Entering(s, ev).Keys, s.requests + Sent(s, ev), NextPending(s, ev), ApprovedNow(s))
  {
    LedgerMoves(s, ev);
    assert PendingOps(s) - Clearing(s, ev) == PendingOps(s);
    RequestedEntering(seen, s.requests, PendingOps(s), ApprovedNow(s), Entering(s, ev));
    assert Sent(s, ev) == [];
    assert s.requests + Sent(s, ev) == s.requests;
  }

  lemma StepKeepsRequested(seen: set<string>, s: Scope, ev: Event, s': Scope)
    requires RequestedIn(seen, s) && Orderly(seen, s, ev)
    requires PendingOps(s') == NextPending(s, ev) && s'.requests == s.requests + Sent(s, ev)
    requires s'.config == if ev.ConfigMsg? && ev.update.Put? then Some(ev.update.config) else s.config
    ensures RequestedIn(seen + Entering(s, ev).Keys, s')
  {
    if ev.ConfigMsg? && ev.update.Put? {
      ConfigKeepsRequested(seen, s, ev.update.config, ev.order, ev.now);
      assert seen + Entering(s, ev).Keys == seen;
    } else if ev.VDpuMsg? {
      VDpuKeepsRequested(seen, s, ev);
    } else {
      OtherKeepsRequested(seen, s, ev);
    }
  }

  // ---------------------------------------------------------------- whole runs

  /** The operations that have entered before event `n`. */
  function Seen(states: seq<Scope>, evs: seq<Event>, n: nat): set<string>
    requires n <= |evs| < |states|
  {
    if n == 0 then {} else Seen(states, evs, n - 1) + Entering(states[n - 1], evs[n - 1]).Keys
  }

  predicate OrderlyRun(states: seq<Scope>, evs: seq<Event>)
    requires |evs| < |states|
  {
    forall i :: 0 <= i < |evs| ==> Orderly(Seen(states, evs, i), states[i], evs[i])
  }

  lemma FollowsRequested(seen: set<string>, s: Scope, ev: Event, s': Scope)
    requires Inv(s) && Follows(s, ev, s') && RequestedIn(seen, s) && Orderly(seen, s, ev)
    ensures RequestedIn(seen + Entering(s, ev).Keys, s')
  {
    FollowsSound(s, ev, s');
    if Crashes(s, ev) {
      assert seen + Entering(s, ev).Keys == seen;
    } else {
      StepKeepsRequested(seen, s, ev, s');
    }
  }

  lemma {:induction false} RunRequested(cx: Codec, states: seq<Scope>, evs: seq<Event>, n: nat)
    requires Run(cx, states, evs) && n <= |evs| && OrderlyRun(states, evs)
    ensures RequestedIn(Seen(states, evs, n), states[n])
  {
    if n == 0 {
      NewInv(cx);
    } else {
      RunRequested(cx, states, evs, n - 1);
      RunInv(cx, states, evs, n - 1);
      FollowsRequested(Seen(states, evs, n - 1), states[n - 1], evs[n - 1], states[n]);
    }
  }

  /** Over a whole run in which approvals come while the vDPU is managed, no operation raises a flag in two
      messages to the DPU, however often the vDPU makes the actor send the table again. */
  lemma RequestedAtMostOnce(cx: Codec, states: seq<Scope>, evs: seq<Event>, n: nat)
    requires Run(cx, states, evs) && n <= |evs| && OrderlyRun(states, evs)
    ensures !Repeats(states[n].requests)
  {
    RunRequested(cx, states, evs, n);
  }

  predicate Requestable(kind: string) { kind == "activate_role" || kind == "flow_reconcile" }

  /** The approving configuration does raise the flag of the operation, and only such operations raise flags. */
  lemma ApprovalRaises(s: Scope, ev: Event, id: string)
    requires Inv(s) && Possible(s, ev) && ev.ConfigMsg? && ev.update.Put? && Managed(s) && s.row.Some?
    ensures Step(s, ev).Okay? && |Step(s, ev).value.requests| == |s.requests| + 1
    ensures var m, p := Step(s, ev).value.requests[|s.requests|], PendingOps(s);
            && m.version == ev.update.config.version && m.disable == ev.update.config.disable
            && m.haRole == ev.update.config.desiredHaState
            && (id in m.raisedBy <==> Approves(ev, id) && id in p && Requestable(p[id]))
            && (Approves(ev, id) && id in p && p[id] == "activate_role" ==> m.activateRole)
            && (Approves(ev, id) && id in p && p[id] == "flow_reconcile" ==> m.flowReconcile)
            && (id in m.raisedBy ==> id !in PendingOps(Step(s, ev).value))
  {
    StepKeepsInv(s, ev);
    LedgerMoves(s, ev);
    PendingMeansPopulated(s);
    var c, p := ev.update.config, PendingOps(s);
    var a, f := Raisers(c.ApprovedIds(), p, "activate_role"), Raisers(c.ApprovedIds(), p, "flow_reconcile");
    assert id in a <==> Approves(ev, id) && id in p && p[id] == "activate_role";
    assert id in f <==> Approves(ev, id) && id in p && p[id] == "flow_reconcile";
  }

  // -------------------------------------------- exactly when the promises hold

  function Next(s: Scope, ev: Event): Scope { StateAfter(s, ev) }

  /** The operations that raised flags in the messages this event sent. */
  function RaisedBy(s: Scope, ev: Event): set<string> {
    var sent := Next(s, ev).requests;
    if |sent| > |s.requests| then sent[|s.requests|].raisedBy else {}
  }

  predicate ManagedUpdate(ev: Event) { ev.VDpuMsg? && ev.vdpu.Some? && ev.vdpu.value.managed }

  lemma ApprovedRaised(c: Config, p: Pending, id: string)
    ensures id in TableFor(c, p).raisedBy <==> id in c.ApprovedIds() && id in p && Requestable(p[id])
  {
  }

  /** A vDPU update raises exactly the approved operations that are still pending, and leaves them pending. */
  lemma UpdateRaises(s: Scope, ev: Event, id: string)
    requires Inv(s) && Possible(s, ev) && ManagedUpdate(ev) && s.row.Some?
    ensures id in RaisedBy(s, ev) <==> id in ApprovedNow(s) && id in PendingOps(s) && Requestable(PendingOps(s)[id])
    ensures PendingOps(Next(s, ev)) == PendingOps(s) && ApprovedNow(Next(s, ev)) == ApprovedNow(s)
            && Next(s, ev).row.Some?
  {
    StepKeepsInv(s, ev);
    ApprovedRaised(s.config.value, PendingOps(s), id);
  }

  /** After a configuration that approves a pending operation, the next vDPU update raises its flag (again)
      exactly when the vDPU was not managed as the configuration came. */
  lemma RaisedLaterIffUnmanaged(s: Scope, approval: Event, update: Event, id: string)
    requires Inv(s) && Possible(s, approval) && Approves(approval, id) && id in PendingOps(s)
             && Requestable(PendingOps(s)[id])
    requires Possible(Next(s, approval), update) && ManagedUpdate(update)
    ensures id in RaisedBy(Next(s, approval), update) <==> !Managed(s)
  {
    StepKeepsInv(s, approval);
    LedgerMoves(s, approval);
    PendingMeansPopulated(s);
    UpdateRaises(Next(s, approval), update, id);
  }

  /** In that case every later vDPU update raises it once more. */
  lemma RaisedByEveryUpdate(s: Scope, first: Event, second: Event, id: string)
    requires Inv(s) && Possible(s, first) && ManagedUpdate(first) && id in RaisedBy(s, first) && s.row.Some?
    requires Possible(Next(s, first), second) && ManagedUpdate(second)
    ensures id in RaisedBy(Next(s, first), second)
  {
    UpdateRaises(s, first, id);
    StepKeepsInv(s, first);
    UpdateRaises(Next(s, first), second, id);
  }

  /** A rising edge is recorded exactly when the row is populated; either way the edge is used up, and the same
      flag asks for nothing until it falls. */
  lemma EdgeRecordedIffPopulated(s: Scope, ev: Event, kind: string, later: DpuScope)
    requires Inv(s) && Possible(s, ev) && ev.DpuMsg? && ev.dpu.Some? && Rises(s.dpu, ev.dpu.value, kind)
    requires IdFor(ev.ids, kind) !in PendingOps(s)
    ensures IdFor(ev.ids, kind) in PendingOps(Next(s, ev)) <==> Populated(s)
    ensures Next(s, ev).dpu == ev.dpu && !Rises(Next(s, ev).dpu, later, kind)
  {
    StepKeepsInv(s, ev);
    LedgerMoves(s, ev);
    OneOperationPerEdge(s.dpu, ev.dpu.value, ev.ids, IdFor(ev.ids, kind), kind);
  }

  // ------------------------------------------------------ a run that repeats a request

  const FIRST := Config(1, false, "active", None)
  const APPROVAL := Config(2, false, "active", Some(["a"]))
  const SET := HaSet("10.0.0.1", None, "10.0.0.2", "10.0.0.3")
  const ASKING := DpuScope("active", 0, "1", true, false, false)

  function Upd(managed: bool): Event { VDpuMsg(Some(VDpu(managed, None, None)), map[], 0) }

  const STEPS: seq<Event> := [
    ConfigMsg(Put(FIRST), [], 0), Upd(true), HaSetMsg(Some(SET), 0), DpuMsg(Some(ASKING), ("a", "b", "c"), ["a"], 0),
    Upd(false), ConfigMsg(Put(APPROVAL), ["a"], 0), Upd(true), Upd(true)]

  lemma BasePopulates(s: Scope, ev: Event)
    requires Inv(s) && Possible(s, ev) && ev.HaSetMsg? && ev.haset.Some? && s.config.Some? && Managed(s)
    ensures Populated(Next(s, ev))
  {
    BaseStep(s.(hasetIn := ev.haset), ev.now);
  }

  const ASKED: Pending := map["a" := "activate_role"]

  /** Where the run stands: what is configured, whether the vDPU is managed, and what is pending. */
  ghost predicate Stands(s: Scope, config: Option<Config>, managed: bool, pend: Pending) {
    && Inv(s) && !s.stopped && s.config == config && Managed(s) == managed && PendingOps(s) == pend
    && (config.None? ==> s.row.None?)
  }

  lemma Configured(s: Scope)
    requires Stands(s, None, false, map[])
    ensures var ev := ConfigMsg(Put(FIRST), [], 0);
            && Possible(s, ev) && Stands(Next(s, ev), Some(FIRST), false, map[])
            && Next(s, ev).dpu == s.dpu && Next(s, ev).row == s.row
  {
    var ev := ConfigMsg(Put(FIRST), [], 0);
    assert NextPending(s, ev) == map[];
    StepKeepsInv(s, ev);
  }

  lemma Claimed(s: Scope)
    requires Stands(s, Some(FIRST), false, map[]) && s.row.None?
    ensures Possible(s, Upd(true)) && Stands(Next(s, Upd(true)), Some(FIRST), true, map[])
            && Next(s, Upd(true)).dpu == s.dpu
  {
    StepKeepsInv(s, Upd(true));
  }

  lemma Described(s: Scope)
    requires Stands(s, Some(FIRST), true, map[])
    ensures var ev := HaSetMsg(Some(SET), 0);
            && Possible(s, ev) && Stands(Next(s, ev), Some(FIRST), true, map[])
            && Populated(Next(s, ev)) && Next(s, ev).dpu == s.dpu
  {
    var ev := HaSetMsg(Some(SET), 0);
    StepKeepsInv(s, ev);
    BasePopulates(s, ev);
  }

  const ASK := DpuMsg(Some(ASKING), ("a", "b", "c"), ["a"], 0)

  lemma AskedPending(s: Scope)
    requires Populated(s) && PendingOps(s) == map[] && s.dpu == None
    ensures NextPending(s, ASK) == ASKED
  {
    assert Operations(None, ASKING, ("a", "b", "c")) == [("a", "activate_role")];
    AddAllIsUnion(map[], [("a", "activate_role")]);
  }

  lemma AskOk(cx: Codec)
    ensures EventOk(cx, ASK) && Enumerates(["a"], ASKED.Keys)
  {
    assert "active"[0] == 'a' && "none"[0] == 'n' && "1"[0] == '1';
  }

  lemma AskPossible(s: Scope)
    requires Populated(s) && !s.stopped && PendingOps(s) == map[] && s.dpu == None
    ensures Possible(s, ASK) && NextPending(s, ASK) == ASKED
  {
    AskedPending(s);
    AskOk(s.codec);
  }

  lemma Asked(s: Scope)
    requires Stands(s, Some(FIRST), true, map[]) && Populated(s) && s.dpu == None
    ensures Possible(s, ASK) && Stands(Next(s, ASK), Some(FIRST), true, ASKED)
  {
    AskPossible(s);
    StepKeepsInv(s, ASK);
    AskedStands(s, Next(s, ASK));
  }

  lemma AskedStands(s: Scope, s': Scope)
    requires Stands(s, Some(FIRST), true, map[]) && NextPending(s, ASK) == ASKED && Step(s, ASK) == Okay(s')
             && Moved(s, ASK, s')
    ensures Stands(s', Some(FIRST), true, ASKED)
  {
    DpuStanding(s.(dpuIn := ASK.dpu), ASK.ids, ASK.order, ASK.now);
  }

  lemma Released(s: Scope)
    requires Stands(s, Some(FIRST), true, ASKED)
    ensures Possible(s, Upd(false)) && Stands(Next(s, Upd(false)), Some(FIRST), false, ASKED)
  {
    StepKeepsInv(s, Upd(false));
  }

  lemma Granted(s: Scope)
    requires Stands(s, Some(FIRST), false, ASKED)
    ensures var ev := ConfigMsg(Put(APPROVAL), ["a"], 0);
            Possible(s, ev) && Stands(Next(s, ev), Some(APPROVAL), false, ASKED)
  {
    var ev := ConfigMsg(Put(APPROVAL), ["a"], 0);
    assert NextPending(s, ev) == ASKED;
    assert Enumerates(["a"], ASKED.Keys);
    StepKeepsInv(s, ev);
  }

  lemma Repeated(s: Scope, managed: bool)
    requires Stands(s, Some(APPROVAL), managed, ASKED)
    ensures Possible(s, Upd(true)) && Stands(Next(s, Upd(true)), Some(APPROVAL), true, ASKED)
    ensures "a" in RaisedBy(s, Upd(true)) && Next(s, Upd(true)).requests[..|s.requests|] == s.requests
  {
    PendingMeansPopulated(s);
    StepKeepsInv(s, Upd(true));
    assert "a" in APPROVAL.ApprovedIds();
    UpdateRaises(s, Upd(true), "a");
  }

  lemma NewStands(cx: Codec)
    requires Lawful(cx) && AcceptsGroups(cx)
    ensures Stands(NewScope(cx), None, false, map[]) && NewScope(cx).dpu == None
  {
    NewInv(cx);
  }

  predicate LastRaised(s: Scope) { s.requests != [] && "a" in s.requests[|s.requests| - 1].raisedBy }

  /** Where the run stands before event `k`. */
  ghost predicate Stage(k: nat, s: Scope) {
    match k
    case 0 => Stands(s, None, false, map[]) && s.dpu == None
    case 1 => Stands(s, Some(FIRST), false, map[]) && s.dpu == None && s.row.None?
    case 2 => Stands(s, Some(FIRST), true, map[]) && s.dpu == None
    case 3 => Stands(s, Some(FIRST), true, map[]) && s.dpu == None && Populated(s)
    case 4 => Stands(s, Some(FIRST), true, ASKED)
    case 5 => Stands(s, Some(FIRST), false, ASKED)
    case 6 => Stands(s, Some(APPROVAL), false, ASKED)
    case 7 => Stands(s, Some(APPROVAL), true, ASKED) && LastRaised(s)
    case _ => Repeats(s.requests)
  }

  ghost predicate Goes(k: nat, s: Scope)
    requires k < 8
  {
    Possible(s, STEPS[k]) && Stage(k + 1, Next(s, STEPS[k]))
  }

  lemma StageSetUp(k: nat, s: Scope)
    requires k < 2 && Stage(k, s)
    ensures Goes(k, s)
  {
    if k == 0 {
      Configured(s);
    } else {
      Claimed(s);
    }
  }

  lemma StageAsking(k: nat, s: Scope)
    requires 2 <= k < 4 && Stage(k, s)
    ensures Goes(k, s)
  {
    if k == 2 {
      Described(s);
    } else {
      Asked(s);
    }
  }

  lemma StageEarly(k: nat, s: Scope)
    requires k < 4 && Stage(k, s)
    ensures Goes(k, s)
  {
    if k < 2 {
      StageSetUp(k, s);
    } else {
      StageAsking(k, s);
    }
  }

  lemma StageGranting(k: nat, s: Scope)
    requires 4 <= k < 6 && Stage(k, s)
    ensures Goes(k, s)
  {
    if k == 4 {
      Released(s);
    } else {
      Granted(s);
    }
  }

  lemma StageRepeating(s: Scope)
    requires Stage(6, s)
    ensures Goes(6, s)
  {
    Repeated(s, false);
  }

  lemma StageLate(k: nat, s: Scope)
    requires 4 <= k < 8 && Stage(k, s)
    ensures Goes(k, s)
  {
    if k < 6 {
      StageGranting(k, s);
    } else if k == 6 {
      StageRepeating(s);
    } else {
      StageLast(s);
    }
  }

  lemma StageLast(s: Scope)
    requires Stage(7, s)
    ensures Goes(7, s)
  {
    RepeatedTwice(s);
  }

  lemma RepeatedTwice(s: Scope)
    requires Stands(s, Some(APPROVAL), true, ASKED) && LastRaised(s)
    ensures Possible(s, Upd(true)) && Repeats(Next(s, Upd(true)).requests)
  {
    Repeated(s, true);
    RaisedLastTwice(Next(s, Upd(true)).requests, s.requests);
  }

  lemma RaisedLastTwice(rs: seq<Request>, before: seq<Request>)
    requires before != [] && |rs| == |before| + 1 && rs[..|before|] == before
    requires "a" in before[|before| - 1].raisedBy && "a" in rs[|before|].raisedBy
    ensures Repeats(rs)
  {
    var q := |before|;
    assert rs[q - 1] == rs[..q][q - 1];
    assert "a" in rs[q - 1].raisedBy && "a" in rs[q].raisedBy;
  }

  lemma StageGoes(k: nat, s: Scope)
    requires k < 8 && Stage(k, s)
    ensures Goes(k, s)
  {
    if k < 4 {
      StageEarly(k, s);
    } else {
      StageLate(k, s);
    }
  }

  /** The states are those the events lead to. */
  ghost predicate Chained(states: seq<Scope>, evs: seq<Event>) {
    |states| == |evs| + 1 && forall i :: 0 <= i < |evs| ==> states[i + 1] == Next(states[i], evs[i])
  }

  lemma {:induction false} Chain(s: Scope, evs: seq<Event>) returns (states: seq<Scope>)
    ensures Chained(states, evs) && states[0] == s
    decreases |evs|
  {
    if evs == [] {
      states := [s];
    } else {
      var rest := Chain(Next(s, evs[0]), evs[1..]);
      states := [s] + rest;
      forall i | 0 <= i < |evs| ensures states[i + 1] == Next(states[i], evs[i]) {
        if i > 0 {
          assert rest[i] == Next(rest[i - 1], evs[1..][i - 1]);
        }
      }
    }
  }

  lemma {:induction false} StageReached(states: seq<Scope>, k: nat)
    requires Chained(states, STEPS) && Stage(0, states[0]) && k <= 8
    ensures Stage(k, states[k])
  {
    if k > 0 {
      StageReached(states, k - 1);
      StageGoes(k - 1, states[k - 1]);
    }
  }

  /** A run in which the approval finds the vDPU unmanaged, and two updates then ask the DPU for the same
      operation. */
  lemma RepeatedRequestRun(cx: Codec) returns (states: seq<Scope>)
    requires Lawful(cx) && AcceptsGroups(cx)
    ensures Run(cx, states, STEPS) && Repeats(states[8].requests)
  {
    NewStands(cx);
    states := Chain(NewScope(cx), STEPS);
    StageReached(states, 8);
    forall i | 0 <= i < 8 ensures Follows(states[i], STEPS[i], states[i + 1]) {
      StageReached(states, i);
      StageGoes(i, states[i]);
    }
  }
}
