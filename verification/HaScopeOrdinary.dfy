/** The ordinary course of an operation, on the runtime and its database: the DPU asks for it, the vDPU changes in
    between, and the controller approves it (crates/hamgrd/src/actors/ha_scope.rs). */
module HaScopeOrdinary {
  import opened Wrappers
  import opened NpuRow
  import opened HaScope
  import opened HaScopeRuns
  import opened HaScopeLedger
  import opened HaScopeRequests
  import opened HaScopeDatabase
  import Table = InternalTable

  const APPROVE := ConfigMsg(Put(APPROVAL), [], 0)

  const COURSE: seq<Event> := STEPS[..4] + [Upd(true), APPROVE]

  /** Where the run stands before event `k`. */
  ghost predicate Mark(k: nat, s: Scope) {
    if k <= 4 then Stage(k, s)
    else if k == 5 then Stands(s, Some(FIRST), true, ASKED)
    else Stands(s, Some(APPROVAL), true, map[])
  }

  lemma Updated(s: Scope)
    requires Stands(s, Some(FIRST), true, ASKED)
    ensures Possible(s, Upd(true)) && Stands(Next(s, Upd(true)), Some(FIRST), true, ASKED)
  {
    PendingMeansPopulated(s);
    StepKeepsInv(s, Upd(true));
  }

  lemma Cleared(s: Scope)
    requires Stands(s, Some(FIRST), true, ASKED)
    ensures Possible(s, APPROVE) && Stands(Next(s, APPROVE), Some(APPROVAL), true, map[])
  {
    PendingMeansPopulated(s);
    LedgerMoves(s, APPROVE);
    assert NextPending(s, APPROVE) == map[];
    StepKeepsInv(s, APPROVE);
    ConfigStanding(s, APPROVAL, [], 0);
  }

  lemma MarkGoes(k: nat, s: Scope)
    requires k < 6 && Mark(k, s)
    ensures Possible(s, COURSE[k]) && Mark(k + 1, Next(s, COURSE[k]))
  {
    if k < 4 {
      StageEarly(k, s);
      assert COURSE[k] == STEPS[k];
    } else if k == 4 {
      Updated(s);
    } else {
      Cleared(s);
    }
  }

  lemma {:induction false} MarkReached(states: seq<Scope>, k: nat)
    requires Chained(states, COURSE) && Mark(0, states[0]) && k <= 6
    ensures Mark(k, states[k])
  {
    if k > 0 {
      MarkReached(states, k - 1);
      MarkGoes(k - 1, states[k - 1]);
    }
  }

  lemma CourseRuns(cx: Codec) returns (states: seq<Scope>)
    requires Lawful(cx) && AcceptsGroups(cx)
    ensures Run(cx, states, COURSE) && Chained(states, COURSE) && Mark(0, states[0])
  {
    NewStands(cx);
    states := Chain(NewScope(cx), COURSE);
    forall i | 0 <= i < 6 ensures Follows(states[i], COURSE[i], states[i + 1]) {
      MarkReached(states, i);
      MarkGoes(i, states[i]);
    }
  }

  lemma CourseShape()
    ensures forall i :: 0 <= i < |COURSE| && COURSE[i].DpuMsg? ==> i == 3
    ensures forall i :: 0 <= i < |COURSE| && ApprovesSome(COURSE[i]) ==> i == 5
    ensures forall i :: 0 <= i < |COURSE| && COURSE[i].VDpuMsg? ==> COURSE[i].dbRow == map[]
    ensures |COURSE| == 6 && ManagedUpdate(COURSE[4])
  {
  }

  /** The ledger at the marks. */
  lemma MarksTell(states: seq<Scope>)
    requires Chained(states, COURSE) && Mark(0, states[0])
    ensures Populated(states[3]) && Managed(states[5]) && Populated(states[4])
    ensures PendingOps(states[4]) == PendingOps(states[5]) == ASKED && PendingOps(states[6]) == map[]
  {
    MarkTells(states, 3);
    MarkTells(states, 4);
    MarkTells(states, 5);
    MarkTells(states, 6);
  }

  lemma MarkTells(states: seq<Scope>, k: nat)
    requires Chained(states, COURSE) && Mark(0, states[0]) && 3 <= k <= 6
    ensures k == 3 || k == 4 ==> Populated(states[k])
    ensures k == 4 || k == 5 ==> PendingOps(states[k]) == ASKED && Managed(states[k])
    ensures k == 6 ==> PendingOps(states[k]) == map[]
  {
    assert "a" in ASKED;
    MarkReached(states, k);
    PendingMeansPopulated(states[k]);
  }

  lemma CourseIsOrderly(cx: Codec, states: seq<Scope>, evs: seq<Event>)
    requires |states| == |evs| + 1 == 7 && Populated(states[3]) && Managed(states[5])
    requires forall i :: 0 <= i < 6 && evs[i].DpuMsg? ==> i == 3
    requires forall i :: 0 <= i < 6 && ApprovesSome(evs[i]) ==> i == 5
    requires forall i :: 0 <= i < 6 && evs[i].VDpuMsg? ==> evs[i].dbRow == map[]
    ensures PopulatedFirst(states, evs) && ApprovedWhenManaged(states, evs)
    ensures NoLeftovers(cx, states, evs) && FreshIds(evs)
  {
  }

  /** A run on the database, within the conditions of conservation: the operation is pending before and after a
      vDPU update, and gone once it is approved. */
  lemma PendingAcrossUpdate(cx: Codec, at: Table.Row) returns (states: seq<Scope>, tables: seq<Tables>)
    requires Lawful(cx) && AcceptsGroups(cx)
    ensures Run(cx, states, COURSE) && TableRun(states, COURSE, tables, at)
    ensures PopulatedFirst(states, COURSE) && ApprovedWhenManaged(states, COURSE)
    ensures NoLeftovers(cx, states, COURSE) && FreshIds(COURSE)
    ensures PendingOps(states[4]) == PendingOps(states[5]) == ASKED && PendingOps(states[6]) == map[]
    ensures ManagedUpdate(COURSE[4]) && Populated(states[4])
  {
    CourseShape();
    states := CourseRuns(cx);
    MarksTell(states);
    CourseIsOrderly(cx, states, COURSE);
    tables := OnDatabase(cx, states, COURSE, at);
  }

  /** A run whose vDPU messages carry an empty row is a run on an empty database. */
  lemma OnDatabase(cx: Codec, states: seq<Scope>, evs: seq<Event>, at: Table.Row) returns (tables: seq<Tables>)
    requires Run(cx, states, evs) && forall i :: 0 <= i < |evs| && evs[i].VDpuMsg? ==> evs[i].dbRow == map[]
    ensures TableRun(states, evs, tables, at)
  {
    tables := TablesExist(cx, states, evs, map[], at, |evs|);
  }

  /** The run that repeats a request is a run on a database, too. */
  lemma RepeatedOnDatabase(cx: Codec, at: Table.Row) returns (states: seq<Scope>, tables: seq<Tables>)
    requires Lawful(cx) && AcceptsGroups(cx)
    ensures Run(cx, states, STEPS) && TableRun(states, STEPS, tables, at) && Repeats(states[8].requests)
  {
    states := RepeatedRequestRun(cx);
    assert forall i :: 0 <= i < 8 && STEPS[i].VDpuMsg? ==> STEPS[i].dbRow == map[];
    tables := OnDatabase(cx, states, STEPS, at);
  }
}
