/** The fields the HA-scope actor writes are the ones its codec preserves. */
module HaScopeInputs {
  import opened FieldCodec
  import opened DbStructs
  import opened NpuRow
  import opened HaScope
  import opened HaScopeRuns
  import opened HaScopeLedger

  // -------------------------------------------------------- good field groups

  lemma TextGood(n: NpuField, t: string)
    requires TypeOf(n) == TOpt(TStr) && t != "none"
    ensures GoodField(n, VSome(VStr(t)))
  {
  }

  lemma TimeGood(n: NpuField, t: int)
    requires InI64(t) && TypeOf(n) in {I64, TOpt(I64)}
    ensures TypeOf(n) == I64 ==> GoodField(n, VInt(t))
    ensures TypeOf(n) == TOpt(I64) ==> GoodField(n, VSome(VInt(t)))
  {
    IntTextPlain(t);
  }

  lemma SessionsGood(n: NpuField, xs: seq<string>)
    requires TypeOf(n) == TList(TStr) && SessionsOk(xs)
    ensures GoodField(n, VList(Texts(xs)))
  {
    var vs := Texts(xs);
    forall x | x in vs ensures x.VStr? && ',' !in x.s {
      var i :| 0 <= i < |vs| && vs[i] == x;
      assert xs[i] in xs;
    }
  }

  lemma PmonGood(n: NpuField, p: PmonState)
    requires TypeOf(n) == PMON_STATE
    ensures GoodField(n, VEnum(PmonText(p)))
  {
    PmonFaithful(PmonText(p));
  }

  predicate Fine(u: Npu) { forall n :: n in u ==> GoodField(n, u[n]) }

  lemma HaSetGood(h: HaSet)
    requires HaSetOk(h)
    ensures Fine(HaSetFields(h))
  {
    if h.vipV6.Some? {
      TextGood(VipV6, h.vipV6.value);
    }
    assert GoodField(VipV6, OptText(h.vipV6));
  }

  lemma FineUnion(u: Npu, w: Npu)
    requires Fine(u) && Fine(w)
    ensures Fine(u + w)
  {
  }

  lemma PlaneGood(state: NpuField, time: NpuField, p: PmonState, t: int)
    requires TypeOf(state) == PMON_STATE && TypeOf(time) == I64 && InI64(t)
    ensures Fine(PlaneFields(state, time, p, t))
  {
    PmonGood(state, p);
    TimeGood(time, t);
  }

  lemma PmonFieldsGood(p: DpuState)
    requires InI64(p.midplaneTime) && InI64(p.controlTime) && InI64(p.dataTime)
    ensures Fine(PmonFields(p))
  {
    PlaneGood(MidplaneState, MidplaneTime, p.midplane, p.midplaneTime);
    PlaneGood(ControlPlaneState, ControlPlaneTime, p.control, p.controlTime);
    PlaneGood(DataPlaneState, DataPlaneTime, p.data, p.dataTime);
    var a := PlaneFields(MidplaneState, MidplaneTime, p.midplane, p.midplaneTime);
    var b := PlaneFields(ControlPlaneState, ControlPlaneTime, p.control, p.controlTime);
    FineUnion(a, b);
    FineUnion(a + b, PlaneFields(DataPlaneState, DataPlaneTime, p.data, p.dataTime));
  }

  lemma BfdFieldsGood(b: BfdState)
    requires SessionsOk(b.v4) && SessionsOk(b.v6) && InI64(b.v4Time) && InI64(b.v6Time)
    ensures Fine(BfdFields(b))
  {
    SessionsGood(BfdV4, b.v4);
    SessionsGood(BfdV6, b.v6);
    TimeGood(BfdV4Time, b.v4Time);
    TimeGood(BfdV6Time, b.v6Time);
  }

  lemma BaseGood(v: VDpu, h: HaSet, now: int)
    requires VDpuOk(v) && HaSetOk(h) && InI64(now)
    ensures Fine(BaseFields(PmonOr(v, now), BfdOr(v, now), h))
  {
    var pmon, bfd := PmonOr(v, now), BfdOr(v, now);
    HaSetGood(h);
    PmonFieldsGood(pmon);
    BfdFieldsGood(bfd);
    FineUnion(HaSetFields(h), PmonFields(pmon));
    FineUnion(HaSetFields(h) + PmonFields(pmon), BfdFields(bfd));
  }

  lemma HaGood(c: Config, d: DpuScope)
    requires ConfigOk(c) && DpuOk(d)
    ensures forall n :: n in HaFields(c, d) ==> GoodField(n, HaFields(c, d)[n])
  {
    var u := HaFields(c, d);
    forall n | n in u ensures GoodField(n, u[n]) {
      if n == LocalHaStateTime {
        TimeGood(n, d.haRoleStartTime);
      } else {
        assert "dpu initiated"[0] == 'd';
        TextGood(n, u[n].v.s);
      }
    }
  }

  lemma ListGood(n: NpuField, xs: seq<string>)
    requires TypeOf(n) == TOpt(TList(TStr)) && forall x :: x in xs ==> Plain(x)
    ensures GoodField(n, VSome(VList(Texts(xs))))
  {
    PlainListGood(xs);
  }

  lemma FineThree(a: NpuField, x: Value, b: NpuField, y: Value, c: NpuField, z: Value)
    requires GoodField(a, x) && GoodField(b, y) && GoodField(c, z)
    ensures Fine(map[a := x, b := y, c := z])
  {
  }

  lemma PendingGood(ids: seq<string>, types: seq<string>, now: int)
    requires PlainLists(ids, types) && InI64(now)
    ensures Fine(PendingFields(ids, types, now))
  {
    ListGood(PendingIds, ids);
    ListGood(PendingTypes, types);
    TimeGood(PendingTime, now);
    FineThree(PendingIds, VSome(VList(Texts(ids))), PendingTypes, VSome(VList(Texts(types))),
              PendingTime, VSome(VInt(now)));
  }

  /** The codec of the actor is lawful and preserves what the actor writes. */
  lemma NpuCodecAccepts()
    ensures Lawful(NPU_CODEC) && AcceptsGroups(NPU_CODEC)
  {
    NpuCodecLawful();
    forall v, h, now | VDpuOk(v) && HaSetOk(h) && InI64(now)
      ensures AllGood(NPU_CODEC, BaseFields(PmonOr(v, now), BfdOr(v, now), h))
    {
      BaseGood(v, h, now);
    }
    forall c, d | ConfigOk(c) && DpuOk(d) ensures AllGood(NPU_CODEC, HaFields(c, d)) {
      HaGood(c, d);
    }
    forall ids, types, now | PlainLists(ids, types) && InI64(now)
      ensures AllGood(NPU_CODEC, PendingFields(ids, types, now))
    {
      PendingGood(ids, types, now);
    }
  }

  /** So what is proved of runs holds of the actor's own: in every state it reaches the row is well formed, and
      every handler succeeds, unless the first configuration finds a managed vDPU state already there. */
  lemma ActorRunSound(cx: Codec, states: seq<Scope>, evs: seq<Event>, i: nat)
    requires cx == NPU_CODEC && |states| == |evs| + 1 && states[0] == NewScope(cx) && i < |evs|
    requires forall k :: 0 <= k < |evs| ==> Follows(states[k], evs[k], states[k + 1])
    ensures Run(cx, states, evs)
    ensures Inv(states[i]) && !Step(states[i], evs[i]).Fails?
    ensures if Crashes(states[i], evs[i]) then Step(states[i], evs[i]).Panics?
            else Step(states[i], evs[i]) == Okay(states[i + 1])
  {
    NpuCodecAccepts();
    assert Run(cx, states, evs);
    RunSound(cx, states, evs, i);
  }
}
