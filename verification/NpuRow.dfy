/** The DASH_HA_SCOPE_STATE row of the NPU, written and read as a whole through the field codec
    (crates/hamgrd/src/db_structs.rs, crates/hamgrd/src/actors/ha_scope.rs). */
module NpuRow {
  import opened Wrappers
  import opened Text
  import opened FieldCodec
  import opened StructCodec

  /** The fields of `NpuDashHaScopeState` in declaration order. */
  datatype NpuField =
    | CreationTime | LastHeartbeat | VipV4 | VipV6 | LocalIp | PeerIp
    | LocalHaState | LocalHaStateTime | LocalHaStateReason | LocalTargetAsicHaState | LocalAckedAsicHaState
    | LocalTargetTerm | LocalAckedTerm | PeerHaState | PeerTerm
    | MidplaneState | MidplaneTime | ControlPlaneState | ControlPlaneTime | DataPlaneState | DataPlaneTime
    | BfdV4 | BfdV4Time | BfdV6 | BfdV6Time
    | PendingIds | PendingTypes | PendingTime
    | SwitchoverId | SwitchoverState | SwitchoverStart | SwitchoverEnd | SwitchoverApproved
    | FlowSyncId | FlowSyncState | FlowSyncStart | FlowSyncTarget

  const I64 := TInt(-0x8000_0000_0000_0000, 0x7FFF_FFFF_FFFF_FFFF)
  const PMON_STATE := TEnum(["up", "down", "unknown"])

  function TypeOf(n: NpuField): FieldType {
    match n
    case CreationTime | LastHeartbeat => I64
    case VipV4 | LocalIp | PeerIp => TStr
    case MidplaneState | ControlPlaneState | DataPlaneState => PMON_STATE
    case MidplaneTime | ControlPlaneTime | DataPlaneTime | BfdV4Time | BfdV6Time => I64
    case BfdV4 | BfdV6 => TList(TStr)
    case LocalHaStateTime | PendingTime | SwitchoverStart | SwitchoverEnd => TOpt(I64)
    case SwitchoverApproved | FlowSyncStart => TOpt(I64)
    case PendingIds | PendingTypes => TOpt(TList(TStr))
    case _ => TOpt(TStr)
  }

  predicate Known(n: NpuField) { true }

  function SpecOf(n: NpuField): Spec { Spec(TypeOf(n), if TypeOf(n).TOpt? then Some(VNone) else None) }

  const NPU_SCHEMA: Schema<NpuField> := map n: NpuField | Known(n) :: SpecOf(n)

  type Npu = Struct<NpuField>

  type Row = FieldMap<NpuField>

  function DefaultValue(t: FieldType): Value {
    match t
    case TBool => VBool(false)
    case TInt(_, _) => VInt(0)
    case TStr => VStr("")
    case TOpt(_) => VNone
    case TEnum(_) => VEnum("unknown")
    case TList(_) => VList([])
  }

  const DEFAULT_NPU: Npu := map n: NpuField | Known(n) :: DefaultValue(TypeOf(n))

  function EncodeNpu(v: Npu): Row { EncodeStruct(v, true) }

  function DecodeNpu(row: Row): Decoded<Npu> { DecodeStruct(NPU_SCHEMA, row) }

  predicate GoodField(n: NpuField, v: Value) { HasType(TypeOf(n), v) && Faithful(TypeOf(n), v) }

  predicate Total(v: Npu) { forall n: NpuField :: n in v }

  /** A row value that the codec gives back unchanged. */
  predicate Good(v: Npu) { Total(v) && forall n :: n in v ==> GoodField(n, v[n]) }

  lemma PmonUnambiguous()
    ensures Unambiguous(PMON_STATE.variants)
  {
    var vs := ["up", "down", "unknown"];
    assert vs[0][1] == 'p' && vs[1][0] == 'd' && vs[2][0] == 'u' && vs[2][1] == 'n';
    assert !Comparable(vs[1], vs[0]) && !Comparable(vs[2], vs[1]) && !Comparable(vs[2], vs[0]);
  }

  lemma PmonFaithful(name: string)
    requires name in ["up", "down", "unknown"]
    ensures HasType(PMON_STATE, VEnum(name)) && Faithful(PMON_STATE, VEnum(name))
  {
    PmonUnambiguous();
  }

  lemma DefaultGood()
    ensures Good(DEFAULT_NPU)
  {
    PmonFaithful("unknown");
    forall n: NpuField ensures n in DEFAULT_NPU && GoodField(n, DEFAULT_NPU[n]) {
      assert Known(n);
    }
  }

  /** The row field by field. The default row has times 0, texts and lists empty, plane states unknown, and every option
      absent; and an option, and no other field, may be missing from a row. */
  lemma DefaultRow(n: NpuField)
    ensures n in DEFAULT_NPU && n in NPU_SCHEMA
    ensures DEFAULT_NPU[n] ==
            match n
            case CreationTime | LastHeartbeat | MidplaneTime | ControlPlaneTime | DataPlaneTime | BfdV4Time
              | BfdV6Time => VInt(0)
            case VipV4 | LocalIp | PeerIp => VStr("")
            case MidplaneState | ControlPlaneState | DataPlaneState => VEnum("unknown")
            case BfdV4 | BfdV6 => VList([])
            case _ => VNone
    ensures NPU_SCHEMA[n].missing == if DEFAULT_NPU[n] == VNone then Some(VNone) else None
    ensures var time := TInt(-0x8000_0000_0000_0000, 0x7FFF_FFFF_FFFF_FFFF);
            NPU_SCHEMA[n].ftype ==
            match n
            case CreationTime | LastHeartbeat | MidplaneTime | ControlPlaneTime | DataPlaneTime | BfdV4Time
              | BfdV6Time => time
            case VipV4 | LocalIp | PeerIp => TStr
            case MidplaneState | ControlPlaneState | DataPlaneState => TEnum(["up", "down", "unknown"])
            case BfdV4 | BfdV6 => TList(TStr)
            case LocalHaStateTime | PendingTime | SwitchoverStart | SwitchoverEnd | SwitchoverApproved
              | FlowSyncStart => TOpt(time)
            case PendingIds | PendingTypes => TOpt(TList(TStr))
            case _ => TOpt(TStr)
  {
    assert Known(n);
  }

  /** A good value is never encoded as the empty row and is read back as it was. */
  lemma NpuRoundTrip(v: Npu)
    requires Good(v)
    ensures EncodeNpu(v) != map[] && DecodeNpu(EncodeNpu(v)) == Success(v)
  {
    forall n: NpuField ensures n in NPU_SCHEMA && NPU_SCHEMA[n] == SpecOf(n) {
      assert Known(n);
    }
    assert v.Keys == NPU_SCHEMA.Keys;
    forall n | n in NPU_SCHEMA ensures HasType(NPU_SCHEMA[n].ftype, v[n]) && Faithful(NPU_SCHEMA[n].ftype, v[n]) {
      assert GoodField(n, v[n]);
    }
    StructRoundTrip(NPU_SCHEMA, v, true, map[]);
    assert EncodeStruct(v, true) + map[] == EncodeStruct(v, true);
    assert GoodField(CreationTime, v[CreationTime]);
    assert CreationTime in EncodeNpu(v);
  }

  /** Rewriting the row with some fields changed leaves every other field as it was. */
  lemma RewriteFrames(v: Npu, u: Npu)
    requires Good(v) && forall n :: n in u ==> GoodField(n, u[n])
    ensures Good(v + u)
    ensures var back := DecodeNpu(EncodeNpu(v + u));
            back == Success(v + u) && forall n :: n !in u ==> n in v && back.value[n] == v[n]
  {
    forall n | n in v + u ensures GoodField(n, (v + u)[n]) {
      if n !in u {
        assert n in v;
      }
    }
    NpuRoundTrip(v + u);
  }

  lemma FieldDecoded(n: NpuField, s: string, v: Value)
    requires Decode(TypeOf(n), Some(s)) == Success(v)
    ensures GoodField(n, v)
  {
    var t := TypeOf(n);
    if t.TOpt? {
      OptionDecoded(t.elem, s, v);
    } else if t.TList? {
      ListDecoded(s, v);
    } else {
      PmonUnambiguous();
      ScalarDecoded(t, s, v);
    }
  }

  /** Whatever the row, what is read from it is a value the codec gives back. */
  lemma DecodedGood(row: Row)
    requires DecodeNpu(row).Success?
    ensures Good(DecodeNpu(row).value)
  {
    var v := DecodeNpu(row).value;
    forall n: NpuField ensures n in v && GoodField(n, v[n]) {
      assert Known(n) && NPU_SCHEMA[n] == SpecOf(n);
      if n in row {
        FieldDecoded(n, row[n], v[n]);
      }
    }
  }

  // -------------------------------------------------- pending-operation lists

  function Texts(xs: seq<string>): (vs: seq<Value>)
    ensures |vs| == |xs| && forall i :: 0 <= i < |xs| ==> vs[i] == VStr(xs[i])
  {
    seq(|xs|, i requires 0 <= i < |xs| => VStr(xs[i]))
  }

  function TextOf(v: Value): string { if v.VStr? then v.s else "" }

  /** The strings of an optional list field. */
  function StringsOf(v: Value): (xs: seq<string>) {
    if v.VSome? && v.v.VList? then seq(|v.v.vs|, i requires 0 <= i < |v.v.vs| => TextOf(v.v.vs[i])) else []
  }

  lemma StringsBack(xs: seq<string>)
    ensures StringsOf(VSome(VList(Texts(xs)))) == xs
  {
  }

  /** Ids and operation types hold no comma, are not empty and are not the word for an absent option. */
  predicate Plain(s: string) { ',' !in s && s != "" && s != "none" }

  lemma PlainListGood(xs: seq<string>)
    requires forall x :: x in xs ==> Plain(x)
    ensures var v := VSome(VList(Texts(xs))); HasType(TOpt(TList(TStr)), v) && Faithful(TOpt(TList(TStr)), v)
  {
    var vs := Texts(xs);
    forall x | x in vs ensures x.VStr? && Plain(x.s) {
      var i :| 0 <= i < |vs| && vs[i] == x;
      assert xs[i] in xs;
    }
    var parts := EncodeAll(vs);
    if |xs| == 1 {
      assert parts[0] == xs[0] && xs[0] in xs;
      assert Encode(VList(vs)) == xs[0];
    } else if |xs| > 1 {
      CommaSomewhere(parts);
      assert Encode(VList(vs)) == JoinOrEmpty(parts, ',');
      assert ',' !in "none";
    }
  }

  lemma CommaSomewhere(parts: seq<string>)
    requires |parts| > 1
    ensures ',' in JoinOrEmpty(parts, ',')
  {
    var s := JoinOrEmpty(parts, ',');
    assert s[|parts[0]|] == ',';
  }

  type Pending = map<string, string>

  /** Ids paired with types, as collected into a map. */
  function Zip(ids: seq<string>, types: seq<string>): Pending
    requires |ids| == |types|
  {
    if ids == [] then map[]
    else Zip(ids[..|ids| - 1], types[..|ids| - 1])[ids[|ids| - 1] := types[|ids| - 1]]
  }

  lemma {:induction false} ZipAt(ids: seq<string>, types: seq<string>)
    requires |ids| == |types| && forall i, j :: 0 <= i < j < |ids| ==> ids[i] != ids[j]
    ensures forall id :: id in Zip(ids, types) <==> id in ids
    ensures forall i :: 0 <= i < |ids| ==> ids[i] in Zip(ids, types) && Zip(ids, types)[ids[i]] == types[i]
  {
    if ids != [] {
      ZipAt(ids[..|ids| - 1], types[..|ids| - 1]);
    }
  }

  /** `get_pending_operations` on a decoded row: lists of different lengths are an error. */
  function PendingOf(v: Npu): Option<Pending> {
    if PendingIds in v && PendingTypes in v && v[PendingIds].VSome? && v[PendingTypes].VSome? then
      var ids, types := StringsOf(v[PendingIds]), StringsOf(v[PendingTypes]);
      if |ids| == |types| then Some(Zip(ids, types)) else None
    else Some(map[])
  }

  /** The type of an operation is the one beside the last occurrence of its id. */
  lemma {:induction false} ZipLast(ids: seq<string>, types: seq<string>, i: nat)
    requires |ids| == |types| && i < |ids| && forall j :: i < j < |ids| ==> ids[j] != ids[i]
    ensures ids[i] in Zip(ids, types) && Zip(ids, types)[ids[i]] == types[i]
  {
    if i < |ids| - 1 {
      ZipLast(ids[..|ids| - 1], types[..|ids| - 1], i);
    }
  }

  lemma {:induction false} ZipOnly(ids: seq<string>, types: seq<string>, id: string)
    requires |ids| == |types| && id !in ids
    ensures id !in Zip(ids, types)
  {
    if ids != [] {
      assert ids[|ids| - 1] in ids && forall x :: x in ids[..|ids| - 1] ==> x in ids;
      ZipOnly(ids[..|ids| - 1], types[..|ids| - 1], id);
    }
  }

  /** The lists of a row as it lists them. */
  predicate Lists(v: Npu, ids: seq<string>, types: seq<string>) {
    && PendingIds in v && v[PendingIds] == VSome(VList(Texts(ids)))
    && PendingTypes in v && v[PendingTypes] == VSome(VList(Texts(types)))
  }

  /** A row that has both lists gives the operations, each with its type, or an error exactly if they differ in length;
      a row that lacks one of them gives no operations. */
  lemma PendingRead(v: Npu, ids: seq<string>, types: seq<string>)
    ensures Lists(v, ids, types) ==> (PendingOf(v).None? <==> |ids| != |types|)
    ensures Lists(v, ids, types) && |ids| == |types| ==>
              && (forall id :: id in PendingOf(v).value <==> id in ids)
              && (forall i :: 0 <= i < |ids| && (forall j :: i < j < |ids| ==> ids[j] != ids[i]) ==>
                    ids[i] in PendingOf(v).value && PendingOf(v).value[ids[i]] == types[i])
    ensures (PendingIds in v && v[PendingIds] == VNone) || (PendingTypes in v && v[PendingTypes] == VNone) ==>
              PendingOf(v) == Some(map[])
  {
    if Lists(v, ids, types) {
      StringsBack(ids);
      StringsBack(types);
      if |ids| == |types| {
        ZipMeans(ids, types);
      }
    }
  }

  lemma ZipMeans(ids: seq<string>, types: seq<string>)
    requires |ids| == |types|
    ensures forall id :: id in Zip(ids, types) <==> id in ids
    ensures forall i :: 0 <= i < |ids| && (forall j :: i < j < |ids| ==> ids[j] != ids[i]) ==>
              ids[i] in Zip(ids, types) && Zip(ids, types)[ids[i]] == types[i]
  {
    forall i | 0 <= i < |ids| && (forall j :: i < j < |ids| ==> ids[j] != ids[i])
      ensures ids[i] in Zip(ids, types) && Zip(ids, types)[ids[i]] == types[i]
    {
      ZipLast(ids, types, i);
    }
    forall id ensures id in Zip(ids, types) <==> id in ids {
      if id in ids {
        ZipHolds(ids, types, id);
      } else {
        ZipOnly(ids, types, id);
      }
    }
  }

  lemma {:induction false} ZipHolds(ids: seq<string>, types: seq<string>, id: string)
    requires |ids| == |types| && id in ids
    ensures id in Zip(ids, types)
  {
    if ids[|ids| - 1] != id {
      assert ids == ids[..|ids| - 1] + [ids[|ids| - 1]];
      ZipHolds(ids[..|ids| - 1], types[..|ids| - 1], id);
    }
  }

  /** The pending lists have the same length, the ids are distinct, and everything in them is plain. */
  predicate PendingListsOk(v: Npu)
    requires Total(v)
  {
    var ids, types := StringsOf(v[PendingIds]), StringsOf(v[PendingTypes]);
    && (v[PendingIds].VSome? <==> v[PendingTypes].VSome?)
    && |ids| == |types|
    && (forall i, j :: 0 <= i < j < |ids| ==> ids[i] != ids[j])
    && (forall x :: x in ids ==> Plain(x)) && (forall x :: x in types ==> Plain(x))
  }

  // ------------------------------------------------------------- row codecs

  /** A way to write a row and read it back, the field values it preserves, and the default row. */
  datatype Codec = Codec(
    encode: Npu -> Row, decode: Row -> Option<Npu>, good: (NpuField, Value) -> bool, blank: Npu)

  ghost predicate AllGood(cx: Codec, v: Npu) { forall n :: n in v ==> cx.good(n, v[n]) }

  /** Good rows come back unchanged and are never empty, only whole and good rows are read, and the default row is
      good and lists nothing. */
  ghost predicate Lawful(cx: Codec) {
    && (forall v :: Total(v) && AllGood(cx, v) ==> cx.encode(v) != map[] && cx.decode(cx.encode(v)) == Some(v))
    && (forall row :: cx.decode(row).Some? ==> Total(cx.decode(row).value) && AllGood(cx, cx.decode(row).value))
    && Total(cx.blank) && AllGood(cx, cx.blank) && cx.blank[PendingIds] == VNone && cx.blank[PendingTypes] == VNone
  }

  function ReadNpu(row: Row): Option<Npu> {
    match DecodeNpu(row) case Success(v) => Some(v) case Failure(_) => None
  }

  /** The codec of the actor. */
  const NPU_CODEC := Codec(EncodeNpu, ReadNpu, GoodField, DEFAULT_NPU)

  lemma NpuCodecRoundTrips(v: Npu)
    requires Total(v) && AllGood(NPU_CODEC, v)
    ensures NPU_CODEC.encode(v) != map[] && NPU_CODEC.decode(NPU_CODEC.encode(v)) == Some(v)
  {
    forall n | n in v ensures GoodField(n, v[n]) {
      assert NPU_CODEC.good(n, v[n]);
    }
    NpuRoundTrip(v);
  }

  lemma NpuCodecTotal(row: Row)
    requires NPU_CODEC.decode(row).Some?
    ensures Total(NPU_CODEC.decode(row).value) && AllGood(NPU_CODEC, NPU_CODEC.decode(row).value)
  {
    DecodedGood(row);
  }

  lemma NpuCodecBlank()
    ensures Total(NPU_CODEC.blank) && AllGood(NPU_CODEC, NPU_CODEC.blank)
    ensures NPU_CODEC.blank[PendingIds] == VNone && NPU_CODEC.blank[PendingTypes] == VNone
  {
    DefaultGood();
    assert Known(PendingIds) && Known(PendingTypes);
  }

  lemma NpuCodecLawful()
    ensures Lawful(NPU_CODEC)
  {
    NpuCodecBlank();
    forall v | Total(v) && AllGood(NPU_CODEC, v)
      ensures NPU_CODEC.encode(v) != map[] && NPU_CODEC.decode(NPU_CODEC.encode(v)) == Some(v)
    {
      NpuCodecRoundTrips(v);
    }
    forall row | NPU_CODEC.decode(row).Some?
      ensures Total(NPU_CODEC.decode(row).value) && AllGood(NPU_CODEC, NPU_CODEC.decode(row).value)
    {
      NpuCodecTotal(row);
    }
  }
}
