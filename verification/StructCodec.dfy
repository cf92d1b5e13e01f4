/** Structs as field maps (crates/swss-serde/src/field_values.rs). Names may be of any type. */
module StructCodec {
  import opened Wrappers
  import opened Orders
  import opened FieldCodec

  /** A struct field. `missing` is the value of an absent field: None for options, the default if there is
      one, and otherwise there is none and decoding fails. */
  datatype Spec = Spec(ftype: FieldType, missing: Option<Value>)

  type Schema<N> = map<N, Spec>

  type FieldMap<N> = map<N, string>

  type Struct<N> = map<N, Value>

  /** A value of the struct type. */
  predicate Typed<N>(schema: Schema<N>, v: Struct<N>) {
    v.Keys == schema.Keys && forall n :: n in schema ==> HasType(schema[n].ftype, v[n])
  }

  // ------------------------------------------------------------------ encode

  /** With `skip_serializing_none`, absent options are left out. */
  predicate Written(v: Value, skipNone: bool) { !(skipNone && v == VNone) }

  function EncodeStruct<N>(v: Struct<N>, skipNone: bool): FieldMap<N> {
    map n | n in v && Written(v[n], skipNone) :: Encode(v[n])
  }

  /** `serialize_field` inserts the fields one by one, in declaration order. */
  method SerializeStruct<N(==)>(fields: seq<N>, v: Struct<N>, skipNone: bool) returns (fvs: FieldMap<N>)
    requires Enumerates(fields, v.Keys)
    ensures fvs == EncodeStruct(v, skipNone)
  {
    fvs := map[];
    for i := 0 to |fields|
      invariant forall n :: n in fvs <==> n in fields[..i] && n in v && Written(v[n], skipNone)
      invariant forall n :: n in fvs ==> fvs[n] == Encode(v[n])
    {
      var n := fields[i];
      assert n in fields && fields[..i + 1] == fields[..i] + [n];
      if Written(v[n], skipNone) {
        fvs := fvs[n := Encode(v[n])];
      }
    }
    assert fields[..|fields|] == fields;
  }

  // ------------------------------------------------------------------ decode

  function FieldValue<N>(spec: Spec, n: N, fvs: FieldMap<N>): Decoded<Value> {
    if n in fvs then Decode(spec.ftype, Some(fvs[n]))
    else match spec.missing case Some(v) => Success(v) case None => Failure(DecodeError)
  }

  predicate AllDecode<N>(schema: Schema<N>, fvs: FieldMap<N>) {
    forall n :: n in schema ==> FieldValue(schema[n], n, fvs).Success?
  }

  /** Decoding by field, without regard to any order of the map; fields the struct does not have are ignored. */
  function DecodeStruct<N>(schema: Schema<N>, fvs: FieldMap<N>): Decoded<Struct<N>> {
    if AllDecode(schema, fvs)
    then Success(map n | n in schema :: FieldValue(schema[n], n, fvs).value)
    else Failure(DecodeError)
  }

  /** The map holds the text of each field that is written, and of no other. */
  lemma FieldsWritten<N>(v: Struct<N>, skipNone: bool, n: N)
    ensures n in EncodeStruct(v, skipNone) <==> n in v && !(skipNone && v[n].VNone?)
    ensures n in EncodeStruct(v, skipNone) ==> EncodeStruct(v, skipNone)[n] == Encode(v[n])
  {
  }

  /** A struct is read exactly from the maps that decode to it field by field, an absent field to its missing value. */
  lemma FieldsRead<N>(schema: Schema<N>, fvs: FieldMap<N>, v: Struct<N>)
    ensures DecodeStruct(schema, fvs) == Success(v) <==>
            && v.Keys == schema.Keys
            && forall n :: n in schema ==>
                 if n in fvs then Decode(schema[n].ftype, Some(fvs[n])) == Success(v[n])
                 else schema[n].missing == Some(v[n])
  {
    if v.Keys == schema.Keys && AllDecode(schema, fvs) {
      var w := map n | n in schema :: FieldValue(schema[n], n, fvs).value;
      assert w == v <==> forall n :: n in schema ==> w[n] == v[n];
    }
  }

  // -------------------------------------------------------------- round trip

  /** A field left out when it is None is None again when it is absent. */
  predicate Fillable<N>(schema: Schema<N>, skipNone: bool) {
    skipNone ==> forall n :: n in schema && schema[n].ftype.TOpt? ==> schema[n].missing == Some(VNone)
  }

  lemma FieldBack<N>(spec: Spec, n: N, v: Struct<N>, skipNone: bool, extra: FieldMap<N>)
    requires n in v && HasType(spec.ftype, v[n]) && n !in extra
    requires skipNone && spec.ftype.TOpt? ==> spec.missing == Some(VNone)
    ensures FieldValue(spec, n, EncodeStruct(v, skipNone) + extra) == Success(v[n]) <==> Faithful(spec.ftype, v[n])
  {
    FieldRoundTrip(spec.ftype, v[n]);
  }

  /** A struct survives, whatever other fields the map holds, if and only if each of its fields does. */
  lemma StructRoundTrip<N>(schema: Schema<N>, v: Struct<N>, skipNone: bool, extra: FieldMap<N>)
    requires Typed(schema, v) && Fillable(schema, skipNone) && extra.Keys !! schema.Keys
    ensures DecodeStruct(schema, EncodeStruct(v, skipNone) + extra) == Success(v)
       <==> forall n :: n in schema ==> Faithful(schema[n].ftype, v[n])
  {
    var fvs := EncodeStruct(v, skipNone) + extra;
    forall n | n in schema
      ensures FieldValue(schema[n], n, fvs) == Success(v[n]) <==> Faithful(schema[n].ftype, v[n])
    {
      FieldBack(schema[n], n, v, skipNone, extra);
    }
    if AllDecode(schema, fvs) {
      var w := map n | n in schema :: FieldValue(schema[n], n, fvs).value;
      assert w == v <==> forall n :: n in schema ==> w[n] == v[n];
    }
  }

  // ------------------------------------------------------------- map access

  /** The iterator over the map. The order is whatever the hash map gives. */
  class FieldValuesMapAccess<N(==)> {
    const fvs: FieldMap<N>
    var iter: seq<N>
    var currentValueForKey: Option<string>

    constructor (fvs: FieldMap<N>, order: seq<N>)
      ensures this.fvs == fvs && iter == order && currentValueForKey == None
    {
      this.fvs, iter, currentValueForKey := fvs, order, None;
    }

    method NextKey() returns (key: Option<N>)
      requires forall n :: n in iter ==> n in fvs
      modifies this
      ensures old(iter) == [] ==> key == None && iter == [] && currentValueForKey == None
      ensures old(iter) != [] ==> key == Some(old(iter)[0]) && iter == old(iter)[1..]
                                  && currentValueForKey == Some(fvs[old(iter)[0]])
    {
      if iter == [] {
        currentValueForKey := None;
        return None;
      }
      assert iter[0] in iter;
      key := Some(iter[0]);
      currentValueForKey := Some(fvs[iter[0]]);
      iter := iter[1..];
    }

    /** Asking for a value without a key before it is an error. */
    method NextValue(t: FieldType) returns (r: Decoded<Value>)
      modifies this`currentValueForKey
      ensures currentValueForKey == None
      ensures r == match old(currentValueForKey) case Some(s) => Decode(t, Some(s)) case None => Failure(DecodeError)
    {
      match currentValueForKey
      case Some(s) =>
        currentValueForKey := None;
        r := Decode(t, Some(s));
      case None =>
        r := Failure(DecodeError);
    }
  }

  /** The visitor loop: whatever the order of the map, the struct is the one decoded field by field. */
  method DeserializeStruct<N(==)>(schema: Schema<N>, fvs: FieldMap<N>, order: seq<N>) returns (r: Decoded<Struct<N>>)
    requires Enumerates(order, fvs.Keys)
    ensures r == DecodeStruct(schema, fvs)
  {
    var access := new FieldValuesMapAccess<N>(fvs, order);
    var seen: Struct<N> := map[];
    var i := 0;
    var key := access.NextKey();
    while key.Some?
      invariant access.fvs == fvs && 0 <= i <= |order|
      invariant forall n :: n in access.iter ==> n in fvs
      invariant key.Some? ==> i < |order| && key.value == order[i] && access.iter == order[i + 1..]
                              && access.currentValueForKey == Some(fvs[order[i]])
      invariant key.None? ==> i == |order|
      invariant forall n :: n in seen <==> n in schema && n in order[..i]
      invariant forall n :: n in seen ==> FieldValue(schema[n], n, fvs) == Success(seen[n])
      decreases |order| - i
    {
      var n := key.value;
      assert order[i] in order;
      if n in schema {
        var v := access.NextValue(schema[n].ftype);
        if v.Failure? {
          assert FieldValue(schema[n], n, fvs).Failure?;
          return Failure(DecodeError);
        }
        seen := seen[n := v.value];
      } else {
        var _ := access.NextValue(TStr);
      }
      assert order[..i + 1] == order[..i] + [order[i]];
      i := i + 1;
      key := access.NextKey();
    }
    assert order[..|order|] == order;
    r := FillMissing(schema, fvs, seen);
  }

  lemma DecodedIs<N>(schema: Schema<N>, fvs: FieldMap<N>, v: Struct<N>)
    requires v.Keys == schema.Keys && forall n :: n in schema ==> FieldValue(schema[n], n, fvs) == Success(v[n])
    ensures DecodeStruct(schema, fvs) == Success(v)
  {
    assert AllDecode(schema, fvs);
    assert v == map n | n in schema :: FieldValue(schema[n], n, fvs).value;
  }

  /** Fields that did not appear get their default; a field without one fails the whole. */
  method Defaults<N(==)>(schema: Schema<N>, seen: Struct<N>) returns (v: Option<Struct<N>>)
    requires seen.Keys <= schema.Keys
    ensures v.None? ==> exists n :: n in schema && n !in seen && schema[n].missing.None?
    ensures v.Some? ==>
              && v.value.Keys == schema.Keys
              && forall n :: n in schema ==>
                   if n in seen then v.value[n] == seen[n] else schema[n].missing == Some(v.value[n])
  {
    var w, todo := seen, schema.Keys - seen.Keys;
    while todo != {}
      invariant forall n :: n in todo ==> n in schema && n !in seen
      invariant forall n :: n in w ==> n in schema
      invariant forall n :: n in schema ==> (n in w <==> n !in todo)
      invariant forall n :: n in w ==> if n in seen then w[n] == seen[n] else schema[n].missing == Some(w[n])
      decreases |todo|
    {
      var n :| n in todo;
      if schema[n].missing.None? {
        return None;
      }
      w := w[n := schema[n].missing.value];
      todo := todo - {n};
    }
    v := Some(w);
  }

  method FillMissing<N(==)>(schema: Schema<N>, fvs: FieldMap<N>, seen: Struct<N>) returns (r: Decoded<Struct<N>>)
    requires forall n :: n in seen <==> n in schema && n in fvs
    requires forall n :: n in seen ==> FieldValue(schema[n], n, fvs) == Success(seen[n])
    ensures r == DecodeStruct(schema, fvs)
  {
    var v := Defaults(schema, seen);
    if v.None? {
      ghost var n :| n in schema && n !in seen && schema[n].missing.None?;
      assert FieldValue(schema[n], n, fvs).Failure?;
      return Failure(DecodeError);
    }
    forall n | n in schema ensures FieldValue(schema[n], n, fvs) == Success(v.value[n]) {
    }
    DecodedIs(schema, fvs, v.value);
    r := Success(v.value);
  }
}
