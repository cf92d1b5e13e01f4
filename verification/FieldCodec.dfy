/** The codec of single field values (crates/swss-serde/src/field_value.rs). */
module FieldCodec {
  import opened Wrappers
  import opened Text

  /** Integer types are given by their bounds. */
  datatype FieldType =
    | TBool
    | TInt(lo: int, hi: int)
    | TStr
    | TOpt(elem: FieldType)
    | TEnum(variants: seq<string>)
    | TList(elem: FieldType)

  datatype Value =
    | VBool(b: bool)
    | VInt(i: int)
    | VStr(s: string)
    | VNone
    | VSome(v: Value)
    | VEnum(name: string)
    | VList(vs: seq<Value>)

  predicate HasType(t: FieldType, v: Value)
    decreases v
  {
    match t
    case TBool => v.VBool?
    case TInt(lo, hi) => v.VInt? && lo <= v.i <= hi
    case TStr => v.VStr?
    case TOpt(e) => v.VNone? || (v.VSome? && HasType(e, v.v))
    case TEnum(variants) =>
      && v.VEnum? && v.name in variants
      && (forall i, j :: 0 <= i < j < |variants| ==> variants[i] != variants[j])
    case TList(e) => v.VList? && forall x :: x in v.vs ==> HasType(e, x)
  }

  // ---------------------------------------------------------------- numbers

  function Digit(d: nat): char
    requires d < 10
  {
    '0' + d as char
  }

  function Digits(n: nat): (s: string)
    ensures s != "" && AllDigits(s)
  {
    if n < 10 then [Digit(n)] else Digits(n / 10) + [Digit(n % 10)]
  }

  predicate AllDigits(s: string) { forall i :: 0 <= i < |s| ==> '0' <= s[i] <= '9' }

  function ValueOf(s: string): nat
    requires AllDigits(s)
  {
    if s == "" then 0 else 10 * ValueOf(s[..|s| - 1]) + (s[|s| - 1] - '0') as nat
  }

  lemma {:induction false} DigitsValue(n: nat)
    ensures ValueOf(Digits(n)) == n
  {
    if n < 10 {
      assert [Digit(n)][..0] == "";
    } else {
      DigitsValue(n / 10);
      var s := Digits(n);
      assert s[..|s| - 1] == Digits(n / 10);
    }
  }

  function IntText(i: int): string {
    if i < 0 then "-" + Digits(-i) else Digits(i)
  }

  function InRange(i: int, lo: int, hi: int): Option<int> { if lo <= i <= hi then Some(i) else None }

  function ParseDigits(s: string): Option<nat> {
    if s == "" || !AllDigits(s) then None else Some(ValueOf(s))
  }

  /** `FromStr` of an integer type: an optional sign, minus only if the type has negative values, then
      digits, and the value in range. */
  function ParseInt(s: string, lo: int, hi: int): Option<int> {
    if lo < 0 && s != "" && s[0] == '-' then
      (match ParseDigits(s[1..]) case Some(n) => InRange(-(n as int), lo, hi) case None => None)
    else
      var digits := if s != "" && s[0] == '+' then s[1..] else s;
      match ParseDigits(digits) case Some(n) => InRange(n, lo, hi) case None => None
  }

  lemma IntRoundTrip(i: int, lo: int, hi: int)
    requires lo <= i <= hi
    ensures ParseInt(IntText(i), lo, hi) == Some(i)
  {
    var n: nat := if i < 0 then -i else i;
    var d := Digits(n);
    DigitsValue(n);
    assert ParseDigits(d) == Some(n);
    if i < 0 {
      assert IntText(i)[1..] == d;
    } else {
      assert '0' <= d[0] <= '9';
    }
  }

  // ------------------------------------------------------------------ enums

  function LowerChar(c: char): char { if 'A' <= c <= 'Z' then c - 'A' + 'a' else c }

  function Lower(s: string): (r: string)
    ensures |r| == |s| && forall i :: 0 <= i < |s| ==> r[i] == LowerChar(s[i])
  {
    seq(|s|, i requires 0 <= i < |s| => LowerChar(s[i]))
  }

  /** The comparison of the decoder stops at the end of the shorter string. */
  predicate Comparable(a: string, b: string) {
    forall i :: 0 <= i < |a| && i < |b| ==> LowerChar(a[i]) == LowerChar(b[i])
  }

  /** Two letters are comparable if they are the same, or the same letter in two sizes. */
  lemma ComparableChars(a: string, b: string)
    ensures Comparable(a, b) <==>
            forall i :: 0 <= i < |a| && i < |b| ==>
              || a[i] == b[i]
              || (65 <= a[i] as int <= 90 && b[i] as int == a[i] as int + 32)
              || (65 <= b[i] as int <= 90 && a[i] as int == b[i] as int + 32)
  {
  }

  function FindVariant(s: string, variants: seq<string>): (r: Option<string>)
    ensures r.None? ==> forall i :: 0 <= i < |variants| ==> !Comparable(s, variants[i])
    ensures r.Some? ==> exists i :: 0 <= i < |variants| && FirstComparable(s, variants, i) && r.value == variants[i]
  {
    if variants == [] then None
    else if Comparable(s, variants[0]) then
      assert FirstComparable(s, variants, 0);
      Some(variants[0])
    else
      var r := FindVariant(s, variants[1..]);
      assert r.Some? ==>
          exists i :: 0 <= i < |variants| && FirstComparable(s, variants, i) && r.value == variants[i]
      by {
        if r.Some? {
          var i :| 0 <= i < |variants[1..]| && FirstComparable(s, variants[1..], i) && r.value == variants[1..][i];
          assert FirstComparable(s, variants, i + 1);
        }
      }
      r
  }

  predicate FirstComparable(s: string, variants: seq<string>, i: nat)
    requires i < |variants|
  {
    Comparable(s, variants[i]) && forall j :: 0 <= j < i ==> !Comparable(s, variants[j])
  }

  // ------------------------------------------------------- encode and decode

  function Encode(v: Value): string {
    match v
    case VBool(b) => if b then "true" else "false"
    case VInt(i) => IntText(i)
    case VStr(s) => s
    case VNone => "none"
    case VSome(x) => Encode(x)
    case VEnum(name) => Lower(name)
    case VList(vs) => JoinOrEmpty(EncodeAll(vs), ',')
  }

  function EncodeAll(vs: seq<Value>): (parts: seq<string>)
    ensures |parts| == |vs| && forall i :: 0 <= i < |vs| ==> parts[i] == Encode(vs[i])
  {
    if vs == [] then [] else [Encode(vs[0])] + EncodeAll(vs[1..])
  }

  datatype DecodeError = DecodeError

  type Decoded<T> = Result<T, DecodeError>

  function Decode(t: FieldType, data: Option<string>): Decoded<Value>
    decreases t, 0
  {
    if t.TOpt? then
      if data == Some("none") || data.None? then Success(VNone)
      else (match Decode(t.elem, data) case Success(v) => Success(VSome(v)) case Failure(e) => Failure(e))
    else match data
      case None => Failure(DecodeError)
      case Some(s) =>
        match t
        case TBool =>
          if s == "true" then Success(VBool(true))
          else if s == "false" then Success(VBool(false))
          else Failure(DecodeError)
        case TInt(lo, hi) =>
          (match ParseInt(s, lo, hi) case Some(i) => Success(VInt(i)) case None => Failure(DecodeError))
        case TStr => Success(VStr(s))
        case TEnum(variants) =>
          (match FindVariant(s, variants) case Some(n) => Success(VEnum(n)) case None => Failure(DecodeError))
        case TList(e) =>
          var parts := if s == "" then [] else Split(s, ',');
          (match DecodeAll(e, parts) case Success(vs) => Success(VList(vs)) case Failure(err) => Failure(err))
  }

  function DecodeAll(t: FieldType, parts: seq<string>): (r: Decoded<seq<Value>>)
    ensures r.Success? ==> |r.value| == |parts|
    ensures r.Success? <==> forall i :: 0 <= i < |parts| ==> Decode(t, Some(parts[i])).Success?
    ensures r.Success? ==> forall i :: 0 <= i < |parts| ==> Decode(t, Some(parts[i])) == Success(r.value[i])
    decreases t, 1, |parts|
  {
    if parts == [] then Success([])
    else match Decode(t, Some(parts[0]))
      case Failure(e) => Failure(e)
      case Success(v) =>
        match DecodeAll(t, parts[1..])
        case Failure(e) => Failure(e)
        case Success(vs) => Success([v] + vs)
  }

  // ------------------------------------------------- what is written and read

  /** The text of each kind of value. Numbers are decimal without leading zeros; letters of a variant are made small,
      which moves them by 32; list elements are joined by commas. */
  lemma EncodedText(v: Value)
    ensures v.VBool? ==> Encode(v) == if v.b then ['t', 'r', 'u', 'e'] else ['f', 'a', 'l', 's', 'e']
    ensures v == VNone ==> Encode(v) == ['n', 'o', 'n', 'e']
    ensures v.VStr? ==> Encode(v) == v.s
    ensures v.VSome? ==> Encode(v) == Encode(v.v)
    ensures v.VInt? && v.i >= 0 ==> Numeral(Encode(v), v.i)
    ensures v.VInt? && v.i < 0 ==> Encode(v) != "" && Encode(v)[0] == '-' && Numeral(Encode(v)[1..], -v.i)
    ensures v.VEnum? ==> |Encode(v)| == |v.name| && forall i :: 0 <= i < |v.name| ==>
              Encode(v)[i] as int == v.name[i] as int + if 65 <= v.name[i] as int <= 90 then 32 else 0
    ensures v.VList? && |v.vs| == 0 ==> Encode(v) == ""
    ensures v.VList? && |v.vs| == 1 ==> Encode(v) == Encode(v.vs[0])
    ensures v.VList? && |v.vs| > 1 ==> Encode(v) == Encode(v.vs[0]) + "," + Encode(VList(v.vs[1..]))
  {
    match v
    case VInt(i) => IntSpelt(i);
    case VEnum(name) => VariantText(name);
    case VList(vs) => ListText(vs);
    case _ =>
  }

  lemma IntSpelt(i: int)
    ensures i >= 0 ==> Numeral(IntText(i), i)
    ensures i < 0 ==> IntText(i) != "" && IntText(i)[0] == '-' && Numeral(IntText(i)[1..], -i)
  {
    var d := Digits(if i < 0 then -i else i);
    DigitsNumeral(if i < 0 then -i else i);
    assert i < 0 ==> IntText(i)[1..] == d;
  }

  lemma VariantText(name: string)
    ensures |Lower(name)| == |name| && forall i :: 0 <= i < |name| ==>
              Lower(name)[i] as int == name[i] as int + if 65 <= name[i] as int <= 90 then 32 else 0
  {
  }

  lemma ListText(vs: seq<Value>)
    ensures |vs| == 1 ==> Encode(VList(vs)) == Encode(vs[0])
    ensures |vs| > 1 ==> Encode(VList(vs)) == Encode(vs[0]) + "," + Encode(VList(vs[1..]))
  {
    if |vs| > 1 {
      var parts := EncodeAll(vs);
      assert parts[1..] == EncodeAll(vs[1..]);
      assert Join(parts, ',') == parts[0] + [','] + Join(parts[1..], ',');
    }
  }

  /** The decimal numeral of a number: its digits with their place values, the first not a zero unless it is all. */
  predicate Numeral(s: string, n: nat) {
    s != "" && AllDigits(s) && ValueOf(s) == n && (s[0] == '0' ==> n == 0 && |s| == 1)
  }

  lemma {:induction false} DigitsNumeral(n: nat)
    ensures Numeral(Digits(n), n)
  {
    DigitsValue(n);
    if n >= 10 {
      DigitsNumeral(n / 10);
      assert Digits(n)[0] == Digits(n / 10)[0];
    }
  }

  /** The texts read as an integer: digits, perhaps after a plus sign, or after a minus sign for a type with negative
      values. */
  predicate Denotes(s: string, i: int, signed: bool) {
    || (s != "" && AllDigits(s) && i == ValueOf(s))
    || (|s| > 1 && s[0] == '+' && AllDigits(s[1..]) && i == ValueOf(s[1..]))
    || (signed && |s| > 1 && s[0] == '-' && AllDigits(s[1..]) && -i == ValueOf(s[1..]))
  }

  /** A text is read as an integer exactly if it denotes it and the integer is in the range of the type. */
  lemma ParsedExactly(s: string, lo: int, hi: int, i: int)
    ensures ParseInt(s, lo, hi) == Some(i) <==> Denotes(s, i, lo < 0) && lo <= i <= hi
  {
    if s != "" && (s[0] == '+' || s[0] == '-') {
      assert !AllDigits(s);
    }
  }

  /** What each type reads, and from which texts. An absent field is read as an absent option and nothing else. */
  lemma DecodedExactly(t: FieldType, s: string, v: Value)
    ensures t == TBool ==> (Decode(t, Some(s)) == Success(v) <==>
                              (s == "true" && v == VBool(true)) || (s == "false" && v == VBool(false)))
    ensures t.TInt? ==> (Decode(t, Some(s)) == Success(v) <==>
                           v.VInt? && Denotes(s, v.i, t.lo < 0) && t.lo <= v.i <= t.hi)
    ensures t == TStr ==> (Decode(t, Some(s)) == Success(v) <==> v == VStr(s))
    ensures t.TOpt? ==> (Decode(t, Some(s)) == Success(v) <==>
                           if s == "none" then v == VNone else v.VSome? && Decode(t.elem, Some(s)) == Success(v.v))
    ensures t.TEnum? ==> (Decode(t, Some(s)).Success? <==>
                            exists i :: 0 <= i < |t.variants| && Comparable(s, t.variants[i]))
    ensures t.TEnum? && Decode(t, Some(s)) == Success(v) ==>
              exists i :: 0 <= i < |t.variants| && FirstComparable(s, t.variants, i) && v == VEnum(t.variants[i])
    ensures t.TList? && s == "" ==> Decode(t, Some(s)) == Success(VList([]))
    ensures t.TList? && s != "" ==> (Decode(t, Some(s)) == Success(v) <==>
                                       v.VList? && ReadParts(t.elem, Split(s, ','), v.vs))
    ensures Decode(t, None) == if t.TOpt? then Success(VNone) else Failure(DecodeError)
  {
    match t
    case TInt(lo, hi) =>
      if v.VInt? {
        ParsedExactly(s, lo, hi, v.i);
      }
    case TList(e) =>
      if s != "" && v.VList? {
        PartsRead(e, Split(s, ','), v.vs);
      }
    case _ =>
  }

  /** Each part is read as the element of its place. */
  predicate ReadParts(t: FieldType, parts: seq<string>, vs: seq<Value>) {
    |vs| == |parts| && forall i :: 0 <= i < |parts| ==> Decode(t, Some(parts[i])) == Success(vs[i])
  }

  lemma PartsRead(t: FieldType, parts: seq<string>, vs: seq<Value>)
    ensures DecodeAll(t, parts) == Success(vs) <==> ReadParts(t, parts, vs)
  {
    var r := DecodeAll(t, parts);
    if ReadParts(t, parts, vs) {
      assert forall i :: 0 <= i < |vs| ==> Decode(t, Some(parts[i])) == Success(r.value[i]);
      assert r.value == vs;
    }
  }

  // -------------------------------------------------------------- round trip

  /** The values the codec gives back unchanged. */
  predicate Faithful(t: FieldType, v: Value)
    requires HasType(t, v)
    decreases v
  {
    match t
    case TOpt(e) => v.VSome? ==> Encode(v.v) != "none" && Faithful(e, v.v)
    case TEnum(variants) =>
      forall i, j :: 0 <= i < j < |variants| && variants[j] == v.name ==> !Comparable(variants[j], variants[i])
    case TList(e) =>
      && (forall x :: x in v.vs ==> ',' !in Encode(x) && Faithful(e, x))
      && !(|v.vs| == 1 && Encode(v.vs[0]) == "")
    case _ => true
  }

  lemma EnumRoundTrip(variants: seq<string>, name: string)
    requires HasType(TEnum(variants), VEnum(name))
    ensures Decode(TEnum(variants), Some(Encode(VEnum(name)))) == Success(VEnum(name))
       <==> Faithful(TEnum(variants), VEnum(name))
  {
    var s := Lower(name);
    forall w ensures Comparable(s, w) <==> Comparable(name, w) {
    }
    var k :| 0 <= k < |variants| && variants[k] == name;
    assert Comparable(s, name);
    var r := FindVariant(s, variants);
    var i :| 0 <= i < |variants| && FirstComparable(s, variants, i) && r.value == variants[i];
    if r == Some(name) {
      assert i == k;
      forall a, b | 0 <= a < b < |variants| && variants[b] == name ensures !Comparable(variants[b], variants[a]) {
        assert b == k;
        assert !Comparable(s, variants[a]);
      }
    } else if i < k {
      assert Comparable(variants[k], variants[i]);
    }
  }

  /** So a variant that continues an earlier one is always read as the earlier one. */
  lemma ContinuedVariant(a: string, b: string)
    ensures Decode(TEnum([a, a + b]), Some(Encode(VEnum(a + b)))) == Success(VEnum(a))
  {
    var s, variants := Lower(a + b), [a, a + b];
    assert Comparable(s, a);
    var i :| 0 <= i < |variants| && FirstComparable(s, variants, i) && FindVariant(s, variants).value == variants[i];
    assert !(i == 1 && !Comparable(s, variants[0]));
  }

  lemma {:induction false} SplitLength(parts: seq<string>)
    requires parts != []
    ensures |Split(Join(parts, ','), ',')| >= |parts|
    ensures (exists p :: p in parts && ',' in p) ==> |Split(Join(parts, ','), ',')| > |parts|
  {
    if |parts| == 1 {
      if ',' in parts[0] {
        assert |Split(parts[0], ',')| >= 2;
      }
    } else {
      SplitLength(parts[1..]);
      SplitAppend(parts[0], ',', Join(parts[1..], ','));
      if ',' in parts[0] {
        assert |Split(parts[0], ',')| >= 2;
      }
      assert parts == [parts[0]] + parts[1..];
    }
  }

  lemma {:induction false} JoinEmpty(parts: seq<string>)
    requires parts != []
    ensures Join(parts, ',') == "" <==> parts == [""]
  {
  }

  lemma {:induction false} CommaInJoin(parts: seq<string>, p: string)
    requires p in parts && ',' in p
    ensures Join(parts, ',') != "" && |Split(Join(parts, ','), ',')| > |parts|
  {
    SplitLength(parts);
    JoinEmpty(parts);
  }

  lemma {:induction false} WrongCount(e: FieldType, s: string, vs: seq<Value>)
    requires s != "" && |Split(s, ',')| != |vs|
    ensures Decode(TList(e), Some(s)) != Success(VList(vs))
  {
  }

  /** A comma inside an element gives more parts than elements. */
  lemma {:induction false} CommaBreaksList(e: FieldType, vs: seq<Value>, x: Value)
    requires x in vs && ',' in Encode(x)
    ensures Decode(TList(e), Some(JoinOrEmpty(EncodeAll(vs), ','))) != Success(VList(vs))
  {
    EncodedAmong(vs, x);
    BrokenParts(e, EncodeAll(vs), Encode(x), vs);
  }

  lemma {:induction false} EncodedAmong(vs: seq<Value>, x: Value)
    requires x in vs
    ensures Encode(x) in EncodeAll(vs)
  {
    var i :| 0 <= i < |vs| && vs[i] == x;
    assert EncodeAll(vs)[i] == Encode(x);
  }

  lemma {:induction false} BrokenParts(e: FieldType, parts: seq<string>, p: string, vs: seq<Value>)
    requires p in parts && ',' in p && |parts| == |vs|
    ensures Decode(TList(e), Some(JoinOrEmpty(parts, ','))) != Success(VList(vs))
  {
    CommaInJoin(parts, p);
    WrongCount(e, Join(parts, ','), vs);
  }

  lemma {:induction false} ListFromParts(e: FieldType, s: string, vs: seq<Value>)
    requires s != "" && Split(s, ',') == EncodeAll(vs)
    ensures Decode(TList(e), Some(s)) == Success(VList(vs)) <==> DecodeAll(e, EncodeAll(vs)) == Success(vs)
  {
  }

  lemma {:induction false} CommaFreeParts(vs: seq<Value>)
    requires forall x :: x in vs ==> ',' !in Encode(x)
    ensures forall p :: p in EncodeAll(vs) ==> ',' !in p
  {
    var parts := EncodeAll(vs);
    forall p | p in parts ensures ',' !in p {
      var i :| 0 <= i < |parts| && parts[i] == p;
      assert vs[i] in vs;
    }
  }

  lemma {:induction false} GoodParts(e: FieldType, parts: seq<string>, vs: seq<Value>)
    requires parts != [] && parts != [""] && parts == EncodeAll(vs) && forall p :: p in parts ==> ',' !in p
    ensures Decode(TList(e), Some(JoinOrEmpty(parts, ','))) == Success(VList(vs)) <==>
            DecodeAll(e, parts) == Success(vs)
  {
    JoinEmpty(parts);
    SplitJoin(parts, ',');
    ListFromParts(e, Join(parts, ','), vs);
  }

  lemma {:induction false} CommaFreeList(e: FieldType, vs: seq<Value>)
    requires vs != [] && (forall x :: x in vs ==> ',' !in Encode(x)) && !(|vs| == 1 && Encode(vs[0]) == "")
    ensures Decode(TList(e), Some(JoinOrEmpty(EncodeAll(vs), ','))) == Success(VList(vs))
       <==> forall x :: x in vs ==> Decode(e, Some(Encode(x))) == Success(x)
  {
    CommaFreeParts(vs);
    ListElements(e, vs);
    GoodParts(e, EncodeAll(vs), vs);
  }

  lemma {:induction false} ListRoundTrip(e: FieldType, vs: seq<Value>)
    requires HasType(TList(e), VList(vs))
    requires forall x :: x in vs ==> (Decode(e, Some(Encode(x))) == Success(x) <==> Faithful(e, x))
    ensures Decode(TList(e), Some(Encode(VList(vs)))) == Success(VList(vs)) <==> Faithful(TList(e), VList(vs))
  {
    if x :| x in vs && ',' in Encode(x) {
      CommaBreaksList(e, vs, x);
    } else if vs != [] && !(|vs| == 1 && Encode(vs[0]) == "") {
      CommaFreeList(e, vs);
    } else if |vs| == 1 {
      assert EncodeAll(vs) == [""];
    }
  }

  lemma {:induction false} ListElements(e: FieldType, vs: seq<Value>)
    ensures DecodeAll(e, EncodeAll(vs)) == Success(vs) <==>
            forall x :: x in vs ==> Decode(e, Some(Encode(x))) == Success(x)
  {
    var r := DecodeAll(e, EncodeAll(vs));
    if forall x :: x in vs ==> Decode(e, Some(Encode(x))) == Success(x) {
      assert forall i :: 0 <= i < |vs| ==> vs[i] in vs;
      assert r.Success? && |r.value| == |vs|;
      assert forall i :: 0 <= i < |vs| ==> Success(r.value[i]) == Decode(e, Some(EncodeAll(vs)[i])) == Success(vs[i]);
      assert r.value == vs;
    }
  }

  /** A typed value survives encoding and decoding if and only if it is faithful. */
  lemma {:induction false} FieldRoundTrip(t: FieldType, v: Value)
    requires HasType(t, v)
    ensures Decode(t, Some(Encode(v))) == Success(v) <==> Faithful(t, v)
    decreases v
  {
    match t
    case TInt(lo, hi) => IntRoundTrip(v.i, lo, hi);
    case TOpt(e) =>
      if v.VSome? {
        FieldRoundTrip(e, v.v);
      }
    case TEnum(variants) => EnumRoundTrip(variants, v.name);
    case TList(e) =>
      forall x | x in v.vs ensures Decode(e, Some(Encode(x))) == Success(x) <==> Faithful(e, x) {
        FieldRoundTrip(e, x);
      }
      ListRoundTrip(e, v.vs);
    case _ =>
  }

  /** Integers of the full range of their type survive everywhere: alone, in options and in lists. */
  lemma IntsAlwaysFaithful(i: int, lo: int, hi: int, more: seq<Value>)
    requires lo <= i <= hi && HasType(TList(TInt(lo, hi)), VList(more))
    ensures Faithful(TInt(lo, hi), VInt(i)) && Faithful(TOpt(TInt(lo, hi)), VSome(VInt(i)))
    ensures Faithful(TList(TInt(lo, hi)), VList(more))
  {
    IntTextPlain(i);
    forall x | x in more ensures ',' !in Encode(x) && Encode(x) != "" {
      IntTextPlain(x.i);
    }
  }

  lemma IntTextPlain(i: int)
    ensures ',' !in IntText(i) && IntText(i) != "" && IntText(i) != "none"
  {
    var d := Digits(if i < 0 then -i else i);
    assert forall k :: 0 <= k < |d| ==> '0' <= d[k] <= '9';
    assert "none"[0] == 'n';
  }

  // ------------------------------------------------------ what decoding yields

  /** No variant is comparable to another, so none is taken for another. */
  predicate Unambiguous(variants: seq<string>) {
    forall i, j :: 0 <= i < j < |variants| ==> !Comparable(variants[j], variants[i]) && variants[i] != variants[j]
  }

  lemma ScalarDecoded(t: FieldType, s: string, v: Value)
    requires t.TBool? || t.TInt? || t.TStr? || (t.TEnum? && Unambiguous(t.variants))
    requires Decode(t, Some(s)) == Success(v)
    ensures HasType(t, v) && Faithful(t, v)
  {
  }

  lemma {:induction false} TextsDecoded(parts: seq<string>, vs: seq<Value>)
    requires DecodeAll(TStr, parts) == Success(vs)
    ensures EncodeAll(vs) == parts && HasType(TList(TStr), VList(vs)) && forall x :: x in vs ==> Faithful(TStr, x)
  {
    assert forall i :: 0 <= i < |parts| ==> Decode(TStr, Some(parts[i])) == Success(VStr(parts[i]));
    assert EncodeAll(vs) == parts;
  }

  lemma {:induction false} ListFaithful(vs: seq<Value>, parts: seq<string>)
    requires EncodeAll(vs) == parts && HasType(TList(TStr), VList(vs)) && forall x :: x in vs ==> Faithful(TStr, x)
    requires (forall p :: p in parts ==> ',' !in p) && parts != [""]
    ensures Faithful(TList(TStr), VList(vs))
  {
    forall x | x in vs ensures ',' !in Encode(x) {
      EncodedAmong(vs, x);
    }
    if |vs| == 1 {
      assert parts == [Encode(vs[0])];
    }
  }

  /** A decoded list is one the codec gives back, and is encoded as it was. */
  lemma {:induction false} ListDecoded(s: string, v: Value)
    requires Decode(TList(TStr), Some(s)) == Success(v)
    ensures HasType(TList(TStr), v) && Faithful(TList(TStr), v) && Encode(v) == s
  {
    var parts := if s == "" then [] else Split(s, ',');
    TextsDecoded(parts, v.vs);
    if s != "" {
      JoinSplit(s, ',');
      assert parts != [""];
    }
    ListFaithful(v.vs, parts);
  }

  lemma {:induction false} OptionDecoded(e: FieldType, s: string, v: Value)
    requires e.TInt? || e.TStr? || e == TList(TStr)
    requires Decode(TOpt(e), Some(s)) == Success(v)
    ensures HasType(TOpt(e), v) && Faithful(TOpt(e), v)
  {
    if v.VSome? {
      if e == TList(TStr) {
        ListDecoded(s, v.v);
      } else {
        ScalarDecoded(e, s, v.v);
        if e.TInt? {
          IntTextPlain(v.v.i);
        }
      }
    }
  }

  // ----------------------------------------------------- the list serializer

  /** `SerializeSeq::end`: elements are pushed on a byte buffer, each with a comma, and the last comma is popped. */
  method EndSequence(elements: seq<string>) returns (buf: string)
    ensures buf == JoinOrEmpty(elements, ',')
  {
    buf := "";
    for i := 0 to |elements|
      invariant i == 0 ==> buf == ""
      invariant i > 0 ==> buf == Join(elements[..i], ',') + ","
    {
      if i > 0 {
        JoinSnoc(elements[..i], elements[i]);
      }
      assert elements[..i + 1] == elements[..i] + [elements[i]];
      buf := buf + elements[i];
      buf := buf + ",";
    }
    assert elements[..|elements|] == elements;
    if buf != "" {
      buf := buf[..|buf| - 1];
    }
  }

  lemma {:induction false} JoinSnoc(parts: seq<string>, p: string)
    requires parts != []
    ensures Join(parts + [p], ',') == Join(parts, ',') + "," + p
  {
    if |parts| > 1 {
      JoinSnoc(parts[1..], p);
      assert (parts + [p])[1..] == parts[1..] + [p];
    }
  }
}
