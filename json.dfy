/** An abstract JSON value tree (RFC 8259) and the serde rules the client's
    derived decoders follow: scalar fields, sequences, optional fields, and
    structs read either from an object (by key) or from an array (by position). */
module Json {

  import opened Wrappers

  /** Rust's `usize` on a 64-bit target. */
  const USIZE_LIMIT: int := 0x1_0000_0000_0000_0000
  type Usize = x: nat | x < USIZE_LIMIT

  /** serde_json keeps integers (written without fraction or exponent) apart from floats. */
  datatype Number = Int(i: int) | Float(x: real)

  datatype Json =
    | JNull
    | JBool(b: bool)
    | JNum(n: Number)
    | JStr(s: string)
    | JArr(items: seq<Json>)
    | JObj(fields: map<string, Json>)

  /** The categories of serde's `de::Error`. */
  datatype DecodeError =
    | InvalidType(expected: string)
    | InvalidValue(found: int, expected: string)
    | InvalidLength(len: nat)
    | MissingField(field: string)
    | UnknownVariant(variant: string)
    | Custom(msg: string)

  type Decoded<T> = Result<T, DecodeError>

  function DecodeString(j: Json): Decoded<string> {
    if j.JStr? then Ok(j.s) else Err(InvalidType("a string"))
  }

  function DecodeBool(j: Json): Decoded<bool> {
    if j.JBool? then Ok(j.b) else Err(InvalidType("a boolean"))
  }

  /** Any JSON number converts to `f64` (rounding is not modelled); nothing else does. */
  function DecodeF64(j: Json): Decoded<real> {
    match j
    case JNum(Int(i)) => Ok(i as real)
    case JNum(Float(x)) => Ok(x)
    case _ => Err(InvalidType("f64"))
  }

  /** An unsigned integer below `limit`: a float is the wrong type, an integer out of range a wrong value. */
  function DecodeUnsigned(j: Json, limit: nat, name: string): Decoded<nat> {
    match j
    case JNum(Int(i)) => if 0 <= i < limit then Ok(i as nat) else Err(InvalidValue(i, name))
    case _ => Err(InvalidType(name))
  }

  function DecodeUsize(j: Json): (r: Decoded<Usize>) {
    match DecodeUnsigned(j, USIZE_LIMIT, "usize")
    case Ok(n) => Ok(n as Usize)
    case Err(e) => Err(e)
  }

  function DecodeU8(j: Json): (r: Decoded<nat>)
    ensures r.Ok? ==> r.value < 256
  {
    DecodeUnsigned(j, 256, "u8")
  }

  /** Decoding every element of a sequence, failing on the first element that fails. */
  function DecodeItems<T>(items: seq<Json>, elem: Json -> Decoded<T>): (r: Decoded<seq<T>>)
    ensures r.Ok? <==> forall i :: 0 <= i < |items| ==> elem(items[i]).Ok?
    ensures r.Ok? ==> |r.value| == |items|
    ensures r.Ok? ==> forall i :: 0 <= i < |items| ==> elem(items[i]) == Ok(r.value[i])
    decreases |items|
  {
    if |items| == 0 then Ok([])
    else
      match elem(items[0])
      case Err(e) => Err(e)
      case Ok(x) =>
        match DecodeItems(items[1..], elem)
        case Err(e) => Err(e)
        case Ok(xs) =>
          assert forall i :: 1 <= i < |items| ==> items[1..][i - 1] == items[i];
          Ok([x] + xs)
  }

  /** `Vec<T>`: a JSON array whose elements all decode, in order. */
  function DecodeVec<T>(j: Json, elem: Json -> Decoded<T>): Decoded<seq<T>> {
    if j.JArr? then DecodeItems(j.items, elem) else Err(InvalidType("a sequence"))
  }

  /** `Option<T>` struct field: a missing key or `null` is `None`. */
  function DecodeOptional<T>(m: map<string, Json>, key: string, dec: Json -> Decoded<T>): Decoded<Option<T>> {
    if key !in m || m[key] == JNull then Ok(None)
    else
      match dec(m[key])
      case Ok(x) => Ok(Some(x))
      case Err(e) => Err(e)
  }

  /** The values of `names` in `m`, in order, each of which must be a string. */
  function StringsAt(m: map<string, Json>, names: seq<string>): (r: Decoded<seq<string>>)
    requires forall n :: n in names ==> n in m
    ensures r.Ok? <==> forall i :: 0 <= i < |names| ==> m[names[i]].JStr?
    ensures r.Ok? <==> forall n :: n in names ==> m[n].JStr?
    ensures r.Ok? ==> |r.value| == |names| && forall i :: 0 <= i < |names| ==> m[names[i]] == JStr(r.value[i])
  {
    var vals := seq(|names|, i requires 0 <= i < |names| => m[names[i]]);
    assert forall i :: 0 <= i < |names| ==> vals[i] == m[names[i]];
    assert forall i :: 0 <= i < |names| ==> (DecodeString(vals[i]).Ok? <==> m[names[i]].JStr?);
    DecodeItems(vals, DecodeString)
  }

  /** The first of `names` that is not a key of `m`. */
  function FirstMissing(names: seq<string>, m: map<string, Json>): (r: Option<string>)
    ensures r.None? <==> forall n :: n in names ==> n in m
    ensures r.Some? ==> r.value in names && r.value !in m
    decreases |names|
  {
    if |names| == 0 then None
    else if names[0] !in m then Some(names[0])
    else
      var r := FirstMissing(names[1..], m);
      assert forall n :: n in names ==> n == names[0] || n in names[1..];
      r
  }

  /** The fields of a positional struct, keyed by name (the first occurrence of a name wins). */
  function Positional(names: seq<string>, items: seq<Json>): (m: map<string, Json>)
    requires |names| == |items|
    ensures forall n :: n in names ==> n in m
    decreases |names|
  {
    if |names| == 0 then map[]
    else
      assert forall n :: n in names ==> n == names[0] || n in names[1..];
      Positional(names[1..], items[1..])[names[0] := items[0]]
  }

  predicate Distinct(names: seq<string>) {
    forall i, j :: 0 <= i < j < |names| ==> names[i] != names[j]
  }

  lemma {:induction false} PositionalAt(names: seq<string>, items: seq<Json>, k: nat)
    requires |names| == |items| && Distinct(names) && k < |names|
    ensures Positional(names, items)[names[k]] == items[k]
    decreases |names|
  {
    if k > 0 {
      assert names[1..][k - 1] == names[k];
      PositionalAt(names[1..], items[1..], k - 1);
    }
  }

  /** A derived struct decoder's view of its input: the named fields of an object (all
      `names` present, other keys ignored), or the elements of an array of exactly
      `|names|` elements taken in declaration order. */
  function StructView(j: Json, names: seq<string>): (r: Decoded<map<string, Json>>)
    ensures r.Ok? ==> forall n :: n in names ==> n in r.value
    ensures j.JObj? ==> (r.Ok? <==> forall n :: n in names ==> n in j.fields)
    ensures j.JObj? && r.Ok? ==> r.value == j.fields
    ensures j.JArr? ==> (r.Ok? <==> |j.items| == |names|)
    ensures !j.JObj? && !j.JArr? ==> r.Err?
  {
    match j
    case JObj(m) =>
      (match FirstMissing(names, m)
       case Some(n) => Err(MissingField(n))
       case None => Ok(m))
    case JArr(items) =>
      if |items| == |names| then Ok(Positional(names, items)) else Err(InvalidLength(|items|))
    case _ => Err(InvalidType("a struct"))
  }

  /** A key outside `names` does not change which of them is missing. */
  lemma {:induction false} FirstMissingIgnoresKey(names: seq<string>, m: map<string, Json>, k: string, v: Json)
    requires k !in names
    ensures FirstMissing(names, m[k := v]) == FirstMissing(names, m)
    decreases |names|
  {
    if |names| > 0 {
      assert k != names[0] && k !in names[1..];
      FirstMissingIgnoresKey(names[1..], m, k, v);
    }
  }

  /** An object's struct view ignores a key the struct does not declare: the same error,
      or the fields including that key. */
  lemma StructViewIgnoresKey(m: map<string, Json>, names: seq<string>, k: string, v: Json)
    requires k !in names
    ensures StructView(JObj(m), names).Err? ==> StructView(JObj(m[k := v]), names) == StructView(JObj(m), names)
    ensures StructView(JObj(m), names).Ok? ==> StructView(JObj(m[k := v]), names) == Ok(m[k := v])
  {
    FirstMissingIgnoresKey(names, m, k, v);
  }

  /** A unit enum variant written as its wire name. */
  function VariantName(j: Json): Decoded<string> {
    if j.JStr? then Ok(j.s) else Err(InvalidType("an enum variant"))
  }

  // Encoders used to state the round trips of the derived decoders.

  function F64(x: real): Json { JNum(Float(x)) }

  function UsizeJson(n: Usize): Json { JNum(Int(n)) }

  function StrArray(xs: seq<string>): (j: Json)
    ensures j.JArr? && |j.items| == |xs| && forall i :: 0 <= i < |xs| ==> j.items[i] == JStr(xs[i])
  {
    JArr(seq(|xs|, i requires 0 <= i < |xs| => JStr(xs[i])))
  }

  /** The array of the encodings of `xs`, in order. */
  function ListJson<T>(xs: seq<T>, enc: T -> Json): (j: Json)
    ensures j.JArr? && |j.items| == |xs| && forall i :: 0 <= i < |xs| ==> j.items[i] == enc(xs[i])
  {
    JArr(seq(|xs|, i requires 0 <= i < |xs| => enc(xs[i])))
  }

  /** A list decodes back, element by element and in order, when each element does. */
  lemma ListJsonDecodes<T>(xs: seq<T>, enc: T -> Json, dec: Json -> Decoded<T>)
    requires forall i :: 0 <= i < |xs| ==> dec(enc(xs[i])) == Ok(xs[i])
    ensures DecodeVec(ListJson(xs, enc), dec) == Ok(xs)
  {
    var r := DecodeVec(ListJson(xs, enc), dec);
    assert r.Ok?;
    assert r.value == xs;
  }

  lemma UsizeJsonDecodes(n: Usize)
    ensures DecodeUsize(UsizeJson(n)) == Ok(n)
  {
  }

  lemma StrArrayDecodes(xs: seq<string>)
    ensures DecodeVec(StrArray(xs), DecodeString) == Ok(xs)
  {
    var r := DecodeVec(StrArray(xs), DecodeString);
    assert r.Ok?;
    assert r.value == xs;
  }
}
