/** The shared deserialiser of the older REST resources (`src/http/resources/mod.rs`). */
module HttpResources {

  import opened Wrappers
  import opened Json
  import HttpV1

  /** `bool_from_int`, duplicated from the version-1 module. */
  function BoolFromInt(j: Json): (r: Decoded<bool>)
    ensures r.Ok? <==> j == JNum(Int(0)) || j == JNum(Int(1))
    ensures r == Ok(true) <==> j == JNum(Int(1))
    ensures j.JNum? && j.n.Int? && 2 <= j.n.i < 256 ==> r == Err(InvalidValue(j.n.i, "zero or one"))
    ensures !(j.JNum? && j.n.Int? && 0 <= j.n.i < 256) ==> r.Err? && (r.error.InvalidType? || r.error.InvalidValue?) && r.error.expected == "u8"
  {
    match DecodeU8(j)
    case Err(e) => Err(e)
    case Ok(0) => Ok(false)
    case Ok(1) => Ok(true)
    case Ok(other) => Err(InvalidValue(other, "zero or one"))
  }

  /** The duplicate gives the same result, value or error, on every input. */
  lemma SameAsV1(j: Json)
    ensures BoolFromInt(j) == HttpV1.BoolFromInt(j)
  {
  }
}
