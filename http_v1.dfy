/** The shared deserialiser of the version-1 REST resources (`src/http/v1/mod.rs`). */
module HttpV1 {

  import opened Wrappers
  import opened Json

  /** `bool_from_int`: the value is first read as a `u8`, then 0 is false, 1 is true and
      any other byte is an invalid value reported with the byte itself. */
  function BoolFromInt(j: Json): (r: Decoded<bool>)
    ensures r.Ok? <==> j == JNum(Int(0)) || j == JNum(Int(1))
    ensures r == Ok(true) <==> j == JNum(Int(1))
    ensures j.JNum? && j.n.Int? && 2 <= j.n.i < 256 ==> r == Err(InvalidValue(j.n.i, "zero or one"))
    ensures !(j.JNum? && j.n.Int? && 0 <= j.n.i < 256) ==> r.Err? && (r.error.InvalidType? || r.error.InvalidValue?) && r.error.expected == "u8"
  {
    var n :- DecodeU8(j);
    if n == 0 then Ok(false)
    else if n == 1 then Ok(true)
    else Err(InvalidValue(n, "zero or one"))
  }

  /** The encoding the deserialiser expects reads back as the flag. */
  lemma BoolFromIntRoundTrip(b: bool)
    ensures BoolFromInt(JNum(Int(if b then 1 else 0))) == Ok(b)
  {
  }

  /** The module's test: 0 is false, 1 is true, 2 is an error. */
  lemma BoolFromIntTest()
    ensures BoolFromInt(JNum(Int(0))) == Ok(false)
    ensures BoolFromInt(JNum(Int(1))) == Ok(true)
    ensures BoolFromInt(JNum(Int(2))) == Err(InvalidValue(2, "zero or one"))
  {
  }
}
