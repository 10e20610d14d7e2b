/** Small helpers shared by the server and client models. */
module Common {

  /** JavaScript's `null`-or-value, as used for `videoUrl: string | null`. */
  datatype Option<+T> = None | Some(value: T)

  /** `Math.abs` on seconds. */
  function Abs(x: real): (r: real)
    ensures r >= 0.0
    ensures r == x || r == -x
  {
    if x < 0.0 then -x else x
  }

  /** JavaScript truthiness of a `string | null`: neither `null` nor the empty string. */
  predicate TruthyUrl(url: Option<string>)
  {
    url.Some? && url.value != ""
  }
}
