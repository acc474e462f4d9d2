/** Reading a number field the way both quantity inputs do. */
module Inputs {
  import opened Remote

  /** `parseInt(text) || 1`, given `parseInt`'s result (`None` for NaN):
      NaN and 0 are both falsy and become 1; any other number passes. */
  function TypedValue(parsed: Option<int>): (q: int)
    ensures q != 0
    ensures parsed.Some? && parsed.value != 0 ==> q == parsed.value
    ensures parsed.None? || parsed == Some(0) ==> q == 1
  {
    match parsed
    case Some(n) => if n != 0 then n else 1
    case None => 1
  }
}
