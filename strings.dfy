/** Small facts about strings shared by the overlay and the keyboard models. */
module Strings {

  /** The pieces of `parts` written one after the other. */
  function Concat(parts: seq<string>): string
  {
    if parts == [] then [] else parts[0] + Concat(parts[1..])
  }
}
