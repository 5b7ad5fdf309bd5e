/** What the kernel answers: a tape, `true` meaning that the call raises; behind its end every call succeeds. */
module Answers {
  /** How many of the answers to come are failures. */
  function Failing(tape: seq<bool>): nat
  {
    if tape == [] then 0 else (if tape[0] then 1 else 0) + Failing(tape[1..])
  }

  function Rest(tape: seq<bool>): seq<bool>
  {
    if tape == [] then [] else tape[1..]
  }

  predicate Fails(tape: seq<bool>)
  {
    tape != [] && tape[0]
  }
}
