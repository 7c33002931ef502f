/** How a step of the program can go wrong.

  A durable write is one atomic rename, so a step either acts or does not; it may then
  return, throw, or never come back because the process died.
*/
module Faults {
  datatype Option<T> = None | Some(value: T)

  datatype Fate = Calm | ThrowBefore | ThrowAfter | CrashBefore | CrashAfter {
    predicate Acts() { Calm? || ThrowAfter? || CrashAfter? }
  }

  datatype Outcome<T> = Ok(value: T) | Thrown | Crashed

  function Ends<T>(fate: Fate, value: T): Outcome<T> {
    match fate
    case Calm => Ok(value)
    case ThrowBefore => Thrown
    case ThrowAfter => Thrown
    case CrashBefore => Crashed
    case CrashAfter => Crashed
  }

  /** A step that throws, and one that loses the process, may have acted or not. */
  lemma EitherWay()
    ensures Calm.Acts() && ThrowAfter.Acts() && CrashAfter.Acts() && !ThrowBefore.Acts() && !CrashBefore.Acts()
    ensures forall v: int :: Ends(Calm, v) == Ok(v) && Ends(ThrowBefore, v) == Ends(ThrowAfter, v) == Thrown
    ensures forall v: int :: Ends(CrashBefore, v) == Ends(CrashAfter, v) == Crashed
  {
  }

  /** Any fate at all, unless the weather is calm. */
  method Next(calm: bool) returns (fate: Fate)
    ensures calm ==> fate == Calm
  {
    if calm { fate := Calm; } else { fate := *; }
  }
}
