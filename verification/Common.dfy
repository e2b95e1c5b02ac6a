/** Small helpers shared by the models of the control planes. */
module Common {
  datatype Option<+T> = None | Some(value: T)

  datatype Result<+T, +E> = Ok(value: T) | Err(error: E)

  /** A sha256 fingerprint of a canonical value. A constructor is injective, which is
      exactly the collision-freedom the control planes rely on. */
  datatype Fingerprint<B> = Fingerprint(content: B)

  /** Appends `x` unless it is already there. */
  function AddOnce<T(==)>(xs: seq<T>, x: T): seq<T> {
    if x in xs then xs else xs + [x]
  }

  ghost predicate NoDuplicates<T>(xs: seq<T>) {
    forall i, j :: 0 <= i < j < |xs| ==> xs[i] != xs[j]
  }

  function Clamp(value: int, low: int, high: int): int
    requires low <= high
  {
    if value < low then low else if value > high then high else value
  }

  /** The last `n` elements, as a Python slice `xs[-n:]` with positive `n`. */
  function LastN<T>(xs: seq<T>, n: nat): (r: seq<T>)
    ensures |xs| <= n ==> r == xs
  {
    if |xs| <= n then xs else xs[|xs| - n..]
  }
}
