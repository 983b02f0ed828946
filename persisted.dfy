/**
 * Browser storage as the stores see it. `localStorage.getItem(key)` followed by
 * `JSON.parse` either finds nothing (the key is missing or holds the empty
 * string, both falsy), fails (a `SyntaxError`, or a value of the wrong shape
 * that makes the following `.map` throw), or yields the stored value.
 */
module Persisted {

  datatype Slot<T> = Absent | Malformed | Present(value: T)

  /**
   * A `Date` as `JSON.stringify` writes it: its ISO-8601 text. The text is
   * represented by the instant it names, so `new Date(text)` reads back the
   * same instant.
   */
  datatype IsoText = IsoText(ms: int)

  function ToIso(ms: int): (t: IsoText)
    ensures FromIso(t) == ms
  {
    IsoText(ms)
  }

  function FromIso(t: IsoText): int {
    t.ms
  }

  /** `xs.map(f)`: every element converted in its place. */
  function MapAll<A, B>(xs: seq<A>, f: A -> B): (ys: seq<B>)
    ensures |ys| == |xs|
    ensures forall i :: 0 <= i < |xs| ==> ys[i] == f(xs[i])
  {
    if xs == [] then [] else [f(xs[0])] + MapAll(xs[1..], f)
  }

  /** Writing a list out and reading it back gives it again when reading undoes writing. */
  lemma MapAllRoundTrip<A, B>(xs: seq<A>, write: A -> B, read: B -> A)
    requires forall x :: read(write(x)) == x
    ensures MapAll(MapAll(xs, write), read) == xs
  {
  }
}
