/** Value types shared by the pricing modules (the repository's `@/types`). */
module Types {

  datatype Option<+T> = None | Some(value: T) {
    function GetOr(default: T): T
    {
      match this
      case Some(v) => v
      case None => default
    }
  }

  /**
   * One cell of a plan-comparison row: `true` (included), `false`
   * (excluded), a display string (a usage amount) or `null` (unknown).
   */
  datatype Cell = Flag(b: bool) | Text(s: string) | Empty

  /**
   * The fields of a `PlansRow` object: `feature` (the row's label) plus one
   * field per plan key.
   */
  type Fields = map<string, Cell>

  /** `xs.map(f)`, built front to back. */
  function Map<A, B>(xs: seq<A>, f: A -> B): seq<B>
  {
    if xs == [] then [] else Map(xs[..|xs| - 1], f) + [f(xs[|xs| - 1])]
  }

  /** The mapped sequence has one image per element, in order. */
  lemma {:induction false} MapAt<A, B>(xs: seq<A>, f: A -> B)
    ensures |Map(xs, f)| == |xs|
    ensures forall i :: 0 <= i < |xs| ==> Map(xs, f)[i] == f(xs[i])
  {
    if xs != [] {
      var init := xs[..|xs| - 1];
      MapAt(init, f);
      forall i | 0 <= i < |xs| - 1
        ensures xs[i] == init[i]
      {
      }
    }
  }

  /** Mapping one more element appends its image. */
  lemma MapSnoc<A, B>(xs: seq<A>, f: A -> B, i: nat)
    requires i < |xs|
    ensures Map(xs[..i + 1], f) == Map(xs[..i], f) + [f(xs[i])]
  {
    assert xs[..i + 1][..i] == xs[..i];
  }
}
