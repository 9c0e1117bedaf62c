/**
 * Identifiers. The source uses `uuid.UUID` (and, in an older version of
 * the types, `uint`); both are modelled as natural numbers whose zero
 * value is `Nil`. Outside this module only equality and `Nil` are used;
 * only the generator's counter uses their order. `uuid.New` is a foreign random generator, modelled here as a
 * source of fresh identifiers.
 */
module Ids {

  /** An identifier: a natural number, with `Nil` = 0. */
  type Uuid = nat

  /** The all-zero identifier (`uuid.Nil`, and the zero value of a Go id field). */
  const Nil: Uuid := 0

  /** The identifiers in `s` are pairwise different. */
  ghost predicate Distinct(s: seq<Uuid>)
  {
    forall i, j :: 0 <= i < j < |s| ==> s[i] != s[j]
  }

  /**
   * A source of fresh identifiers: every identifier it hands out is
   * non-nil and different from every identifier it handed out before.
   * `issued` is the history of what it has handed out.
   */
  class IdGenerator {
    ghost var issued: seq<Uuid>
    var next: nat

    ghost predicate Valid()
      reads this
    {
      && 0 < next
      && Distinct(issued)
      && forall i :: 0 <= i < |issued| ==> Nil < issued[i] < next
    }

    constructor ()
      ensures Valid() && issued == []
    {
      next := 1;
      issued := [];
    }

    /** `uuid.New`: a fresh, non-nil identifier. */
    method New() returns (id: Uuid)
      requires Valid()
      modifies this
      ensures Valid()
      ensures id != Nil && id !in old(issued)
      ensures issued == old(issued) + [id]
    {
      id := next;
      next := next + 1;
      issued := issued + [id];
    }
  }
}
