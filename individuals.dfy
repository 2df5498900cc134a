/**
 * Candidate solutions as the strain logic sees them. The Individual class and
 * its comparison are external to the core: an individual is modelled as its
 * gene data (set membership in the source is by that data), and compareTo and
 * the sentinel individuals are supplied from outside as function values.
 */
module Individuals {

  /** A candidate solution: its genes, one int per bit. */
  datatype Individual = Individual(data: seq<int>)

  /** The result of Individual.compareTo: -1, 0 or 1. */
  type Cmp = c: int | -1 <= c <= 1

  type Comparator = (Individual, Individual) -> Cmp

  /**
   * The external operations of Individual that the core consumes:
   * compareTo, and getExtremeIndividual(worst) that yields the sentinel
   * borders.
   */
  datatype Ops = Ops(compareTo: Comparator, extreme: bool -> Individual)

  /** `current.compareTo(candidate) == 1`: the test by which a best is replaced. */
  predicate Improves(cmp: Comparator, current: Individual, candidate: Individual)
  {
    cmp(current, candidate) == 1
  }

  /** Improves is a strict order: irreflexive and transitive. */
  ghost predicate StrictImprovement(cmp: Comparator)
  {
    && (forall a :: !Improves(cmp, a, a))
    && (forall a, b, c :: Improves(cmp, a, b) && Improves(cmp, b, c) ==> Improves(cmp, a, c))
  }

  /** Every gene is 0 or 1. */
  predicate IsBits(s: seq<int>)
  {
    forall i :: 0 <= i < |s| ==> s[i] == 0 || s[i] == 1
  }

  /** The set of the elements of a sequence. */
  function Elems<T>(s: seq<T>): set<T>
  {
    set x | x in s
  }

  /** No element occurs twice. */
  predicate Distinct<T(==)>(s: seq<T>)
  {
    forall i, j :: 0 <= i < j < |s| ==> s[i] != s[j]
  }
}
