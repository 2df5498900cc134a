/**
 * The bounded selection bags of a strain: the super-spreader bag ('s') and
 * the death bag ('d'). Each bag is a set with a tracked border individual;
 * `Insert` is the effect of insertIntoSetStrain on one bag and its border.
 */
module Bag {
  import opened Individuals

  /** The `type` character of insertIntoSetStrain: 's' or 'd'. */
  datatype BagType = SuperSpreader | Death

  /**
   * The compareTo value that lets an individual beat the border: 1 for the
   * super-spreader bag, -1 for the death bag.
   */
  function Direction(t: BagType): (d: int)
    ensures d == 1 || d == -1
    ensures d == 1 <==> t == SuperSpreader
  {
    if t == SuperSpreader then 1 else -1
  }

  /** The bag of the other type. */
  function Other(t: BagType): (u: BagType)
    ensures u != t
  {
    if t == SuperSpreader then Death else SuperSpreader
  }

  /** A bag's contents and its border. */
  datatype BagState = BagState(elems: set<Individual>, border: Individual)

  /** What one insertion returns (`r`) and leaves behind. */
  datatype Insertion = Insertion(added: bool, bag: BagState)

  /** Free capacity left, plus one while the border is not a member (still the sentinel). */
  function Slack(b: BagState, remaining: int): nat
  {
    (if remaining > 0 then remaining else 0) + (if b.border in b.elems then 0 else 1)
  }

  /**
   * insertIntoSetStrain on bag b with direction dir. While capacity remains
   * the individual always goes in; once it is exhausted the individual must
   * beat the border, which it then evicts and replaces.
   */
  function Insert(cmp: Comparator, b: BagState, dir: int, x: Individual, remaining: int): (r: Insertion)
    // with capacity left: x is added, `added` says whether it was new
    ensures remaining > 0 ==> r.bag.elems == b.elems + {x} && r.added == (x !in b.elems)
    // without capacity and without beating the border: nothing happens
    ensures remaining <= 0 && cmp(x, b.border) != dir ==> r == Insertion(false, b)
    // a replacement evicts exactly the old border and makes x the border
    ensures remaining <= 0 && cmp(x, b.border) == dir ==>
              r.bag.border == x && r.bag.elems == (b.elems - {b.border}) + {x}
    // with capacity left the border becomes x exactly when x beats it
    ensures remaining > 0 ==> r.bag.border == (if cmp(x, b.border) == dir then x else b.border)
    // a replacement reports whether x was new once the border is gone
    ensures remaining <= 0 && cmp(x, b.border) == dir ==> r.added == (x !in b.elems - {b.border})
    // the border only moves to an individual that beats it
    ensures r.bag.border == b.border || (r.bag.border == x && cmp(x, b.border) == dir)
    // a border that is a member stays a member; a new border is always a member
    ensures b.border in b.elems || r.bag.border != b.border ==> r.bag.border in r.bag.elems
    // capacity: size plus slack never grows when a successful insertion uses one unit
    ensures |r.bag.elems| + Slack(r.bag, if r.added then remaining - 1 else remaining)
            <= |b.elems| + Slack(b, remaining)
  {
    var beats := cmp(x, b.border) == dir;
    if remaining > 0 then
      Insertion(x !in b.elems, BagState(b.elems + {x}, if beats then x else b.border))
    else if beats then
      var rest := b.elems - {b.border};
      Insertion(x !in rest, BagState(rest + {x}, x))
    else
      Insertion(false, b)
  }
}
