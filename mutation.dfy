/**
 * The mutation operator `infect`: copy the genes of an individual and flip
 * `travel_distance` distinct positions drawn at random. The random positions
 * are an input here: `draws` is the sequence of values `rnd.nextInt(size)`
 * would return; the loop accepts a draw only if it was not accepted before.
 */
module Mutation {
  import opened Individuals

  /** A gene flip as written in the source: 0 becomes 1, anything else 0. */
  function Flip(v: int): int
  {
    if v == 0 then 1 else 0
  }

  /** Arrays.copyOf(data, n): the first n genes, padded with zeros. */
  function CopyOf(data: seq<int>, n: nat): (r: seq<int>)
    ensures |r| == n
    ensures n <= |data| ==> r == data[..n]
    ensures forall k :: 0 <= k < n && k < |data| ==> r[k] == data[k]
    ensures forall k :: |data| <= k < n ==> r[k] == 0
    ensures IsBits(data) ==> IsBits(r)
  {
    seq(n, k requires 0 <= k < n => if k < |data| then data[k] else 0)
  }

  /** The distinct values of s in the order of their first occurrence. */
  function Dedup(s: seq<int>): seq<int>
  {
    if s == [] then []
    else
      var d := Dedup(s[..|s| - 1]);
      if s[|s| - 1] in d then d else d + [s[|s| - 1]]
  }

  /** The positions the loop of `infect` flips: the first td distinct draws. */
  function Chosen(draws: seq<int>, td: nat): seq<int>
    requires td <= |Dedup(draws)|
  {
    Dedup(draws)[..td]
  }

  /** The genes c with every position listed in ps flipped. */
  function Mutate(c: seq<int>, ps: seq<int>): (r: seq<int>)
    ensures |r| == |c|
    ensures forall q :: 0 <= q < |c| && q !in ps ==> r[q] == c[q]
  {
    seq(|c|, q requires 0 <= q < |c| => if q in ps then Flip(c[q]) else c[q])
  }

  /** The positions where two gene vectors of one length differ. */
  function Differences(a: seq<int>, b: seq<int>): set<int>
    requires |a| == |b|
  {
    set q | 0 <= q < |a| && a[q] != b[q]
  }

  /** Dedup keeps exactly the values of s, each once. */
  lemma {:induction false} DedupSpec(s: seq<int>)
    ensures Distinct(Dedup(s))
    ensures forall v :: v in Dedup(s) <==> v in s
  {
    if s != [] {
      var init := s[..|s| - 1];
      DedupSpec(init);
      assert s == init + [s[|s| - 1]];
    }
  }

  /** Dedup of a prefix is a prefix of Dedup: later draws only append. */
  lemma {:induction false} DedupPrefix(s: seq<int>, k: nat)
    requires k <= |s|
    ensures Dedup(s[..k]) <= Dedup(s)
  {
    if k < |s| {
      var init := s[..|s| - 1];
      assert s[..k] == init[..k];
      DedupPrefix(init, k);
    } else {
      assert s[..k] == s;
    }
  }

  /** A sequence without repetitions has as many distinct values as elements. */
  lemma {:induction false} DistinctCard(s: seq<int>)
    requires Distinct(s)
    ensures |Elems(s)| == |s|
  {
    if s != [] {
      var init := s[..|s| - 1];
      DistinctCard(init);
      assert Elems(s) == Elems(init) + {s[|s| - 1]};
    }
  }

  /** The positions 0 .. n-1. */
  function Range(n: nat): set<int>
  {
    if n == 0 then {} else Range(n - 1) + {n - 1}
  }

  lemma {:induction false} RangeSpec(n: nat)
    ensures |Range(n)| == n
    ensures forall q :: q in Range(n) <==> 0 <= q < n
  {
    if n > 0 {
      RangeSpec(n - 1);
    }
  }

  /**
   * On a 0/1 vector, `infect` with td distinct draws in range flips exactly
   * the chosen positions, td of them, and keeps the result a 0/1 vector.
   */
  lemma InfectFlipsExactly(c: seq<int>, draws: seq<int>, td: nat)
    requires IsBits(c)
    requires forall k :: 0 <= k < |draws| ==> 0 <= draws[k] < |c|
    requires td <= |Dedup(draws)|
    ensures IsBits(Mutate(c, Chosen(draws, td)))
    ensures Differences(Mutate(c, Chosen(draws, td)), c) == Elems(Chosen(draws, td))
    ensures |Differences(Mutate(c, Chosen(draws, td)), c)| == td
  {
    var ps := Chosen(draws, td);
    var r := Mutate(c, ps);
    DedupSpec(draws);
    assert Distinct(ps);
    DistinctCard(ps);
    forall q | q in ps ensures 0 <= q < |c| && r[q] != c[q] {
      assert q in Dedup(draws);
    }
    assert Differences(r, c) == Elems(ps);
  }

  /** A travel distance equal to the size flips every gene once. */
  lemma InfectWholeVector(c: seq<int>, draws: seq<int>)
    requires IsBits(c)
    requires forall k :: 0 <= k < |draws| ==> 0 <= draws[k] < |c|
    requires |c| <= |Dedup(draws)|
    ensures forall q :: 0 <= q < |c| ==> Mutate(c, Chosen(draws, |c|))[q] == 1 - c[q]
  {
    var r := Mutate(c, Chosen(draws, |c|));
    InfectFlipsExactly(c, draws, |c|);
    var diff := Differences(r, c);
    RangeSpec(|c|);
    assert diff <= Range(|c|);
    assert diff * Range(|c|) == diff;
    assert |Range(|c|) - diff| == 0;
    forall q | 0 <= q < |c| ensures r[q] == 1 - c[q] {
      assert q !in Range(|c|) - diff;
    }
  }
}
