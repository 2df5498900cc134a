/**
 * The propagation step propagateDisease as a function of the strain state,
 * the shared state and the random draws, in two phases: the selection of
 * super-spreaders, deaths and bests (with the merge into the shared death set
 * and the pruning of the recovered set), and the spreading of new infections
 * with the admission, reinfection and isolation rules.
 */
module Propagation {
  import opened Individuals
  import opened Bag
  import opened Mutation

  /** The strain parameters the propagation step reads. */
  datatype Config = Config(
    size: nat,
    minSuperSpread: int,
    socialDistancing: int,
    superSpreaderPerc: real,
    deathPerc: real,
    cmp: Comparator)

  /** `(int) Math.ceil(r)`, computed exactly on a real. */
  function Ceil(r: real): (c: int)
    ensures c as real - 1.0 < r <= c as real
  {
    -((-r).Floor)
  }

  /** `(int) Math.ceil(PERC * size)`: the number of individuals a bag may take in one step. */
  function Capacity(perc: real, n: nat): int
  {
    Ceil(perc * n as real)
  }

  /** xs lists every member of s exactly once: one iteration order of a HashSet. */
  predicate IsEnumeration(xs: seq<Individual>, s: set<Individual>)
  {
    Distinct(xs) && Elems(xs) == s
  }

  // ---------------------------------------------------------------------
  // Selection (the first loop of propagateDisease)
  // ---------------------------------------------------------------------

  /** The running state of the selection loop. */
  datatype Selection = Selection(
    ss: BagState,
    ssLeft: int,
    dead: BagState,
    deadLeft: int,
    recovered: set<Individual>,
    globalBest: Individual,
    localBest: Individual)

  /**
   * One turn of the selection loop for individual x: the super-spreader
   * insertion, the death insertion with its routing to `recovered`, and the
   * global and strain best updates. `deaths` is the shared death set.
   */
  function SelectOne(cmp: Comparator, deaths: set<Individual>, s: Selection, x: Individual): (r: Selection)
    ensures r.globalBest == (if Improves(cmp, s.globalBest, x) then x else s.globalBest)
    ensures r.localBest == (if Improves(cmp, s.localBest, x) then x else s.localBest)
    ensures s.recovered <= r.recovered <= s.recovered + {x}
    ensures x in r.recovered - s.recovered ==> x !in deaths
  {
    var a := Insert(cmp, s.ss, Direction(SuperSpreader), x, s.ssLeft);
    var d := Insert(cmp, s.dead, Direction(Death), x, s.deadLeft);
    Selection(
      a.bag, if a.added then s.ssLeft - 1 else s.ssLeft,
      d.bag, if d.added then s.deadLeft - 1 else s.deadLeft,
      if !d.added && x !in deaths then s.recovered + {x} else s.recovered,
      if Improves(cmp, s.globalBest, x) then x else s.globalBest,
      if Improves(cmp, s.localBest, x) then x else s.localBest)
  }

  /** The selection loop over the individuals xs, in that order. */
  function SelectAll(cmp: Comparator, deaths: set<Individual>, s: Selection, xs: seq<Individual>): Selection
    decreases |xs|
  {
    if xs == [] then s
    else SelectOne(cmp, deaths, SelectAll(cmp, deaths, s, xs[..|xs| - 1]), xs[|xs| - 1])
  }

  /** A bag's border is its starting border or one of its members. */
  predicate Anchored(b: BagState, start: BagState)
  {
    (b.border == start.border || b.border in b.elems)
    && (start.border in start.elems ==> b.border in b.elems)
  }

  /** The bag of type t in a selection, and its remaining room. */
  function BagIn(s: Selection, t: BagType): BagState
  {
    if t == SuperSpreader then s.ss else s.dead
  }

  function LeftIn(s: Selection, t: BagType): int
  {
    if t == SuperSpreader then s.ssLeft else s.deadLeft
  }

  /** One turn of the selection loop on the bag of type t. */
  lemma SelectOneBag(cmp: Comparator, deaths: set<Individual>, m: Selection, x: Individual, t: BagType)
    ensures var r := SelectOne(cmp, deaths, m, x);
      && BagIn(r, t).elems <= BagIn(m, t).elems + {x}
      && |BagIn(r, t).elems| + Slack(BagIn(r, t), LeftIn(r, t)) <= |BagIn(m, t).elems| + Slack(BagIn(m, t), LeftIn(m, t))
      && Anchored(BagIn(r, t), BagIn(m, t))
  {
    var ins := Insert(cmp, BagIn(m, t), Direction(t), x, LeftIn(m, t));
    assert BagIn(SelectOne(cmp, deaths, m, x), t) == ins.bag;
    assert LeftIn(SelectOne(cmp, deaths, m, x), t) == if ins.added then LeftIn(m, t) - 1 else LeftIn(m, t);
  }

  /**
   * What the selection loop does to the bag of type t: it takes members only
   * from xs, grows by at most its capacity (plus one while the border is
   * still not a member), and keeps its border anchored.
   */
  lemma {:induction false} SelectAllBag(cmp: Comparator, deaths: set<Individual>, s: Selection, xs: seq<Individual>, t: BagType)
    ensures var r := SelectAll(cmp, deaths, s, xs);
      && BagIn(r, t).elems <= BagIn(s, t).elems + Elems(xs)
      && |BagIn(r, t).elems| + Slack(BagIn(r, t), LeftIn(r, t)) <= |BagIn(s, t).elems| + Slack(BagIn(s, t), LeftIn(s, t))
      && Anchored(BagIn(r, t), BagIn(s, t))
  {
    if xs != [] {
      var init := xs[..|xs| - 1];
      var x := xs[|xs| - 1];
      SelectAllBag(cmp, deaths, s, init, t);
      SelectOneBag(cmp, deaths, SelectAll(cmp, deaths, s, init), x, t);
      assert Elems(xs) == Elems(init) + {x} by {
        assert xs == init + [x];
      }
    }
  }

  /** `recovered` only grows during the selection loop, by individuals of xs that are not shared-dead. */
  lemma {:induction false} SelectAllRecovered(cmp: Comparator, deaths: set<Individual>, s: Selection, xs: seq<Individual>)
    ensures var r := SelectAll(cmp, deaths, s, xs);
      && s.recovered <= r.recovered <= s.recovered + Elems(xs)
      && (r.recovered - s.recovered) !! deaths
  {
    if xs != [] {
      var init := xs[..|xs| - 1];
      SelectAllRecovered(cmp, deaths, s, init);
      assert Elems(xs) == Elems(init) + {xs[|xs| - 1]} by {
        assert xs == init + [xs[|xs| - 1]];
      }
    }
  }

  /**
   * What the selection loop does to the two bags and to `recovered`: the
   * bags take members only from xs, grow by at most their capacity (plus one
   * while the border is still not a member), and keep their border anchored;
   * `recovered` only grows, by individuals of xs that are not shared-dead.
   */
  lemma SelectAllBags(cmp: Comparator, deaths: set<Individual>, s: Selection, xs: seq<Individual>)
    ensures var r := SelectAll(cmp, deaths, s, xs);
      && r.ss.elems <= s.ss.elems + Elems(xs)
      && r.dead.elems <= s.dead.elems + Elems(xs)
      && |r.ss.elems| + Slack(r.ss, r.ssLeft) <= |s.ss.elems| + Slack(s.ss, s.ssLeft)
      && |r.dead.elems| + Slack(r.dead, r.deadLeft) <= |s.dead.elems| + Slack(s.dead, s.deadLeft)
      && Anchored(r.ss, s.ss)
      && Anchored(r.dead, s.dead)
      && s.recovered <= r.recovered <= s.recovered + Elems(xs)
      && (r.recovered - s.recovered) !! deaths
  {
    SelectAllBag(cmp, deaths, s, xs, SuperSpreader);
    SelectAllBag(cmp, deaths, s, xs, Death);
    SelectAllRecovered(cmp, deaths, s, xs);
  }

  /** The running best of the selection loop: replaced by each x that improves on it. */
  function Champion(cmp: Comparator, b: Individual, xs: seq<Individual>): Individual
    decreases |xs|
  {
    if xs == [] then b
    else
      var c := Champion(cmp, b, xs[..|xs| - 1]);
      if Improves(cmp, c, xs[|xs| - 1]) then xs[|xs| - 1] else c
  }

  /** Both bests of the selection loop are champions of the population order. */
  lemma {:induction false} SelectAllChampions(cmp: Comparator, deaths: set<Individual>, s: Selection, xs: seq<Individual>)
    ensures var r := SelectAll(cmp, deaths, s, xs);
      && r.globalBest == Champion(cmp, s.globalBest, xs)
      && r.localBest == Champion(cmp, s.localBest, xs)
  {
    if xs != [] {
      SelectAllChampions(cmp, deaths, s, xs[..|xs| - 1]);
    }
  }

  /** A champion is the starting best or one of xs. */
  lemma {:induction false} ChampionFrom(cmp: Comparator, b: Individual, xs: seq<Individual>)
    ensures Champion(cmp, b, xs) == b || Champion(cmp, b, xs) in xs
  {
    if xs != [] {
      var init := xs[..|xs| - 1];
      ChampionFrom(cmp, b, init);
      assert xs == init + [xs[|xs| - 1]];
    }
  }

  /** When Improves is a strict order, nothing in xs and not the starting best improves on the champion. */
  lemma {:induction false} ChampionUnbeaten(cmp: Comparator, b: Individual, xs: seq<Individual>)
    requires StrictImprovement(cmp)
    ensures !Improves(cmp, Champion(cmp, b, xs), b)
    ensures forall y :: y in xs ==> !Improves(cmp, Champion(cmp, b, xs), y)
  {
    if xs != [] {
      var init := xs[..|xs| - 1];
      var x := xs[|xs| - 1];
      ChampionUnbeaten(cmp, b, init);
      assert forall y :: y in xs ==> y in init || y == x by {
        assert xs == init + [x];
      }
    }
  }

  /** The bests after the selection loop are the old bests or individuals of xs. */
  lemma SelectAllBestsFrom(cmp: Comparator, deaths: set<Individual>, s: Selection, xs: seq<Individual>)
    ensures var r := SelectAll(cmp, deaths, s, xs);
      && (r.globalBest == s.globalBest || r.globalBest in xs)
      && (r.localBest == s.localBest || r.localBest in xs)
  {
    SelectAllChampions(cmp, deaths, s, xs);
    ChampionFrom(cmp, s.globalBest, xs);
    ChampionFrom(cmp, s.localBest, xs);
  }

  /**
   * When Improves is a strict order, no individual of xs and neither old best
   * improves on the bests the selection loop ends with.
   */
  lemma SelectAllBestsUnbeaten(cmp: Comparator, deaths: set<Individual>, s: Selection, xs: seq<Individual>)
    requires StrictImprovement(cmp)
    ensures var r := SelectAll(cmp, deaths, s, xs);
      && !Improves(cmp, r.globalBest, s.globalBest)
      && !Improves(cmp, r.localBest, s.localBest)
      && (forall y :: y in xs ==> !Improves(cmp, r.globalBest, y) && !Improves(cmp, r.localBest, y))
  {
    SelectAllChampions(cmp, deaths, s, xs);
    ChampionUnbeaten(cmp, s.globalBest, xs);
    ChampionUnbeaten(cmp, s.localBest, xs);
  }

  // ---------------------------------------------------------------------
  // Spreading (the second loop of propagateDisease)
  // ---------------------------------------------------------------------

  /**
   * The draws for one new infection: the positions `infect` draws, whether
   * `rnd.nextDouble() > P_ISOLATION` holds, and whether
   * `rnd.nextDouble() < P_REINFECTION` holds.
   */
  datatype Draw = Draw(positions: seq<int>, escapesIsolation: bool, reinfected: bool)

  /**
   * The draws for one infecting individual: the `nextInt` of its infection
   * count, the travel test `nextDouble() < P_TRAVEL`, the `nextInt(size + 1)`
   * travel distance, and the draws of its new infections in order.
   */
  datatype Plan = Plan(spreadDraw: nat, travels: bool, travelDraw: nat, offspring: seq<Draw>)

  /** The travel distance of an infecting individual: 1 unless it travels. */
  function TravelDistance(p: Plan): nat
  {
    if p.travels then p.travelDraw else 1
  }

  /** How often the individual infects: MIN_SUPERSPREAD + draw for a super-spreader, the draw otherwise. */
  function InfectionCount(cfg: Config, isSuperSpreader: bool, p: Plan): nat
  {
    var n := if isSuperSpreader then cfg.minSuperSpread + p.spreadDraw else p.spreadDraw;
    if n > 0 then n else 0
  }

  /** The positions are in [0, size) and hold at least td distinct values. */
  predicate DrawFits(size: nat, td: nat, d: Draw)
  {
    (forall k :: 0 <= k < |d.positions| ==> 0 <= d.positions[k] < size)
    && td <= |Dedup(d.positions)|
  }

  /** The draws suffice for either infection count and every infection. */
  predicate PlanFits(cfg: Config, p: Plan)
  {
    && p.spreadDraw <= |p.offspring|
    && cfg.minSuperSpread + p.spreadDraw <= |p.offspring|
    && forall k :: 0 <= k < |p.offspring| ==> DrawFits(cfg.size, TravelDistance(p), p.offspring[k])
  }

  /** A fitting draw asks for at most size positions, as nextInt(size + 1) guarantees. */
  lemma DrawFitsTravel(size: nat, td: nat, d: Draw)
    requires DrawFits(size, td, d)
    ensures td <= size
  {
    var u := Dedup(d.positions);
    DedupSpec(d.positions);
    DistinctCard(u);
    RangeSpec(size);
    assert Elems(u) <= Range(size);
    assert Range(size) == Elems(u) + (Range(size) - Elems(u));
  }

  /** A fitting plan with at least one offspring draw travels at most size positions. */
  lemma PlanFitsTravel(cfg: Config, p: Plan)
    requires PlanFits(cfg, p) && |p.offspring| > 0
    ensures TravelDistance(p) <= cfg.size
  {
    DrawFitsTravel(cfg.size, TravelDistance(p), p.offspring[0]);
  }

  /** The new individual `infect(x, td)` makes from the given positions. */
  function Offspring(size: nat, x: Individual, td: nat, positions: seq<int>): Individual
    requires td <= |Dedup(positions)|
  {
    Individual(Mutate(CopyOf(x.data, size), Chosen(positions, td)))
  }

  /** With travel distance 0 the new individual is the unchanged copy of x's genes. */
  lemma InfectNoTravel(size: nat, x: Individual, positions: seq<int>)
    ensures Offspring(size, x, 0, positions) == Individual(CopyOf(x.data, size))
  {
    assert Chosen(positions, 0) == [];
  }

  /** The state the spreading loop updates: the new population and two shared sets. */
  datatype Outbreak = Outbreak(next: set<Individual>, recovered: set<Individual>, isolated: set<Individual>)

  /** The new population avoids the dead and the recovered, and those two are disjoint. */
  predicate Separated(o: Outbreak, deaths: set<Individual>)
  {
    o.next !! deaths && o.next !! o.recovered && o.recovered !! deaths
  }

  /**
   * The fate of one new infection z: before the social-distancing onset, or
   * when it escapes isolation, it is admitted if neither dead nor recovered,
   * or if recovered and reinfected (it then leaves `recovered`); otherwise it
   * is isolated when it is in none of the three shared sets.
   */
  function Admit(deaths: set<Individual>, o: Outbreak, z: Individual, distancing: bool, d: Draw): (r: Outbreak)
    ensures z in r.next <==>
              z in o.next ||
              ((!distancing || d.escapesIsolation) &&
               ((z !in deaths && z !in o.recovered) || (z in o.recovered && d.reinfected)))
    ensures o.next <= r.next <= o.next + {z}
    ensures r.recovered ==
              if (!distancing || d.escapesIsolation) && z in o.recovered && d.reinfected
              then o.recovered - {z} else o.recovered
    ensures r.isolated ==
              if distancing && !d.escapesIsolation && z !in deaths && z !in o.recovered && z !in o.isolated
              then o.isolated + {z} else o.isolated
    ensures Separated(o, deaths) ==> Separated(r, deaths)
  {
    if !distancing || d.escapesIsolation then
      if z !in deaths && z !in o.recovered then o.(next := o.next + {z})
      else if z in o.recovered then
        if d.reinfected then Outbreak(o.next + {z}, o.recovered - {z}, o.isolated) else o
      else o
    else if z !in deaths && z !in o.recovered && z !in o.isolated then o.(isolated := o.isolated + {z})
    else o
  }

  /** The new infections by x with travel distance td, one per draw, in order. */
  function AdmitAll(size: nat, deaths: set<Individual>, o: Outbreak, x: Individual, td: nat,
                    draws: seq<Draw>, distancing: bool): Outbreak
    requires forall k :: 0 <= k < |draws| ==> DrawFits(size, td, draws[k])
    decreases |draws|
  {
    if draws == [] then o
    else
      var d := draws[|draws| - 1];
      assert DrawFits(size, td, d);
      Admit(deaths, AdmitAll(size, deaths, o, x, td, draws[..|draws| - 1], distancing),
            Offspring(size, x, td, d.positions), distancing, d)
  }

  /** AdmitAll over one more draw is one more Admit. */
  lemma AdmitAllStep(size: nat, deaths: set<Individual>, o: Outbreak, x: Individual, td: nat,
                     draws: seq<Draw>, j: nat, distancing: bool)
    requires j < |draws|
    requires forall k :: 0 <= k < |draws| ==> DrawFits(size, td, draws[k])
    ensures DrawFits(size, td, draws[j])
    ensures AdmitAll(size, deaths, o, x, td, draws[..j + 1], distancing)
            == Admit(deaths, AdmitAll(size, deaths, o, x, td, draws[..j], distancing),
                     Offspring(size, x, td, draws[j].positions), distancing, draws[j])
  {
    assert draws[..j + 1][..j] == draws[..j];
  }

  /** The individuals x infects with those draws. */
  function Litter(size: nat, x: Individual, td: nat, draws: seq<Draw>): set<Individual>
    requires forall k :: 0 <= k < |draws| ==> DrawFits(size, td, draws[k])
    decreases |draws|
  {
    if draws == [] then {}
    else
      var d := draws[|draws| - 1];
      assert DrawFits(size, td, d);
      Litter(size, x, td, draws[..|draws| - 1]) + {Offspring(size, x, td, d.positions)}
  }

  /** The infections x causes under its plan, given the super-spreader bag. */
  function Infections(cfg: Config, superSpreaders: set<Individual>, x: Individual, p: Plan): (ds: seq<Draw>)
    requires PlanFits(cfg, p)
    ensures forall k :: 0 <= k < |ds| ==> DrawFits(cfg.size, TravelDistance(p), ds[k])
  {
    p.offspring[..InfectionCount(cfg, x in superSpreaders, p)]
  }

  /** The spreading loop over xs, in that order. */
  function SpreadAll(cfg: Config, deaths: set<Individual>, superSpreaders: set<Individual>,
                     plans: Individual -> Plan, o: Outbreak, xs: seq<Individual>, distancing: bool): Outbreak
    requires forall k :: 0 <= k < |xs| ==> PlanFits(cfg, plans(xs[k]))
    decreases |xs|
  {
    if xs == [] then o
    else
      var x := xs[|xs| - 1];
      var p := plans(x);
      AdmitAll(cfg.size, deaths, SpreadAll(cfg, deaths, superSpreaders, plans, o, xs[..|xs| - 1], distancing),
               x, TravelDistance(p), Infections(cfg, superSpreaders, x, p), distancing)
  }

  /** Every individual the spreading loop over xs creates. */
  function Descendants(cfg: Config, superSpreaders: set<Individual>, plans: Individual -> Plan,
                       xs: seq<Individual>): set<Individual>
    requires forall k :: 0 <= k < |xs| ==> PlanFits(cfg, plans(xs[k]))
    decreases |xs|
  {
    if xs == [] then {}
    else
      var x := xs[|xs| - 1];
      var p := plans(x);
      Descendants(cfg, superSpreaders, plans, xs[..|xs| - 1])
        + Litter(cfg.size, x, TravelDistance(p), Infections(cfg, superSpreaders, x, p))
  }

  /** The effect of a run of new infections on the population and the shared sets. */
  ghost predicate SpreadEffect(deaths: set<Individual>, o: Outbreak, r: Outbreak, born: set<Individual>, distancing: bool)
  {
    && o.next <= r.next <= o.next + born
    && r.recovered <= o.recovered
    && o.isolated <= r.isolated
    && (!distancing ==> r.isolated == o.isolated)
    && (r.isolated - o.isolated) !! deaths
    && (r.isolated - o.isolated) !! r.recovered
    && (Separated(o, deaths) ==> Separated(r, deaths))
    && (!distancing ==> born - deaths - o.recovered <= r.next)
  }

  lemma {:induction false} AdmitAllSpec(size: nat, deaths: set<Individual>, o: Outbreak, x: Individual, td: nat,
                                        draws: seq<Draw>, distancing: bool)
    requires forall k :: 0 <= k < |draws| ==> DrawFits(size, td, draws[k])
    ensures SpreadEffect(deaths, o, AdmitAll(size, deaths, o, x, td, draws, distancing), Litter(size, x, td, draws), distancing)
  {
    if draws != [] {
      AdmitAllSpec(size, deaths, o, x, td, draws[..|draws| - 1], distancing);
    }
  }

  lemma {:induction false} SpreadAllSpec(cfg: Config, deaths: set<Individual>, superSpreaders: set<Individual>,
                                         plans: Individual -> Plan, o: Outbreak, xs: seq<Individual>, distancing: bool)
    requires forall k :: 0 <= k < |xs| ==> PlanFits(cfg, plans(xs[k]))
    ensures SpreadEffect(deaths, o, SpreadAll(cfg, deaths, superSpreaders, plans, o, xs, distancing),
                         Descendants(cfg, superSpreaders, plans, xs), distancing)
  {
    if xs != [] {
      var x := xs[|xs| - 1];
      var p := plans(x);
      var mid := SpreadAll(cfg, deaths, superSpreaders, plans, o, xs[..|xs| - 1], distancing);
      SpreadAllSpec(cfg, deaths, superSpreaders, plans, o, xs[..|xs| - 1], distancing);
      AdmitAllSpec(cfg.size, deaths, mid, x, TravelDistance(p), Infections(cfg, superSpreaders, x, p), distancing);
    }
  }

  // ---------------------------------------------------------------------
  // The whole step
  // ---------------------------------------------------------------------

  /** The strain-local and shared state propagateDisease reads and writes. */
  datatype State = State(
    infected: set<Individual>,
    superSpreaders: BagState,
    deathBag: BagState,
    localBest: Individual,
    discovering: map<Individual, int>,
    globalBest: Individual,
    recovered: set<Individual>,
    deaths: set<Individual>,
    isolated: set<Individual>)

  /**
   * Selection, the merge of the strain's death bag into the shared deaths and
   * the overwrite of the strain best's discovering iteration (all skipped for
   * a population of one), then the pruning of `recovered`.
   */
  function SelectionPhase(cfg: Config, s: State, time: int, order: seq<Individual>): State
  {
    var t := if |s.infected| != 1 then Selected(s, time, SelectAll(cfg.cmp, s.deaths, SelectionStart(cfg, s), order)) else s;
    t.(recovered := t.recovered - t.deaths)
  }

  /** The selection loop starts from the bags, their capacities, `recovered` and the bests. */
  function SelectionStart(cfg: Config, s: State): Selection
  {
    var n := |s.infected|;
    Selection(s.superSpreaders, Capacity(cfg.superSpreaderPerc, n),
              s.deathBag, Capacity(cfg.deathPerc, n),
              s.recovered, s.globalBest, s.localBest)
  }

  /** The state after the selection loop ended in sel, the merge into deaths and line 209. */
  function Selected(s: State, time: int, sel: Selection): State
  {
    s.(superSpreaders := sel.ss, deathBag := sel.dead, recovered := sel.recovered,
       globalBest := sel.globalBest, localBest := sel.localBest,
       deaths := s.deaths + sel.dead.elems,
       discovering := s.discovering[sel.localBest := time + 1])
  }

  /** Every individual of order infects; the admitted ones become the new population. */
  function SpreadingPhase(cfg: Config, s: State, time: int, order: seq<Individual>, plans: Individual -> Plan): State
    requires forall k :: 0 <= k < |order| ==> PlanFits(cfg, plans(order[k]))
  {
    var o := SpreadAll(cfg, s.deaths, s.superSpreaders.elems, plans, Outbreak({}, s.recovered, s.isolated),
                       order, !(time < cfg.socialDistancing));
    s.(infected := o.next, recovered := o.recovered, isolated := o.isolated)
  }

  /** propagateDisease, with `order` the iteration order of the infected set. */
  function Propagate(cfg: Config, s: State, time: int, order: seq<Individual>, plans: Individual -> Plan): State
    requires IsEnumeration(order, s.infected)
    requires forall x :: x in s.infected ==> PlanFits(cfg, plans(x))
  {
    SpreadingPhase(cfg, SelectionPhase(cfg, s, time, order), time, order, plans)
  }

  /** The plans of an enumerated population fit, position by position. */
  lemma OrderFits(cfg: Config, s: State, order: seq<Individual>, plans: Individual -> Plan)
    requires IsEnumeration(order, s.infected)
    requires forall x :: x in s.infected ==> PlanFits(cfg, plans(x))
    ensures forall k :: 0 <= k < |order| ==> PlanFits(cfg, plans(order[k]))
  {
    forall k | 0 <= k < |order| ensures PlanFits(cfg, plans(order[k])) {
      assert order[k] in Elems(order);
    }
  }

  /** The selection phase on the state's sets. */
  lemma SelectionPhaseSets(cfg: Config, s: State, time: int, order: seq<Individual>)
    requires IsEnumeration(order, s.infected)
    ensures var m := SelectionPhase(cfg, s, time, order);
      && m.infected == s.infected
      && m.isolated == s.isolated
      && m.deaths == (if |s.infected| != 1 then s.deaths + m.deathBag.elems else s.deaths)
      && m.recovered !! m.deaths
      && m.recovered <= s.recovered + s.infected
  {
    if |s.infected| != 1 {
      SelectAllBags(cfg.cmp, s.deaths, SelectionStart(cfg, s), order);
    }
  }

  /** The selection phase on the two bags. */
  lemma SelectionPhaseBags(cfg: Config, s: State, time: int, order: seq<Individual>)
    requires IsEnumeration(order, s.infected)
    ensures var m := SelectionPhase(cfg, s, time, order);
      var n := |s.infected|;
      && (n == 1 ==> m.superSpreaders == s.superSpreaders && m.deathBag == s.deathBag)
      && (n != 1 ==>
            && |m.superSpreaders.elems| <= |s.superSpreaders.elems| + Slack(s.superSpreaders, Capacity(cfg.superSpreaderPerc, n))
            && |m.deathBag.elems| <= |s.deathBag.elems| + Slack(s.deathBag, Capacity(cfg.deathPerc, n)))
      && m.superSpreaders.elems <= s.superSpreaders.elems + s.infected
      && m.deathBag.elems <= s.deathBag.elems + s.infected
      && Anchored(m.superSpreaders, s.superSpreaders)
      && Anchored(m.deathBag, s.deathBag)
  {
    var n := |s.infected|;
    var m := SelectionPhase(cfg, s, time, order);
    if n != 1 {
      var s0 := SelectionStart(cfg, s);
      var sel := SelectAll(cfg.cmp, s.deaths, s0, order);
      assert m.superSpreaders == sel.ss && m.deathBag == sel.dead by {
        assert m == Selected(s, time, sel).(recovered := Selected(s, time, sel).recovered - Selected(s, time, sel).deaths);
      }
      SelectAllBags(cfg.cmp, s.deaths, s0, order);
    } else {
      assert m == s.(recovered := s.recovered - s.deaths);
    }
  }

  /** The selection phase on the bests and the discovering iterations. */
  lemma SelectionPhaseBests(cfg: Config, s: State, time: int, order: seq<Individual>)
    requires IsEnumeration(order, s.infected)
    ensures var m := SelectionPhase(cfg, s, time, order);
      var n := |s.infected|;
      && (n == 1 ==> m.localBest == s.localBest && m.globalBest == s.globalBest && m.discovering == s.discovering)
      && (n != 1 ==> m.discovering == s.discovering[m.localBest := time + 1])
      && (m.globalBest == s.globalBest || m.globalBest in s.infected)
      && (m.localBest == s.localBest || m.localBest in s.infected)
  {
    if |s.infected| != 1 {
      SelectAllBestsFrom(cfg.cmp, s.deaths, SelectionStart(cfg, s), order);
    }
  }

  /** What the spreading phase does, field by field. */
  lemma SpreadingPhaseSpec(cfg: Config, m: State, time: int, order: seq<Individual>, plans: Individual -> Plan)
    requires forall k :: 0 <= k < |order| ==> PlanFits(cfg, plans(order[k]))
    ensures var r := SpreadingPhase(cfg, m, time, order, plans);
      && r.(infected := m.infected, recovered := m.recovered, isolated := m.isolated) == m
      && SpreadEffect(m.deaths, Outbreak({}, m.recovered, m.isolated), Outbreak(r.infected, r.recovered, r.isolated),
                      Descendants(cfg, m.superSpreaders.elems, plans, order), !(time < cfg.socialDistancing))
  {
    SpreadAllSpec(cfg, m.deaths, m.superSpreaders.elems, plans, Outbreak({}, m.recovered, m.isolated),
                  order, !(time < cfg.socialDistancing));
  }

  /**
   * The shared sets across one step: `deaths` grows by the strain's death bag
   * and nothing else, `isolated` only grows (not at all before the
   * social-distancing onset) and only by individuals neither dead nor
   * recovered, and on return `recovered` and `deaths` are disjoint.
   */
  lemma PropagateSharedSets(cfg: Config, s: State, time: int, order: seq<Individual>, plans: Individual -> Plan)
    requires IsEnumeration(order, s.infected)
    requires forall x :: x in s.infected ==> PlanFits(cfg, plans(x))
    ensures var r := Propagate(cfg, s, time, order, plans);
      && r.deaths == (if |s.infected| != 1 then s.deaths + r.deathBag.elems else s.deaths)
      && s.isolated <= r.isolated
      && (time < cfg.socialDistancing ==> r.isolated == s.isolated)
      && (r.isolated - s.isolated) !! r.deaths
      && (r.isolated - s.isolated) !! r.recovered
      && r.recovered !! r.deaths
      && r.recovered <= s.recovered + s.infected
  {
    OrderFits(cfg, s, order, plans);
    var m := SelectionPhase(cfg, s, time, order);
    SelectionPhaseSets(cfg, s, time, order);
    SpreadingPhaseSpec(cfg, m, time, order, plans);
  }

  /**
   * The new population: only individuals created in this step, none dead or
   * recovered; before the social-distancing onset every created individual
   * that was neither dead nor recovered when spreading began is admitted.
   */
  lemma PropagateNextGeneration(cfg: Config, s: State, time: int, order: seq<Individual>, plans: Individual -> Plan)
    requires IsEnumeration(order, s.infected)
    requires forall x :: x in s.infected ==> PlanFits(cfg, plans(x))
    ensures var m := SelectionPhase(cfg, s, time, order);
      var r := Propagate(cfg, s, time, order, plans);
      var born := Descendants(cfg, m.superSpreaders.elems, plans, order);
      && r.infected <= born
      && r.infected !! r.deaths
      && r.infected !! r.recovered
      && (time < cfg.socialDistancing ==> born - m.deaths - m.recovered <= r.infected)
  {
    OrderFits(cfg, s, order, plans);
    var m := SelectionPhase(cfg, s, time, order);
    SelectionPhaseSets(cfg, s, time, order);
    SpreadingPhaseSpec(cfg, m, time, order, plans);
  }

  /**
   * The selection part of one step: with a population of one nothing is
   * selected and no best changes; otherwise the bags take members only from
   * the population and grow within their capacity, the bests come from the
   * population, and the strain best's discovering iteration is set to time + 1.
   */
  lemma PropagateSelection(cfg: Config, s: State, time: int, order: seq<Individual>, plans: Individual -> Plan)
    requires IsEnumeration(order, s.infected)
    requires forall x :: x in s.infected ==> PlanFits(cfg, plans(x))
    ensures var r := Propagate(cfg, s, time, order, plans);
      var n := |s.infected|;
      && (n == 1 ==>
            && r.superSpreaders == s.superSpreaders && r.deathBag == s.deathBag
            && r.localBest == s.localBest && r.globalBest == s.globalBest
            && r.discovering == s.discovering)
      && (n != 1 ==>
            && r.discovering == s.discovering[r.localBest := time + 1]
            && |r.superSpreaders.elems| <= |s.superSpreaders.elems| + Slack(s.superSpreaders, Capacity(cfg.superSpreaderPerc, n))
            && |r.deathBag.elems| <= |s.deathBag.elems| + Slack(s.deathBag, Capacity(cfg.deathPerc, n)))
      && r.superSpreaders.elems <= s.superSpreaders.elems + s.infected
      && r.deathBag.elems <= s.deathBag.elems + s.infected
      && Anchored(r.superSpreaders, s.superSpreaders)
      && Anchored(r.deathBag, s.deathBag)
      && (r.globalBest == s.globalBest || r.globalBest in s.infected)
      && (r.localBest == s.localBest || r.localBest in s.infected)
  {
    OrderFits(cfg, s, order, plans);
    var m := SelectionPhase(cfg, s, time, order);
    SelectionPhaseBags(cfg, s, time, order);
    SelectionPhaseBests(cfg, s, time, order);
    SpreadingPhaseSpec(cfg, m, time, order, plans);
  }

  /**
   * When Improves is a strict order, after one step no individual of the old
   * population and neither old best improves on the global or strain best.
   */
  lemma PropagateBestsUnbeaten(cfg: Config, s: State, time: int, order: seq<Individual>, plans: Individual -> Plan)
    requires StrictImprovement(cfg.cmp)
    requires IsEnumeration(order, s.infected)
    requires forall x :: x in s.infected ==> PlanFits(cfg, plans(x))
    ensures var r := Propagate(cfg, s, time, order, plans);
      && !Improves(cfg.cmp, r.globalBest, s.globalBest)
      && !Improves(cfg.cmp, r.localBest, s.localBest)
      && (|s.infected| != 1 ==>
            forall y :: y in s.infected ==> !Improves(cfg.cmp, r.globalBest, y) && !Improves(cfg.cmp, r.localBest, y))
  {
    OrderFits(cfg, s, order, plans);
    var n := |s.infected|;
    var m := SelectionPhase(cfg, s, time, order);
    SpreadingPhaseSpec(cfg, m, time, order, plans);
    if n != 1 {
      SelectAllBestsUnbeaten(cfg.cmp, s.deaths, SelectionStart(cfg, s), order);
    }
  }

  // ---------------------------------------------------------------------
  // The whole run
  // ---------------------------------------------------------------------

  /** The draws of iteration t as a function of the individual. */
  function PlansAt(plans: (int, Individual) -> Plan, t: int): (f: Individual -> Plan)
    ensures forall x :: f(x) == plans(t, x)
  {
    x => plans(t, x)
  }

  /** Every iteration order lists the population it is given exactly once. */
  ghost predicate Enumerates(orders: (int, set<Individual>) -> seq<Individual>)
  {
    forall t, xs :: IsEnumeration(orders(t, xs), xs)
  }

  /** The order of population xs in iteration t is an enumeration of xs. */
  lemma EnumeratesAt(orders: (int, set<Individual>) -> seq<Individual>, t: int, xs: set<Individual>)
    requires Enumerates(orders)
    ensures IsEnumeration(orders(t, xs), xs)
  {
  }

  /** Every plan fits the configuration. */
  ghost predicate AllFit(cfg: Config, plans: (int, Individual) -> Plan)
  {
    forall t, x :: PlanFits(cfg, plans(t, x))
  }

  /**
   * One iteration of run's loop at time t: propagate, then, when the strain
   * best is optimal, set its discovering iteration to t.
   */
  function Step(cfg: Config, optimal: Individual -> bool, s: State, t: int,
                orders: (int, set<Individual>) -> seq<Individual>, plans: (int, Individual) -> Plan): State
    requires Enumerates(orders) && AllFit(cfg, plans)
  {
    EnumeratesAt(orders, t, s.infected);
    var p := Propagate(cfg, s, t, orders(t, s.infected), PlansAt(plans, t));
    if optimal(p.localBest) then p.(discovering := p.discovering[p.localBest := t]) else p
  }

  /**
   * An iteration of run's loop changes the state as propagateDisease does,
   * except that an optimal strain best has its discovering iteration set to
   * the current iteration.
   */
  lemma StepStamp(cfg: Config, optimal: Individual -> bool, s: State, t: int,
                  orders: (int, set<Individual>) -> seq<Individual>, plans: (int, Individual) -> Plan)
    requires Enumerates(orders) && AllFit(cfg, plans)
    ensures var r := Step(cfg, optimal, s, t, orders, plans);
      var p := Propagate(cfg, s, t, orders(t, s.infected), PlansAt(plans, t));
      && r.(discovering := p.discovering) == p
      && (optimal(r.localBest) ==> r.discovering == p.discovering[r.localBest := t])
      && (!optimal(r.localBest) ==> r.discovering == p.discovering)
  {
    EnumeratesAt(orders, t, s.infected);
  }

  /** Step with the configuration, the optimality test and the draws fixed. */
  function Stepper(cfg: Config, optimal: Individual -> bool,
                   orders: (int, set<Individual>) -> seq<Individual>, plans: (int, Individual) -> Plan)
    : (step: (State, int) -> State)
    requires Enumerates(orders) && AllFit(cfg, plans)
  {
    (s, t) => Step(cfg, optimal, s, t, orders, plans)
  }

  /** step takes a Step, whatever the state and iteration. */
  ghost predicate Steps(step: (State, int) -> State, cfg: Config, optimal: Individual -> bool,
                        orders: (int, set<Individual>) -> seq<Individual>, plans: (int, Individual) -> Plan)
    requires Enumerates(orders) && AllFit(cfg, plans)
  {
    forall s, t {:trigger Step(cfg, optimal, s, t, orders, plans)} :: step(s, t) == Step(cfg, optimal, s, t, orders, plans)
  }

  /** Stepper takes a Step. */
  lemma StepperSteps(cfg: Config, optimal: Individual -> bool,
                     orders: (int, set<Individual>) -> seq<Individual>, plans: (int, Individual) -> Plan)
    requires Enumerates(orders) && AllFit(cfg, plans)
    ensures Steps(Stepper(cfg, optimal, orders, plans), cfg, optimal, orders, plans)
  {
  }

  /** The state and iteration counter run's loop ends with. */
  datatype Outcome = Outcome(state: State, time: int)

  /**
   * run's loop from iteration t on: while t is below maxTime, take a step;
   * stop after the first step that leaves nobody infected.
   */
  function Epidemic(step: (State, int) -> State, s: State, t: int, maxTime: int): Outcome
    decreases maxTime - t
  {
    if maxTime <= t then Outcome(s, t)
    else
      var r := step(s, t);
      if r.infected == {} then Outcome(r, t + 1)
      else Epidemic(step, r, t + 1, maxTime)
  }

  /** One more iteration of run's loop, unfolded. */
  lemma EpidemicStep(step: (State, int) -> State, s: State, t: int, maxTime: int)
    requires t < maxTime
    ensures var r := step(s, t);
      Epidemic(step, s, t, maxTime)
      == if r.infected == {} then Outcome(r, t + 1) else Epidemic(step, r, t + 1, maxTime)
  {
  }

  /** The state run's loop starts from: patient zero is infected, the strain best and a super-spreader. */
  function Outset(s: State, pz: Individual, worst: Individual, bestDead: Individual): State
  {
    s.(infected := s.infected + {pz}, localBest := pz,
       superSpreaders := BagState(s.superSpreaders.elems + {pz}, worst),
       deathBag := s.deathBag.(border := bestDead))
  }

  /** From s to r the shared deaths and isolated sets grow, and r's recovered and deaths are disjoint. */
  ghost predicate Grows(s: State, r: State)
  {
    s.deaths <= r.deaths && s.isolated <= r.isolated && r.recovered !! r.deaths
  }

  /** One iteration grows the shared deaths and isolated sets and leaves recovered and deaths disjoint. */
  lemma StepSharedSets(cfg: Config, optimal: Individual -> bool, s: State, t: int,
                       orders: (int, set<Individual>) -> seq<Individual>, plans: (int, Individual) -> Plan)
    requires Enumerates(orders) && AllFit(cfg, plans)
    ensures Grows(s, Step(cfg, optimal, s, t, orders, plans))
  {
    EnumeratesAt(orders, t, s.infected);
    PropagateSharedSets(cfg, s, t, orders(t, s.infected), PlansAt(plans, t));
  }

  /** Every step of run's loop grows the shared sets, whatever the state and iteration. */
  lemma StepsGrow(step: (State, int) -> State, cfg: Config, optimal: Individual -> bool,
                  orders: (int, set<Individual>) -> seq<Individual>, plans: (int, Individual) -> Plan)
    requires Enumerates(orders) && AllFit(cfg, plans)
    requires Steps(step, cfg, optimal, orders, plans)
    ensures forall s, t :: Grows(s, step(s, t))
  {
    forall s, t ensures Grows(s, step(s, t)) {
      StepSharedSets(cfg, optimal, s, t, orders, plans);
    }
  }

  /**
   * run's loop ends within maxTime and only early when nobody is infected;
   * it does not change the state when no iteration is left; when every step
   * grows the shared deaths and isolated sets, so does the loop, and after
   * at least one iteration recovered and deaths are disjoint.
   */
  lemma {:induction false} EpidemicSpec(step: (State, int) -> State, s: State, t: int, maxTime: int)
    decreases maxTime - t
    ensures var o := Epidemic(step, s, t, maxTime);
      && (maxTime <= t ==> o == Outcome(s, t))
      && (t < maxTime ==> t < o.time <= maxTime)
      && (o.time < maxTime ==> o.state.infected == {})
      && ((forall u, k :: Grows(u, step(u, k))) ==>
            s.deaths <= o.state.deaths && s.isolated <= o.state.isolated
            && (t < maxTime ==> o.state.recovered !! o.state.deaths))
  {
    if t < maxTime {
      var r := step(s, t);
      EpidemicStep(step, s, t, maxTime);
      if r.infected != {} {
        EpidemicSpec(step, r, t + 1, maxTime);
      }
    }
  }
}
