/**
 * The CVOA strain (class CVOA of package core) and the static state that all
 * strains share. Every random draw of the source is an input: the patient-zero
 * genes, the iteration order of the infected set, and one Plan per infecting
 * individual and iteration.
 */
module Core {
  import opened Individuals
  import opened Bag
  import opened Mutation
  import opened Propagation

  /**
   * The static shared state of CVOA: the global best and the recovered,
   * deaths and isolated sets. `isOptimal` stands for the fitness function
   * given to initializePandemic, read through `getFitness() == 0.0`.
   */
  class Pandemic {
    var bestSolution: Individual
    var recovered: set<Individual>
    var deaths: set<Individual>
    var isolated: set<Individual>
    var isOptimal: Individual -> bool

    /**
     * The static fields as the first call of initializePandemic sets them;
     * before that call the Java fields are null and nothing reads them.
     */
    constructor (best: Individual, fitness: Individual -> bool)
      ensures bestSolution == best && isOptimal == fitness
      ensures recovered == {} && deaths == {} && isolated == {}
    {
      bestSolution := best;
      isOptimal := fitness;
      recovered, deaths, isolated := {}, {}, {};
    }

    /** initializePandemic: the shared best is `best` and the three shared sets are new and empty. */
    method InitializePandemic(best: Individual, fitness: Individual -> bool)
      modifies this
      ensures bestSolution == best && isOptimal == fitness
      ensures recovered == {} && deaths == {} && isolated == {}
    {
      bestSolution := best;
      isOptimal := fitness;
      deaths := {};
      recovered := {};
      isolated := {};
    }
  }

  /** One strain of the search. */
  class CVOA {
    // common experiment properties
    const size: nat
    const pandemic: Pandemic
    const ops: Ops

    // inputs of the strain
    const maxTime: int
    const strainId: string

    // epidemic parameters
    const maxSpread: int
    const minSuperSpread: int
    const maxSuperSpread: int
    const socialDistancing: int
    const pIsolation: real
    const pTravel: real
    const pReinfection: real
    const superSpreaderPerc: real
    const deathPerc: real

    // auxiliary state
    var time: int
    const stoppingIteration: int := -1
    var infectedStrain: set<Individual>
    var deathStrain: set<Individual>
    var superSpreaderStrain: set<Individual>
    var bestSolutionStrain: Individual
    var bestDeadIndividualStrain: Individual
    var worstSuperSpreaderIndividualStrain: Individual
    /** The discovering iteration last set on each individual by setDiscoveringIteration. */
    var discovering: map<Individual, int>

    /**
     * The full constructor. `minSpread` and `seed` are accepted and not used:
     * the minimum spread is never stored and the random generator is an input.
     */
    constructor (size: nat, maxTime: int, id: string, seed: int, minSpread: int, maxSpread: int,
                 minSuperSpread: int, maxSuperSpread: int, pTravel: real, pInfection: real,
                 superSpreaderPerc: real, deathPerc: real, pIsolation: real, socialDistancing: int,
                 pandemic: Pandemic, ops: Ops)
      ensures this.size == size && this.maxTime == maxTime && strainId == id
      ensures this.pandemic == pandemic && this.ops == ops
      ensures this.maxSpread == maxSpread && this.minSuperSpread == minSuperSpread
      ensures this.maxSuperSpread == maxSuperSpread && this.socialDistancing == socialDistancing
      ensures this.pTravel == pTravel && pReinfection == pInfection && this.pIsolation == pIsolation
      ensures this.superSpreaderPerc == superSpreaderPerc && this.deathPerc == deathPerc
      ensures infectedStrain == {} && superSpreaderStrain == {} && deathStrain == {}
      ensures time == 0 && discovering == map[]
    {
      this.size := size;
      this.maxTime := maxTime;
      strainId := id;
      this.pandemic := pandemic;
      this.ops := ops;
      this.maxSpread := maxSpread;
      this.minSuperSpread := minSuperSpread;
      this.maxSuperSpread := maxSuperSpread;
      this.pTravel := pTravel;
      pReinfection := pInfection;
      this.superSpreaderPerc := superSpreaderPerc;
      this.deathPerc := deathPerc;
      this.pIsolation := pIsolation;
      this.socialDistancing := socialDistancing;
      time := 0;
      infectedStrain, superSpreaderStrain, deathStrain := {}, {}, {};
      bestSolutionStrain := Individual([]);
      bestDeadIndividualStrain := Individual([]);
      worstSuperSpreaderIndividualStrain := Individual([]);
      discovering := map[];
    }

    /** The short constructor: the epidemic parameters keep their declared defaults. */
    constructor WithDefaults(size: nat, maxTime: int, id: string, seed: int, pandemic: Pandemic, ops: Ops)
      ensures this.size == size && this.maxTime == maxTime && strainId == id
      ensures this.pandemic == pandemic && this.ops == ops
      ensures maxSpread == 5 && minSuperSpread == 6 && maxSuperSpread == 15 && socialDistancing == 10
      ensures pIsolation == 0.7 && pTravel == 0.1 && pReinfection == 0.001
      ensures superSpreaderPerc == 0.1 && deathPerc == 0.15
      ensures infectedStrain == {} && superSpreaderStrain == {} && deathStrain == {}
      ensures time == 0 && discovering == map[]
    {
      this.size := size;
      this.maxTime := maxTime;
      strainId := id;
      this.pandemic := pandemic;
      this.ops := ops;
      maxSpread := 5;
      minSuperSpread := 6;
      maxSuperSpread := 15;
      socialDistancing := 10;
      pIsolation := 0.7;
      pTravel := 0.1;
      pReinfection := 0.001;
      superSpreaderPerc := 0.1;
      deathPerc := 0.15;
      time := 0;
      infectedStrain, superSpreaderStrain, deathStrain := {}, {}, {};
      bestSolutionStrain := Individual([]);
      bestDeadIndividualStrain := Individual([]);
      worstSuperSpreaderIndividualStrain := Individual([]);
      discovering := map[];
    }

    /** The parameters propagateDisease reads. */
    function Cfg(): Config
    {
      Config(size, minSuperSpread, socialDistancing, superSpreaderPerc, deathPerc, ops.compareTo)
    }

    /** The bag of type t together with its border field. */
    function BagOf(t: BagType): BagState
      reads this
    {
      if t == SuperSpreader then BagState(superSpreaderStrain, worstSuperSpreaderIndividualStrain)
      else BagState(deathStrain, bestDeadIndividualStrain)
    }

    /** The strain and shared state as one value. */
    ghost function Snapshot(): State
      reads this, pandemic
    {
      State(infectedStrain, BagOf(SuperSpreader), BagOf(Death), bestSolutionStrain, discovering,
            pandemic.bestSolution, pandemic.recovered, pandemic.deaths, pandemic.isolated)
    }

    /** getLastIteration: the stopping iteration is never assigned after its initialiser. */
    function GetLastIteration(): (r: int)
      ensures r == -1
    {
      stoppingIteration
    }

    /** The direction value and the border of a bag type. */
    function GetCompareToValueAndElement(t: BagType): (r: (int, Individual))
      reads this
      ensures r == (Direction(t), BagOf(t).border)
      ensures t == SuperSpreader ==> r == (1, worstSuperSpreaderIndividualStrain)
      ensures t == Death ==> r == (-1, bestDeadIndividualStrain)
    {
      if t == SuperSpreader then (1, worstSuperSpreaderIndividualStrain)
      else (-1, bestDeadIndividualStrain)
    }

    /** updateBorder: the border of bag type t becomes toUpdate. */
    method UpdateBorder(toUpdate: Individual, t: BagType)
      modifies this`worstSuperSpreaderIndividualStrain, this`bestDeadIndividualStrain
      ensures BagOf(t) == old(BagOf(t)).(border := toUpdate)
      ensures BagOf(Other(t)) == old(BagOf(Other(t)))
    {
      if t == SuperSpreader {
        worstSuperSpreaderIndividualStrain := toUpdate;
      } else {
        bestDeadIndividualStrain := toUpdate;
      }
    }

    /** Set.add on the bag of type t: whether x was new. */
    method BagAdd(t: BagType, x: Individual) returns (added: bool)
      modifies this`superSpreaderStrain, this`deathStrain
      ensures added == (x !in old(BagOf(t).elems))
      ensures BagOf(t) == old(BagOf(t)).(elems := old(BagOf(t).elems) + {x})
      ensures BagOf(Other(t)) == old(BagOf(Other(t)))
    {
      if t == SuperSpreader {
        added := x !in superSpreaderStrain;
        superSpreaderStrain := superSpreaderStrain + {x};
      } else {
        added := x !in deathStrain;
        deathStrain := deathStrain + {x};
      }
    }

    /** Set.remove on the bag of type t. */
    method BagRemove(t: BagType, x: Individual)
      modifies this`superSpreaderStrain, this`deathStrain
      ensures BagOf(t) == old(BagOf(t)).(elems := old(BagOf(t).elems) - {x})
      ensures BagOf(Other(t)) == old(BagOf(Other(t)))
    {
      if t == SuperSpreader {
        superSpreaderStrain := superSpreaderStrain - {x};
      } else {
        deathStrain := deathStrain - {x};
      }
    }

    /**
     * insertIntoSetStrain: the bag of type t and its border change as Insert
     * says; the other bag and its border do not change.
     */
    method InsertIntoSetStrain(t: BagType, toInsert: Individual, remaining: int) returns (r: bool)
      modifies this`superSpreaderStrain, this`deathStrain
      modifies this`worstSuperSpreaderIndividualStrain, this`bestDeadIndividualStrain
      ensures var ins := Insert(ops.compareTo, old(BagOf(t)), Direction(t), toInsert, remaining);
              r == ins.added && BagOf(t) == ins.bag
      ensures BagOf(Other(t)) == old(BagOf(Other(t)))
    {
      r := false;
      var aux := GetCompareToValueAndElement(t);
      var compareToValue := aux.0;
      var border := aux.1;

      if remaining > 0 {
        r := BagAdd(t, toInsert);
        if ops.compareTo(toInsert, border) == compareToValue {
          UpdateBorder(toInsert, t);
        }
      } else {
        if ops.compareTo(toInsert, border) == compareToValue {
          BagRemove(t, border);
          r := BagAdd(t, toInsert);
          UpdateBorder(toInsert, t);
        }
      }
    }

    /**
     * updateRecoverdDeathStrain: the death-bag insertion; an individual that
     * does not go into the death bag is recovered unless it is shared-dead.
     */
    method UpdateRecoverdDeathStrain(toInsert: Individual, remaining: int) returns (dead: bool)
      modifies this`superSpreaderStrain, this`deathStrain
      modifies this`worstSuperSpreaderIndividualStrain, this`bestDeadIndividualStrain
      modifies pandemic`recovered
      ensures var ins := Insert(ops.compareTo, old(BagOf(Death)), Direction(Death), toInsert, remaining);
              dead == ins.added && BagOf(Death) == ins.bag
      ensures BagOf(SuperSpreader) == old(BagOf(SuperSpreader))
      ensures pandemic.recovered ==
                if !dead && toInsert !in pandemic.deaths then old(pandemic.recovered) + {toInsert}
                else old(pandemic.recovered)
    {
      dead := InsertIntoSetStrain(Death, toInsert, remaining);
      if !dead {
        if toInsert !in pandemic.deaths {
          pandemic.recovered := pandemic.recovered + {toInsert};
        }
      }
    }

    /**
     * infectPZ: patient zero's genes are the size coin draws `rnd.nextInt(2)`.
     */
    method InfectPZ(coins: seq<int>) returns (pz: Individual)
      requires |coins| == size
      requires forall i :: 0 <= i < |coins| ==> coins[i] == 0 || coins[i] == 1
      ensures pz.data == coins
      ensures |pz.data| == size && IsBits(pz.data)
    {
      var data := new int[size];
      for i := 0 to size
        invariant forall k :: 0 <= k < i ==> data[k] == coins[k]
      {
        data[i] := coins[i];
      }
      assert data[..] == coins;
      pz := Individual(data[..]);
    }

    /**
     * infect: copy the genes to length size and flip, one by one, the first
     * travelDistance distinct positions of `draws` (the values of
     * `rnd.nextInt(size)`). On a 0/1 vector of length size exactly those
     * travelDistance positions change.
     */
    method Infect(individual: Individual, travelDistance: nat, draws: seq<int>) returns (z: Individual)
      requires forall k :: 0 <= k < |draws| ==> 0 <= draws[k] < size
      requires travelDistance <= |Dedup(draws)|
      ensures z == Offspring(size, individual, travelDistance, draws)
      ensures |z.data| == size
      ensures IsBits(individual.data) && |individual.data| == size ==>
                && IsBits(z.data)
                && Differences(z.data, individual.data) == Elems(Chosen(draws, travelDistance))
                && |Differences(z.data, individual.data)| == travelDistance
    {
      ghost var copy := CopyOf(individual.data, size);
      var mutated: seq<int> := [];
      var res := new int[size](q requires 0 <= q < size => if q < |individual.data| then individual.data[q] else 0);
      var i, k := 0, 0;
      assert draws[..|draws|] == draws;

      while i < travelDistance
        invariant 0 <= k <= |draws|
        invariant mutated == Dedup(draws[..k]) && i == |mutated| && i <= travelDistance
        invariant forall q :: 0 <= q < size ==> res[q] == (if q in mutated then Flip(copy[q]) else copy[q])
        decreases |draws| - k
      {
        var pos := draws[k];
        assert draws[..k + 1] == draws[..k] + [pos];
        k := k + 1;
        if pos !in mutated {
          res[pos] := if res[pos] == 0 then 1 else 0;
          mutated := mutated + [pos];
          i := i + 1;
        }
      }

      DedupPrefix(draws, k);
      assert mutated == Chosen(draws, travelDistance);
      assert res[..] == Mutate(copy, mutated);
      z := Individual(res[..]);
      if IsBits(individual.data) && |individual.data| == size {
        assert copy == individual.data;
        InfectFlipsExactly(copy, draws, travelDistance);
      }
    }

    /** The selection pass's running values as one Selection. */
    ghost function Running(ssLeft: int, deadLeft: int): Selection
      reads this, pandemic
    {
      Selection(BagOf(SuperSpreader), ssLeft, BagOf(Death), deadLeft,
                pandemic.recovered, pandemic.bestSolution, bestSolutionStrain)
    }

    /**
     * One pass of the selection loop of propagateDisease on `individual`:
     * the super-spreader insertion, the death/recovered routing and the two
     * best updates, as SelectOne says.
     */
    method SelectIndividual(individual: Individual, ssLeft: int, deadLeft: int)
      returns (ssLeft': int, deadLeft': int)
      modifies this`superSpreaderStrain, this`deathStrain
      modifies this`worstSuperSpreaderIndividualStrain, this`bestDeadIndividualStrain
      modifies this`bestSolutionStrain, pandemic`bestSolution, pandemic`recovered
      ensures Running(ssLeft', deadLeft') == SelectOne(ops.compareTo, pandemic.deaths, old(Running(ssLeft, deadLeft)), individual)
    {
      ssLeft', deadLeft' := ssLeft, deadLeft;
      var inserted := InsertIntoSetStrain(SuperSpreader, individual, ssLeft');
      if inserted {
        ssLeft' := ssLeft' - 1;
      }
      var dead := UpdateRecoverdDeathStrain(individual, deadLeft');
      if dead {
        deadLeft' := deadLeft' - 1;
      }
      if ops.compareTo(pandemic.bestSolution, individual) == 1 {
        pandemic.bestSolution := individual;
      }
      if ops.compareTo(bestSolutionStrain, individual) == 1 {
        bestSolutionStrain := individual;
      }
    }

    /** The selection loop of propagateDisease over `order`, as SelectAll says. */
    method SelectEach(order: seq<Individual>, ssLeft: int, deadLeft: int) returns (ssLeft': int, deadLeft': int)
      modifies this`superSpreaderStrain, this`deathStrain
      modifies this`worstSuperSpreaderIndividualStrain, this`bestDeadIndividualStrain
      modifies this`bestSolutionStrain, pandemic`bestSolution, pandemic`recovered
      ensures Running(ssLeft', deadLeft') == SelectAll(ops.compareTo, pandemic.deaths, old(Running(ssLeft, deadLeft)), order)
    {
      ghost var start := Running(ssLeft, deadLeft);
      ssLeft', deadLeft' := ssLeft, deadLeft;
      for i := 0 to |order|
        invariant Running(ssLeft', deadLeft') == SelectAll(ops.compareTo, pandemic.deaths, start, order[..i])
      {
        assert order[..i + 1][..i] == order[..i];
        ssLeft', deadLeft' := SelectIndividual(order[i], ssLeft', deadLeft');
      }
      assert order[..|order|] == order;
    }

    /**
     * The selection branch of propagateDisease for a population other than
     * one: the capacities are the ceilings of the percentages of the
     * population, every infected individual is selected, the death bag joins
     * the shared deaths and the strain best is stamped with time + 1.
     */
    method SelectAndBury(order: seq<Individual>)
      modifies this`superSpreaderStrain, this`deathStrain
      modifies this`worstSuperSpreaderIndividualStrain, this`bestDeadIndividualStrain
      modifies this`bestSolutionStrain, this`discovering
      modifies pandemic`bestSolution, pandemic`recovered, pandemic`deaths
      ensures Snapshot() == Selected(old(Snapshot()), time,
                                     SelectAll(ops.compareTo, old(pandemic.deaths), SelectionStart(Cfg(), old(Snapshot())), order))
    {
      ghost var s0 := Snapshot();
      var infectedStrainSize := |infectedStrain|;
      var numberOfSuperSpreaders := Capacity(superSpreaderPerc, infectedStrainSize);
      var numberOfDeaths := Capacity(deathPerc, infectedStrainSize);
      assert Running(numberOfSuperSpreaders, numberOfDeaths) == SelectionStart(Cfg(), s0);
      numberOfSuperSpreaders, numberOfDeaths := SelectEach(order, numberOfSuperSpreaders, numberOfDeaths);
      ghost var sel := Running(numberOfSuperSpreaders, numberOfDeaths);
      pandemic.deaths := pandemic.deaths + deathStrain;
      discovering := discovering[bestSolutionStrain := time + 1];
      assert Snapshot() == Selected(s0, time, sel);
    }

    /**
     * The first half of propagateDisease: unless the population is a single
     * individual, the selection branch runs; then the shared deaths leave
     * the recovered set.
     */
    method SelectionPass(order: seq<Individual>)
      modifies this`superSpreaderStrain, this`deathStrain
      modifies this`worstSuperSpreaderIndividualStrain, this`bestDeadIndividualStrain
      modifies this`bestSolutionStrain, this`discovering
      modifies pandemic`bestSolution, pandemic`recovered, pandemic`deaths
      ensures Snapshot() == SelectionPhase(Cfg(), old(Snapshot()), time, order)
    {
      var infectedStrainSize := |infectedStrain|;
      if infectedStrainSize != 1 {
        SelectAndBury(order);
      }
      pandemic.recovered := pandemic.recovered - pandemic.deaths;
    }

    /**
     * What propagateDisease does with one new infection z: before the social
     * distancing onset, or when z escapes isolation, z joins `next` unless it
     * is dead, and a recovered z only when reinfected (leaving the recovered
     * set); otherwise a new z is isolated. The result follows Admit.
     */
    method AdmitInfection(next: set<Individual>, z: Individual, d: Draw) returns (next': set<Individual>)
      modifies pandemic`recovered, pandemic`isolated
      ensures Outbreak(next', pandemic.recovered, pandemic.isolated)
              == Admit(pandemic.deaths, Outbreak(next, old(pandemic.recovered), old(pandemic.isolated)),
                       z, !(time < socialDistancing), d)
    {
      next' := next;
      if time < socialDistancing {
        if z !in pandemic.deaths && z !in pandemic.recovered {
          next' := next' + {z};
        } else if z in pandemic.recovered {
          if d.reinfected {
            next' := next' + {z};
            pandemic.recovered := pandemic.recovered - {z};
          }
        }
      } else {
        if d.escapesIsolation {
          if z !in pandemic.deaths && z !in pandemic.recovered {
            next' := next' + {z};
          } else if z in pandemic.recovered {
            if d.reinfected {
              next' := next' + {z};
              pandemic.recovered := pandemic.recovered - {z};
            }
          }
        } else {
          if z !in pandemic.deaths && z !in pandemic.recovered && z !in pandemic.isolated {
            pandemic.isolated := pandemic.isolated + {z};
          }
        }
      }
    }

    /** One iteration of the infection loop: infect with draw d, then admit the result. */
    method InfectAndAdmit(next: set<Individual>, x: Individual, travelDistance: nat, d: Draw)
      returns (next': set<Individual>)
      requires DrawFits(size, travelDistance, d)
      modifies pandemic`recovered, pandemic`isolated
      ensures Outbreak(next', pandemic.recovered, pandemic.isolated)
              == Admit(pandemic.deaths, Outbreak(next, old(pandemic.recovered), old(pandemic.isolated)),
                       Offspring(size, x, travelDistance, d.positions), !(time < socialDistancing), d)
    {
      var z := Infect(x, travelDistance, d.positions);
      next' := AdmitInfection(next, z, d);
    }

    /**
     * The infection loop of propagateDisease for one individual x: the draws
     * in turn, each infecting at travel distance td and admitted.
     */
    method AdmitEach(next: set<Individual>, x: Individual, td: nat, draws: seq<Draw>) returns (next': set<Individual>)
      requires forall k :: 0 <= k < |draws| ==> DrawFits(size, td, draws[k])
      modifies pandemic`recovered, pandemic`isolated
      ensures Outbreak(next', pandemic.recovered, pandemic.isolated)
              == AdmitAll(size, pandemic.deaths, Outbreak(next, old(pandemic.recovered), old(pandemic.isolated)),
                          x, td, draws, !(time < socialDistancing))
    {
      ghost var o0 := Outbreak(next, pandemic.recovered, pandemic.isolated);
      ghost var distancing := !(time < socialDistancing);
      ghost var deaths := pandemic.deaths;
      ghost var cur := o0;
      next' := next;
      for j := 0 to |draws|
        invariant pandemic.deaths == deaths
        invariant cur == AdmitAll(size, deaths, o0, x, td, draws[..j], distancing)
        invariant Outbreak(next', pandemic.recovered, pandemic.isolated) == cur
      {
        AdmitAllStep(size, deaths, o0, x, td, draws, j, distancing);
        next' := InfectAndAdmit(next', x, td, draws[j]);
        cur := Admit(deaths, cur, Offspring(size, x, td, draws[j].positions), distancing, draws[j]);
      }
      assert draws[..|draws|] == draws;
    }

    /**
     * The infections caused by one individual x with draws p: ninfected
     * (minSuperSpread more for a super-spreader) offspring at the travel
     * distance, each admitted in turn.
     */
    method SpreadFrom(next: set<Individual>, x: Individual, p: Plan) returns (next': set<Individual>)
      requires PlanFits(Cfg(), p)
      modifies pandemic`recovered, pandemic`isolated
      ensures Outbreak(next', pandemic.recovered, pandemic.isolated)
              == AdmitAll(size, pandemic.deaths, Outbreak(next, old(pandemic.recovered), old(pandemic.isolated)),
                          x, TravelDistance(p), Infections(Cfg(), superSpreaderStrain, x, p),
                          !(time < socialDistancing))
    {
      var ninfected := 0;
      if x in superSpreaderStrain {
        ninfected := minSuperSpread + p.spreadDraw;
      } else {
        ninfected := p.spreadDraw;
      }

      var travelDistance := 1;
      if p.travels {
        travelDistance := p.travelDraw;
      }
      var draws := p.offspring[..if ninfected < 0 then 0 else ninfected];
      assert draws == Infections(Cfg(), superSpreaderStrain, x, p);
      next' := AdmitEach(next, x, travelDistance, draws);
    }

    /** The second half of propagateDisease: the new infected population. */
    method SpreadingPass(order: seq<Individual>, plans: Individual -> Plan) returns (next: set<Individual>)
      requires forall k :: 0 <= k < |order| ==> PlanFits(Cfg(), plans(order[k]))
      modifies pandemic`recovered, pandemic`isolated
      ensures Outbreak(next, pandemic.recovered, pandemic.isolated)
              == SpreadAll(Cfg(), pandemic.deaths, superSpreaderStrain, plans,
                           Outbreak({}, old(pandemic.recovered), old(pandemic.isolated)),
                           order, !(time < socialDistancing))
    {
      ghost var o0 := Outbreak({}, pandemic.recovered, pandemic.isolated);
      next := {};
      for i := 0 to |order|
        invariant Outbreak(next, pandemic.recovered, pandemic.isolated)
                  == SpreadAll(Cfg(), pandemic.deaths, superSpreaderStrain, plans, o0, order[..i], !(time < socialDistancing))
      {
        assert order[..i + 1][..i] == order[..i];
        next := SpreadFrom(next, order[i], plans(order[i]));
      }
      assert order[..|order|] == order;
    }

    /**
     * propagateDisease, with `order` the iteration order of the infected set
     * and `plans` the draws of each infecting individual: the new state is
     * Propagate of the old one.
     */
    method PropagateDisease(order: seq<Individual>, plans: Individual -> Plan)
      requires IsEnumeration(order, infectedStrain)
      requires forall x :: x in infectedStrain ==> PlanFits(Cfg(), plans(x))
      modifies this`infectedStrain, this`superSpreaderStrain, this`deathStrain
      modifies this`worstSuperSpreaderIndividualStrain, this`bestDeadIndividualStrain
      modifies this`bestSolutionStrain, this`discovering
      modifies pandemic`bestSolution, pandemic`recovered, pandemic`deaths, pandemic`isolated
      ensures Snapshot() == Propagate(Cfg(), old(Snapshot()), time, order, plans)
    {
      ghost var s0 := Snapshot();
      OrderFits(Cfg(), s0, order, plans);
      SelectionPass(order);
      var newInfectedPopulation := SpreadingPass(order, plans);
      infectedStrain := newInfectedPopulation;
    }

    /**
     * The body of run's loop: propagate with this iteration's order and
     * draws, note whether the epidemic died out, set the discovering
     * iteration of an optimal strain best to the current iteration, and
     * advance time. `step` is any function that takes a Step.
     */
    method Iteration(orders: (int, set<Individual>) -> seq<Individual>, plans: (int, Individual) -> Plan,
                     ghost step: (State, int) -> State)
      returns (extinct: bool)
      requires Enumerates(orders) && AllFit(Cfg(), plans)
      requires Steps(step, Cfg(), pandemic.isOptimal, orders, plans)
      modifies this`infectedStrain, this`superSpreaderStrain, this`deathStrain
      modifies this`worstSuperSpreaderIndividualStrain, this`bestDeadIndividualStrain
      modifies this`bestSolutionStrain, this`discovering, this`time
      modifies pandemic`bestSolution, pandemic`recovered, pandemic`deaths, pandemic`isolated
      ensures Snapshot() == step(old(Snapshot()), old(time))
      ensures time == old(time) + 1
      ensures extinct == (infectedStrain == {})
    {
      ghost var before := Snapshot();
      var order := orders(time, infectedStrain);
      EnumeratesAt(orders, time, infectedStrain);
      PropagateDisease(order, PlansAt(plans, time));
      extinct := infectedStrain == {};
      if pandemic.isOptimal(bestSolutionStrain) {
        discovering := discovering[bestSolutionStrain := time];
      }
      ghost var after := Snapshot();
      assert after == Step(Cfg(), pandemic.isOptimal, before, time, orders, plans);
      time := time + 1;
      assert Snapshot() == after;
    }

    /**
     * Step 1 and 2 of run: patient zero from `coins` is infected, the strain
     * best and a super-spreader; the borders are the two extreme individuals.
     */
    method StartOutbreak(coins: seq<int>) returns (pz: Individual)
      requires |coins| == size
      requires forall i :: 0 <= i < |coins| ==> coins[i] == 0 || coins[i] == 1
      modifies this`infectedStrain, this`superSpreaderStrain
      modifies this`worstSuperSpreaderIndividualStrain, this`bestDeadIndividualStrain, this`bestSolutionStrain
      ensures pz == Individual(coins)
      ensures Snapshot() == Outset(old(Snapshot()), pz, ops.extreme(true), ops.extreme(false))
    {
      pz := InfectPZ(coins);
      infectedStrain := infectedStrain + {pz};
      bestSolutionStrain := pz;
      superSpreaderStrain := superSpreaderStrain + {pz};
      worstSuperSpreaderIndividualStrain := ops.extreme(true);
      bestDeadIndividualStrain := ops.extreme(false);
    }

    /**
     * Step 3 of run: the main loop, from iteration 0 until the infected set
     * is empty or maxTime is reached, as Epidemic says of any `step` that
     * takes a Step; Run passes Stepper.
     */
    method MainLoop(orders: (int, set<Individual>) -> seq<Individual>, plans: (int, Individual) -> Plan,
                       ghost step: (State, int) -> State)
      requires Enumerates(orders) && AllFit(Cfg(), plans)
      requires Steps(step, Cfg(), pandemic.isOptimal, orders, plans)
      modifies this`infectedStrain, this`superSpreaderStrain, this`deathStrain
      modifies this`worstSuperSpreaderIndividualStrain, this`bestDeadIndividualStrain
      modifies this`bestSolutionStrain, this`discovering, this`time
      modifies pandemic`bestSolution, pandemic`recovered, pandemic`deaths, pandemic`isolated
      ensures Outcome(Snapshot(), time) == Epidemic(step, old(Snapshot()), 0, maxTime)
    {
      var epidemic := true;
      time := 0;
      ghost var optimal := pandemic.isOptimal;
      ghost var goal := Epidemic(step, Snapshot(), 0, maxTime);
      while epidemic && time < maxTime
        invariant 0 <= time
        invariant pandemic.isOptimal == optimal
        invariant epidemic ==> Epidemic(step, Snapshot(), time, maxTime) == goal
        invariant !epidemic ==> Outcome(Snapshot(), time) == goal
        decreases maxTime - time
      {
        ghost var before := Snapshot();
        EpidemicStep(step, before, time, maxTime);
        var extinct := Iteration(orders, plans, step);
        if extinct {
          epidemic := false;
        }
      }
    }

    /**
     * run: infect patient zero from `coins`, then propagate until the
     * infected set is empty or `time` reaches maxTime. `orders(t, s)` is the
     * iteration order of infected set s in iteration t and `plans(t, x)` are
     * the draws of individual x in iteration t. The final state and
     * iteration counter are those of Epidemic from the initialised state;
     * the result is the strain best.
     */
    method Run(coins: seq<int>, orders: (int, set<Individual>) -> seq<Individual>, plans: (int, Individual) -> Plan)
      returns (best: Individual)
      requires |coins| == size
      requires forall i :: 0 <= i < |coins| ==> coins[i] == 0 || coins[i] == 1
      requires Enumerates(orders) && AllFit(Cfg(), plans)
      modifies this`infectedStrain, this`superSpreaderStrain, this`deathStrain
      modifies this`worstSuperSpreaderIndividualStrain, this`bestDeadIndividualStrain
      modifies this`bestSolutionStrain, this`discovering, this`time
      modifies pandemic`bestSolution, pandemic`recovered, pandemic`deaths, pandemic`isolated
      ensures Outcome(Snapshot(), time)
              == Epidemic(Stepper(Cfg(), pandemic.isOptimal, orders, plans),
                          Outset(old(Snapshot()), Individual(coins), ops.extreme(true), ops.extreme(false)),
                          0, maxTime)
      ensures best == bestSolutionStrain
      ensures 0 <= time && (time <= maxTime || time == 0)
      ensures time < maxTime ==> infectedStrain == {}
      ensures maxTime <= 0 ==> best == Individual(coins) && infectedStrain == old(infectedStrain) + {best}
      ensures old(pandemic.deaths) <= pandemic.deaths && old(pandemic.isolated) <= pandemic.isolated
      ensures time > 0 ==> pandemic.recovered !! pandemic.deaths
    {
      var pz := StartOutbreak(coins);
      ghost var s0 := Snapshot();
      ghost var step := Stepper(Cfg(), pandemic.isOptimal, orders, plans);
      StepperSteps(Cfg(), pandemic.isOptimal, orders, plans);
      MainLoop(orders, plans, step);
      best := bestSolutionStrain;
      StepsGrow(step, Cfg(), pandemic.isOptimal, orders, plans);
      EpidemicSpec(step, s0, 0, maxTime);
    }
  }
}
