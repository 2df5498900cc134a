# CVOA — a Dafny model of the Coronavirus Optimization Algorithm strain

This project models one strain of the Coronavirus Optimization Algorithm
(class `core.CVOA`), a metaheuristic over fixed-length binary individuals.
A strain starts from a random patient zero. At every iteration it does two things:

- It picks super-spreaders and deaths from its infected population. Deaths are
  removed for good, and the other individuals become recovered.
- It replaces the population with infections, which are copies of the infectors
  with some bits flipped. Reinfection and, after a social-distancing onset,
  isolation are drawn at random.

The strain stops when nobody is left infected or when the iteration budget is used up.
All strains share a global best and three sets: recovered, deaths and isolated.

The model is in five modules:

- `Individuals` (individuals.dfy): the individual as a vector of genes, the
  `compareTo` comparator and the extreme individuals as function parameters
  (`Ops`), and "improves" as `compareTo(current, candidate) == 1`.
- `Mutation` (mutation.dfy): what `infect` computes. This is the copy to length
  `size` and the flip of the first `travel_distance` distinct drawn positions.
- `Bag` (bag.dfy): the bounded super-spreader and death bags and their borders,
  that is, the insertion rule of `insertIntoSetStrain` as a function.
- `Propagation` (propagation.dfy): one call of `propagateDisease` as a function
  on the strain state and the shared state (`Propagate`). It is built from a
  selection fold and a spreading fold, and comes with the lemmas about one step.
  It also defines `Step`, one iteration of `run`'s loop, and `Epidemic`, the
  whole loop as a recursion over a step function, with the lemmas about the loop.
- `Core` (cvoa.dfy): the classes. `Pandemic` holds the static shared fields and
  `CVOA` holds the strain fields. Their methods change those fields as the Java
  methods do, and they are proved against the functions above.

Every random draw is an input:

- the `rnd.nextInt(2)` coins of patient zero;
- the iteration order of the infected `HashSet`, as a function `orders(t, s)` of the iteration
  and the set, which lists the set exactly once;
- for each infector in each iteration, a `Plan` given as `plans(t, x)`: the spread draw, whether it
  travels, the travel distance, and for each offspring the drawn positions and
  the isolation and reinfection outcomes.

## Model

| member | source | states |
|---|---|---|
| Core.Pandemic.constructor | src/main/java/core/CVOA.java:98-104 | the shared state as the first call of initializePandemic leaves it: the given best and fitness, and empty deaths, recovered and isolated sets |
| Core.Pandemic.InitializePandemic | src/main/java/core/CVOA.java:98-104 | the shared best and fitness are the arguments; deaths, recovered and isolated are new empty sets |
| Core.CVOA.constructor | src/main/java/core/CVOA.java:64-96 | every parameter is stored except minSpread and the seed, which are ignored; the three strain sets start empty |
| Core.CVOA.WithDefaults | src/main/java/core/CVOA.java:41-49 | size, max_time and id are stored; the epidemic parameters keep the declared defaults (5, 6, 15, 10, 0.7, 0.1, 0.001, 0.1, 0.15); the strain sets start empty |
| Core.CVOA.GetLastIteration | src/main/java/core/CVOA.java:173-175 | always -1, because stoppingIteration is never reassigned |
| Core.CVOA.GetCompareToValueAndElement | src/main/java/core/CVOA.java:373-387 | 's' gives (1, worst super-spreader) and 'd' gives (-1, best dead); this is the bag's direction and its border |
| Core.CVOA.UpdateBorder | src/main/java/core/CVOA.java:389-398 | only the border of the given bag type becomes the argument; the other border is unchanged |
| Core.CVOA.InsertIntoSetStrain | src/main/java/core/CVOA.java:348-371 | the bag of the given type and its border change exactly as Bag.Insert says, and the result is Insert's "added"; the other bag and its border are untouched |
| Bag.Insert | src/main/java/core/CVOA.java:355-368 | with room left: add x, report whether it was new, and make x the border exactly when x beats it; when full: if x beats the border, evict the border, add x, make x the border and report whether x was new once the border was gone, otherwise nothing changes; the border moves only to a beating x; bag size plus remaining room never grows |
| Bag.Direction | src/main/java/core/CVOA.java:376-384 | 1 exactly for the super-spreader bag and -1 for the death bag |
| Core.CVOA.BagAdd | src/main/java/core/CVOA.java:356 | the bag of the given type gains x and nothing else, the result is true exactly when x was not in it (Set.add), and the other bag is unchanged |
| Core.CVOA.BagRemove | src/main/java/core/CVOA.java:364 | the bag of the given type loses x and nothing else (Set.remove), and the other bag is unchanged |
| Core.CVOA.UpdateRecoverdDeathStrain | src/main/java/core/CVOA.java:332-346 | death-bag insertion as Bag.Insert says; an individual not admitted to the death bag joins recovered exactly when it is not in the shared deaths |
| Core.CVOA.InfectPZ | src/main/java/core/CVOA.java:290-302 | patient zero's genes are exactly the size coin draws, a 0/1 vector of length size |
| Propagation.DrawFitsTravel | src/main/java/core/CVOA.java:310-317 | a draw that fits (positions in [0, size), at least td distinct ones) has td <= size |
| Propagation.PlanFitsTravel | src/main/java/core/CVOA.java:224-227 | a fitting plan with at least one offspring draw has a travel distance of at most size, the bound of nextInt(size + 1) |
| Propagation.InfectNoTravel | src/main/java/core/CVOA.java:305-320 | with a travel distance of 0 (a possible draw of nextInt(size + 1)) the loop does not run and the new individual is the parent's genes copied to length size, whatever positions were drawn |
| Core.CVOA.Infect | src/main/java/core/CVOA.java:305-320 | the result is the genes copied to length size with the first travel_distance distinct drawn positions flipped; on a 0/1 vector of length size exactly those travel_distance positions differ |
| Mutation.CopyOf | src/main/java/core/CVOA.java:307 | length n; the prefix of the data when n fits, zero padding otherwise; a 0/1 vector stays 0/1 |
| Mutation.InfectFlipsExactly | src/main/java/core/CVOA.java:305-320 | the positions where the mutated vector differs from a 0/1 vector are exactly the chosen distinct positions; there are td of them and the result is still 0/1 |
| Mutation.InfectWholeVector | src/main/java/core/CVOA.java:310-317 | a travel distance equal to size complements every bit |
| Mutation.DedupSpec | src/main/java/core/CVOA.java:311-315 | the positions recorded in `mutated` are distinct and are exactly the drawn values |
| Mutation.DedupPrefix | src/main/java/core/CVOA.java:310-317 | the positions recorded after k draws are a prefix of those recorded after all draws |
| Propagation.Ceil | src/main/java/core/CVOA.java:190-191 | the least integer not below r |
| Core.CVOA.SelectIndividual | src/main/java/core/CVOA.java:195-206 | one pass of the selection loop changes the bags, remaining counts, recovered set and both bests as SelectOne says |
| Propagation.SelectOne | src/main/java/core/CVOA.java:195-206 | each best is replaced by x exactly when compareTo(best, x) == 1; recovered grows by at most x, and only by an x that is not shared-dead |
| Core.CVOA.SelectEach | src/main/java/core/CVOA.java:193-207 | the whole selection loop over the iteration order equals SelectAll |
| Core.CVOA.SelectAndBury | src/main/java/core/CVOA.java:188-210 | for a population other than one: the capacities are the ceilings of the two percentages of the population size, the selection loop runs as SelectAll, the death bag joins the shared deaths, and the strain best is stamped with time + 1 |
| Propagation.SelectAllBags | src/main/java/core/CVOA.java:193-207 | the bags take members only from the population; each bag grows by at most its capacity (plus one while its border is not a member); borders stay anchored; recovered only grows, by non-dead members of the population |
| Propagation.SelectOneBag | src/main/java/core/CVOA.java:195-200 | one selection turn adds at most the individual to a bag, never increases bag size plus remaining room, and keeps the border anchored |
| Propagation.SelectAllBag | src/main/java/core/CVOA.java:193-200 | over the whole loop, a bag gains only members of the population, bag size plus remaining room never grows, and the border stays anchored |
| Propagation.SelectAllRecovered | src/main/java/core/CVOA.java:198-200 | over the whole loop, recovered only grows, and only by members of the population that are not shared-dead |
| Propagation.SelectAllChampions | src/main/java/core/CVOA.java:201-206 | each best after the loop is the result of the replace-when-compareTo-is-1 fold over the iteration order |
| Propagation.ChampionFrom | src/main/java/core/CVOA.java:201-206 | the result of that fold is the starting best or a member of the population |
| Propagation.ChampionUnbeaten | src/main/java/core/CVOA.java:201-206 | if improvement is a strict order, nothing in the population and not the starting best improves on the result of the fold |
| Propagation.SelectAllBestsFrom | src/main/java/core/CVOA.java:201-206 | each best after the loop is the old best or a member of the population |
| Propagation.SelectAllBestsUnbeaten | src/main/java/core/CVOA.java:201-206 | if improvement is a strict order, nothing in the population and neither old best improves on the final bests |
| Core.CVOA.SelectionPass | src/main/java/core/CVOA.java:179-211 | the first half of propagateDisease equals SelectionPhase: the selection branch runs only for a population other than one, and then the shared deaths are removed from recovered |
| Propagation.SelectionPhaseSets | src/main/java/core/CVOA.java:188-211 | deaths grow by the death bag only when the population is not one; afterwards recovered and deaths are disjoint, and recovered comes from the old recovered set and the population |
| Propagation.SelectionPhaseBags | src/main/java/core/CVOA.java:188-210 | with a population of one the bags are unchanged; otherwise they stay within their capacity bounds and take members only from the population |
| Propagation.SelectionPhaseBests | src/main/java/core/CVOA.java:188-210 | with a population of one no best and no discovering iteration changes; otherwise the strain best's discovering iteration becomes time + 1 |
| Core.CVOA.AdmitInfection | src/main/java/core/CVOA.java:234-264 | the treatment of one new infection equals Propagation.Admit |
| Core.CVOA.InfectAndAdmit | src/main/java/core/CVOA.java:232-264 | one pass of the infection loop infects with the offspring's draw and admits the result as Admit says |
| Propagation.Admit | src/main/java/core/CVOA.java:234-264 | z is admitted iff it was already in, or (there is no distancing yet or z escapes isolation) and (z is neither dead nor recovered, or z is recovered and reinfected); recovered loses z exactly on reinfection; isolated gains z exactly when z is isolated and is new, not dead and not recovered; disjointness of new, recovered and dead is kept |
| Propagation.Infections | src/main/java/core/CVOA.java:217-231 | the offspring draws used are the first ninfected of the plan (minSuperSpread more for a super-spreader), and each fits |
| Core.CVOA.SpreadFrom | src/main/java/core/CVOA.java:217-265 | the infections of one individual equal AdmitAll over its ninfected offspring at its travel distance |
| Core.CVOA.AdmitEach | src/main/java/core/CVOA.java:231-265 | the infection loop over an individual's offspring draws equals AdmitAll |
| Propagation.AdmitAllStep | src/main/java/core/CVOA.java:231-265 | admitting one more offspring draw is one more Admit on the result so far |
| Propagation.AdmitAllSpec | src/main/java/core/CVOA.java:231-265 | the new population grows only by the offspring; recovered only shrinks; isolated only grows, does not grow before the onset, and only by individuals neither dead nor recovered; before the onset every offspring that is neither dead nor recovered is admitted |
| Core.CVOA.SpreadingPass | src/main/java/core/CVOA.java:214-266 | the spreading loop over the iteration order equals SpreadAll |
| Propagation.SpreadAllSpec | src/main/java/core/CVOA.java:214-266 | the same effect as AdmitAllSpec, over all infectors and their descendants |
| Propagation.SpreadingPhaseSpec | src/main/java/core/CVOA.java:213-283 | the spreading phase changes only the population, recovered and isolated, with the effect above |
| Core.CVOA.PropagateDisease | src/main/java/core/CVOA.java:177-285 | the new strain and shared state equal Propagate of the old state, the iteration order and the draws |
| Propagation.PropagateSharedSets | src/main/java/core/CVOA.java:177-285 | deaths grow exactly by the death bag, and not at all for a population of one; isolated only grows, not at all before the onset, and only by individuals neither dead nor recovered; recovered and deaths are disjoint on return |
| Propagation.PropagateNextGeneration | src/main/java/core/CVOA.java:213-283 | the new population consists of offspring that are neither dead nor recovered; before the onset every offspring that was neither dead nor recovered when spreading began is in it |
| Propagation.PropagateSelection | src/main/java/core/CVOA.java:184-210 | a population of one leaves the bags, bests and discovering iterations unchanged; otherwise the bags stay bounded and take members only from the population, the bests come from the population, and the strain best is stamped with time + 1 |
| Propagation.PropagateBestsUnbeaten | src/main/java/core/CVOA.java:188-207 | if improvement is a strict order, after a step neither old best improves on the bests, and for a population other than one no member of the old population does (a lone individual is never compared) |
| Propagation.StepStamp | src/main/java/core/CVOA.java:153-161 | one iteration of run's loop at time t has the effect of propagateDisease, except that an optimal strain best gets t as its discovering iteration and every other entry of the discovering map is as propagateDisease left it; with a non-optimal strain best the discovering map is as propagateDisease left it |
| Propagation.StepSharedSets | src/main/java/core/CVOA.java:153 | one iteration grows the shared deaths and isolated sets and leaves recovered and deaths disjoint |
| Propagation.StepsGrow | src/main/java/core/CVOA.java:142-165 | when the step function takes a Step, every step, from any state at any iteration, grows the shared sets and leaves recovered and deaths disjoint |
| Propagation.EpidemicSpec | src/main/java/core/CVOA.java:142-165 | the loop from iteration t ends after at least one and at most maxTime - t iterations when t < maxTime, does nothing otherwise, and ends before maxTime only with nobody infected; when every step grows the shared sets, so does the whole loop, and after one iteration or more recovered and deaths are disjoint |
| Core.CVOA.Iteration | src/main/java/core/CVOA.java:153-163 | the loop body: the new strain and shared state are one Step from the old state at the current iteration; time grows by one; the result is true exactly when the infected set is now empty |
| Core.CVOA.StartOutbreak | src/main/java/core/CVOA.java:123-135 | patient zero is the individual of the coins; it joins the infected set and the super-spreader bag and becomes the strain best; the borders become the two extreme individuals; nothing else changes |
| Core.CVOA.MainLoop | src/main/java/core/CVOA.java:140-165 | time starts at 0 and the final state and iteration counter are those of Epidemic, from the state on entry, with the given step function |
| Core.CVOA.Run | src/main/java/core/CVOA.java:121-171 | the final state and time equal Epidemic over Stepper (Step with this strain's configuration, the fitness test, the orders and the plans) from the state on entry with patient zero infected (Outset); the result is the strain best; time ends within 0..max(0, max_time); an early stop happens only with an empty infected set; for max_time <= 0 the result is patient zero and it has been added to the population; shared deaths and isolated only grow; after at least one step recovered and deaths are disjoint |

## Left out

- Console output, `DecimalFormat` and the R0 figure are not modelled, because they are output only.
- `call()` and the `Callable` wiring are not modelled. The `volatile` and synchronized shared sets are modelled as ordinary fields of one `Pandemic` object, with no interleaving of strains.
- Random seeding is not modelled. `Random` is replaced by explicit draw inputs in the same order of use. Probabilities appear only through their outcomes, so `P_TRAVEL`, `P_ISOLATION`, `P_REINFECTION`, `MAX_SPREAD` and `MAX_SUPERSPREAD` are stored but not read.
- Spread draws are not bounded by `MAX_SPREAD + 1` or `MAX_SUPERSPREAD - MIN_SUPERSPREAD + 1`, and positions need not be drawn uniformly. Positions must lie in [0, size), and each offspring draw must hold at least travel-distance distinct positions (`DrawFits`). So a plan with an offspring draw travels at most size positions, as `nextInt(size + 1)` guarantees (`PlanFitsTravel`). A plan must also supply enough offspring draws for either infection count.
- Floating point is not modelled. `Math.ceil(perc * n)` is computed exactly on reals, so rounding of doubles and the `(int)` cast of large values are out of scope. Java `int` overflow of the counters is also not modelled.
- The fitness function, `Individual.compareTo` and `getExtremeIndividual` are parameters. `getFitness() == 0.0` is a predicate given to `InitializePandemic`. `buildIndividual`'s fitness computation is not modelled.
- `setDiscoveringIteration` is modelled as a map on gene vectors. Java sets a field on one object, and equal individuals on other objects are not affected.
- Bag parameters: `insertIntoSetStrain` and `updateRecoverdDeathStrain` take a bag and a type character. Every call pairs 's' with the super-spreader bag and 'd' with the death bag, so the model selects the bag by its type. Types other than 's' and 'd' are not modelled.
- The borders and the strain best are `null` until `run` is called. The model gives them an empty individual instead.
- Exceptions are not modelled. In the code, `nextInt` throws on a bound of 0 or less: at CVOA.java:219 when `MAX_SUPERSPREAD < MIN_SUPERSPREAD`, and at CVOA.java:221 when `MAX_SPREAD < 0`. The model takes the spread draw as an input, so it has no such throw. At CVOA.java:311 `nextInt(size)` throws for size 0 and a travel distance of 1 or more; `DrawFits` asks for enough distinct positions, which excludes that case. At CVOA.java:293 `new int[size]` throws for a negative size; size is a `nat` in the model.
- The super-spreader and death bags and their borders are never cleared between iterations: `propagateDisease` adds to the bags left by the previous iteration, and the model carries them over in the same way.
