# Zeph pilot experiments: a Dafny model

The repository holds three experiment scripts (`exp1.py`, `exp2.py` and `exp3.py`). Each one drives measurement campaigns on the Iris platform through the external `zeph` package. Each script has three pieces of sequential logic of its own, and this project models and proves all three:

- **Greedy prefix-budget sampler** (`pilot_bgp_prefixes`). It shuffles the list of BGP prefix groups in place. It then keeps leading groups while the running number of /24 prefixes is still within the target (module `PrefixSampler`).
- **Arms** (the generators `adaptive_instance` and `shared_instance`). Each cycle of an arm works in four steps:
  - it builds a selector from the current measurement id (`create_adaptive_selector` / `create_selector`, or `create_shared_selector`; module `Selection`);
  - it submits the selector through a driver;
  - it pickles the driver's per-agent maps under file names derived from the new id;
  - it yields that id, which becomes the next cycle's input.

  An arm is the class `Scheduler.Arm`. Its fields are `uuid` (the generator's `measurement_uuid`) and `cycle`, plus the shared directory `Store` (module `Artifacts`).
- **Coordinators** (the `__main__` blocks; modules `Coordinator` and `Experiments`):
  - exp1 (5 arms) and exp2 (4 arms): `zip` pulls one id from every arm and appends each id to its arm's history. A `while True` loop then polls `check_measurement_finished` until one sweep sees every id finished. After `zip` ends, each history is written to a ledger file, one id per line.
  - exp3 (one arm): each id is appended to `production.txt` and then polled for on its own.

The external collaborators are the selectors' `compute_discoveries_links`/`compute_rank`/`compute_dispatch`, `adaptive_driver`, `shared_driver`, `get_agent_budget` and the MRT parsing. They are uninterpreted functions held in the `External.Platform` datatype. The calls to the platform's API (the two drivers and `get_agent_budget`) also take the number of measurements the script has submitted so far. That count is kept in the `Store` and stands for the platform's state, so submitting the same request twice gives two measurements. `External.FreshIds` names the platform behaviour the scripts rely on: every submission gets a new id.

`check_measurement_finished` is a function `finished(t, id)` of the sweep number `t`. A sweep number is a step of logical time.

`random.shuffle` is CPython's Fisher–Yates loop. The random index it picks for each position is passed in as the sequence `draws`.

The files follow the modules: `common.dfy`, `prefix_sampler.dfy`, `selection.dfy` (modules `External` and `Selection`), `artifacts.dfy`, `scheduler.dfy`, `coordinator.dfy` and `experiments.dfy`.

Main results:

- **Sampler.**
  - The sampler's result is exactly the prefix of the shuffled list that the characterisation `StopsAt` describes, in both directions.
  - Together with the lemmas below, this gives the overshoot bound, early stop only past the target, all-or-nothing on small inputs, and the shuffle being a permutation.
- **Arms.**
  - An arm yields at most `n_cycles` ids, then stops.
  - Cycle 0 is built from `previous_measurement_uuid` (always `None` for shared arms). Every later cycle is built from the id yielded just before.
  - A cycle's pickles are written before its id is returned: `exploitation_<id>` and `prefixes_<id>` for an adaptive arm, only `prefixes_<id>` for a shared arm. No ledger changes.
- **exp1 and exp2 coordinators.**
  - Every history is a prefix, in order, of what its arm yielded. When all arms run the same number of cycles, each history is complete.
  - Barrier c cleared in a sweep where every arm's cycle-c id was finished.
  - No arm's cycle k+1 was built before barrier k cleared.
  - On completion, each ledger's text is its history, one id per line, and no other `.txt` file changes. Reading a ledger back line by line gives the ids back (`LedgerRoundTrip`).
  - In round c of `zip`, arm j's cycle is the j-th submission of that round. So on a platform that gives every submission a new id, no id appears twice, within one history or across two.
- **exp3 coordinator.**
  - `production.txt` grows by exactly the yielded ids, in order, after its earlier contents. The same timing guarantees hold for the single arm.
  - Cycle k is the k-th measurement this run submitted. So on a platform that gives every submission a new id, no id of this run is listed twice. The ledger is opened with `"a"`, so ids written by earlier runs stay in front of them.

## Model

| member | source | states |
|---|---|---|
| PrefixSampler.Shuffle | exp2.py:68 | `random.shuffle` in place: the array becomes `Shuffled(old, draws)` and holds the same multiset of groups |
| PrefixSampler.ShuffledPermutes | exp2.py:68 | the shuffle only reorders: same length and same multiset of groups, for any draws |
| PrefixSampler.TakeWithinBudget | exp2.py:70-75 | the accumulator loop returns `Greedy(groups, n_prefixes)`, and its counter equals the total size of the returned groups |
| PrefixSampler.GreedyIsStopsAt | exp2.py:70-73 | the greedy result is the prefix of the list cut at the unique point where every earlier group was appended within the target and the walk stops only past it (both directions) |
| PrefixSampler.GreedyProperties | exp2.py:65-75 | the result is an in-order prefix of the shuffled list, and its total minus the last group is within the target. Stopping early means the total exceeds the target. A list that fits is returned whole, and a reachable target is never undershot. Empty input or a negative target gives nothing, and anything else gives at least one group |
| PrefixSampler.PilotBgpPrefixes | exp2.py:64-78 | `pilot_bgp_prefixes`: the caller's list is left shuffled (same multiset), and the result is the greedy prefix of the shuffled list |
| PrefixSampler.FourFiftiesTakeThree | exp2.py:70-75 | four groups of 50 with a target of 120: exactly three groups (150 prefixes) are taken |
| PrefixSampler.TotalConcat | exp2.py:75 | the /24 count of a concatenation is the sum of the counts |
| Selection.CreateAdaptiveSelector | exp2.py:84-109 | an epsilon-DFG selector with the given epsilon and BGP awareness. It is authorized on the given prefixes, or on the MRT prefixes when none are given. Its rank is computed from the discoveries of the given previous measurement only, and it has no dispatch |
| Selection.CreateSharedSelector | exp2.py:165-201 | the agent budget and round come from `get_agent_budget`. With `rl`: epsilon 0.1, the rank comes from the previous measurement's discoveries, and the dispatch is computed on the already-ranked selector. Without `rl`: a random shared selector with no discovery query, rank or dispatch |
| Selection.SharedSelectorIgnoresPrevious | exp2.py:196-199 | without `rl` the selector does not depend on the measurement id passed in |
| Scheduler.InitialUuid | exp2.py:213 | a shared arm's first cycle is always built from `None` |
| Scheduler.Persisted | exp2.py:151-158 | after a cycle, `prefixes_<id>.pickle` holds the prefixes map, adaptive arms also have `exploitation_<id>.pickle` holding the exploitation map, and no ledger changes |
| Scheduler.PersistedFrame | exp2.py:240-243 | a cycle writes no file other than its two pickles (only `prefixes_<id>` for a shared arm) |
| Scheduler.Arm.constructor | exp2.py:112-124 | creating a generator runs nothing: cycle 0, no id yielded yet, and `measurement_uuid` is the initial id |
| Scheduler.Arm.RunCycle | exp2.py:125-158 | one loop body: the driver's result for the selector built from `previous` and submitted as the next measurement (the submission count goes up by one), and the directory after its pickles are written |
| Scheduler.DistinctSubmissionsDistinctIds | exp2.py:132-146 | on a platform that gives every submission a new id, cycles submitted at different points get different ids, whatever their arms and inputs |
| Scheduler.ChainedNext | exp2.py:124-159 | if each cycle k an arm ran was built from the id before it and submitted after `at[k]` earlier measurements, then one more cycle, built from the last id and submitted after `n`, keeps this true for `at + [n]` |
| Scheduler.ChainedDistinct | exp2.py:124-159 | when every submission gets a new id, an arm whose cycles were pairwise different submissions never yields the same id twice |
| Scheduler.Arm.NextCycle | exp2.py:124-159 | after `n_cycles` cycles it returns None and changes nothing. Otherwise it runs the cycle whose selector is built from the previous yielded id (the initial id at cycle 0) and submits it as the next measurement, recording how many measurements came before it. It stores the pickles, yields the new id, advances the cycle count and leaves every ledger unchanged |
| Artifacts.ArtifactKeysDistinct | exp2.py:151-158 | exploitation and prefixes file names never collide with each other or with a `.txt` ledger, and each name determines its measurement id |
| Artifacts.LedgerRoundTrip | exp2.py:387-389 | a ledger read back line by line yields exactly the ids written, in order |
| Artifacts.LedgerTextConcat | exp3.py:173-174 | the ledger text of `a + b` is the text of `a` followed by that of `b` |
| Artifacts.WriteLedger | exp2.py:387-389 | `open("w")` and one `write(uuid + "\n")` per id leave the file holding exactly the ledger text of the ids. Every other file and the submission count are unchanged |
| Artifacts.WriteLedgers | exp2.py:387-401 | each named ledger holds its history's text. Every other file and the submission count are unchanged |
| Artifacts.AppendExtends | exp3.py:173-174 | appending an id to a ledger that holds `base` plus the ledger text of `ids` leaves it holding `base` plus the text of `ids + [id]`, and no other ledger changes |
| Artifacts.AppendLine | exp3.py:173-174 | `open("a")` and a write: the file's earlier text (empty if absent) followed by the id and a newline |
| Coordinator.Sweep | exp2.py:354-380 | the result is the conjunction of that sweep's status checks: true exactly when every id is finished in that sweep. The body makes one call per id before combining them, as the script does |
| Coordinator.Barrier | exp2.py:350-382 | the poll loop leaves at the first sweep in which all ids are finished, never earlier. Without such a sweep within the bound it reports not cleared |
| Coordinator.PullNext | exp2.py:336-341 | `next` on one arm of the tuple. An exhausted arm returns None and nothing changes. Otherwise the id is the platform's answer for the selector built from the arm's previous id, submitted after the current count of measurements, and the count goes up by one. The other arms are untouched and no ledger changes |
| Coordinator.PullAll | exp2.py:336-341 | one `zip` step: every arm in order runs one cycle, up to the first exhausted arm, and the arms after it are untouched. Arm j's id is the platform's answer for the selector built from its previous id and submitted after `old count + j` earlier measurements. The count goes up by the number of ids, and no ledger changes |
| Coordinator.PullAndRecord | exp2.py:331-348 | if `zip` yields a full tuple, each id is appended to its arm's history and all arms advance together. Otherwise the histories are unchanged and some arm is exhausted |
| Coordinator.RoundsIdsDistinct | exp2.py:331-346 | on a platform that gives every submission a new id, arms whose cycle c was the j-th submission of round c, each round starting after all submissions of the round before, never record the same id twice, within one history or across two |
| Coordinator.GatedExtend | exp2.py:343-381 | appending a column of ids keeps earlier barriers justified, and a sweep that finds the whole column finished justifies the new barrier |
| Coordinator.ClearStep | exp2.py:350-382 | clearing a barrier after every earlier one keeps the arms in lockstep and causally ordered |
| Coordinator.DrainedEnds | exp2.py:336-341 | when `zip` runs dry, each history is the prefix of its arm's yielded ids, and the whole of them when all arms share `n_cycles` |
| Coordinator.PendingEnds | exp2.py:350-382 | while waiting on a barrier, each history holds every id its arm yielded, including the pending one |
| Coordinator.LockstepCycle | exp2.py:331-382 | one pass of the `for` loop: either `zip` ran dry (the run completes, and each history is its arm's ids up to the last barrier), or the barrier timed out (Stalled, and each history holds the pending ids), or every arm advanced one cycle in lockstep and the new barrier cleared in a sweep that saw all the new ids finished |
| Coordinator.RunLockstep | exp2.py:331-382 | every history is an in-order prefix of its arm's ids, and barrier c cleared in a sweep where all cycle-c ids were finished. No cycle k+1 was built before barrier k cleared. Equal `n_cycles` gives complete histories of that length. The ledgers are untouched and the submission count never decreases. On one platform that gives every submission a new id, no id appears twice in the histories |
| Coordinator.RunAndRecord | exp2.py:331-401 | the lockstep loop followed by the ledger writes. On completion each ledger holds its history's text, with `n_cycles` ids when the arms agree, and every other `.txt` file is unchanged. A stalled run has written no ledger. On one platform that gives every submission a new id, no id appears twice in the histories |
| Coordinator.PullAndAppend | exp3.py:172-174 | one `next` plus an append. The new cycle is the next submission, built from the previous id. The ledger stays its earlier text followed by every id yielded, and no other ledger changes |
| Coordinator.ConsecutiveIdsDistinct | exp3.py:172-183 | on a platform that gives every submission a new id, an arm whose cycles were consecutive submissions never yields the same id twice |
| Coordinator.TimelineStep | exp3.py:172-183 | a cycle built after every earlier barrier, whose id is finished at the next clearing sweep, extends the single-arm timeline |
| Coordinator.RunIncremental | exp3.py:172-183 | `production.txt` becomes its earlier text followed by exactly the yielded ids in order, and no other ledger changes. Each barrier cleared on a sweep that saw its id finished, and each cycle was built after the previous barrier cleared. A completed run has yielded `n_cycles` ids. Cycle k was the k-th submission of this run, so on a platform that gives every submission a new id, all ids of this run differ |
| Experiments.FloorPercent | exp1.py:191 | `floor(p/100 * x)` as an exact integer: the largest r with `100 r <= p x` |
| Experiments.ConstantBudget | exp2.py:278 | a `lambda x: (b, 6)` that ignores the cycle index |
| Experiments.Exp1Ledgers | exp1.py:285-302 | five distinct `.txt` ledger names |
| Experiments.Exp1Arms | exp1.py:165-228 | five arms, each run for `pilot_n_cycles` (10) cycles |
| Experiments.Exp1Configuration | exp1.py:165-228 | cycle-independent budgets: `edgenet-1` the full 11 881 416, `edgenet-2`..`5` 10/25/50/75 % of it rounded down (1 188 141, 2 970 354, 5 940 708, 8 911 062), strictly increasing and below the full budget. All arms are adaptive with epsilon 0.1 and without BGP awareness |
| Experiments.Exp1Start | exp1.py:165-228 | five fresh, distinct, not yet started generators over the shared directory and one platform, with the configuration above |
| Experiments.Exp1Main | exp1.py:153-302 | a completed run cleared 10 barriers and writes the five ledgers, each holding the 10 ids that passed them, and no other `.txt` file changes. A stalled one has written none. On a platform that gives every submission a new id, no id appears twice in the histories |
| Experiments.Exp2Ledgers | exp2.py:387-401 | four distinct `.txt` ledger names |
| Experiments.Exp2Arms | exp2.py:273-329 | four arms, each run for `pilot_n_cycles` (20) cycles |
| Experiments.Exp2Configuration | exp2.py:273-329 | every arm's budget function returns `(100 000 // 2, 6) = (50 000, 6)` for every cycle index. The arms are `adaptive` (epsilon 0.1), `exploration` (epsilon 1), `shared` (random) and `adaptive_shared` (rl) |
| Experiments.Exp2Start | exp2.py:273-329 | four fresh, distinct, not yet started generators over one platform, with that configuration |
| Experiments.Exp2Main | exp2.py:247-401 | a completed run cleared 20 barriers and writes the four ledgers, each holding the 20 ids that passed them, and no other `.txt` file changes. A stalled one has written none. On a platform that gives every submission a new id, no id appears twice in the histories |
| Experiments.Exp3Arm | exp3.py:161-170 | the `edgenet` arm: 10 cycles, a cycle-independent budget of 10 % of 100 000 = 10 000, adaptive with epsilon 0.1 |
| Experiments.Exp3Main | exp3.py:149-183 | `production.txt` grows by exactly the ids yielded, in order, and each cleared barrier saw its id finished. A completed run yields 10 ids, and a stalled one is waiting on one more. On a platform that gives every submission a new id, no id of this run is listed twice |

## Left out

- Randomness: `random.shuffle` takes its random indices from the `draws` parameter (`draws[i] <= i`), so every run of the shuffle is covered, but no distribution is modelled.
- Network I/O: `adaptive_driver`, `shared_driver`, `get_agent_budget` and `check_measurement_finished` are HTTP calls. They are modelled as functions of their inputs and of the number of measurements the script has submitted before the call. Driver errors and exceptions are not modelled, and the url, username and password arguments are dropped. That ids are new per submission is a hypothesis (`FreshIds`), not a fact of the model.
- The `zeph` selector classes (`EpsilonDFGSelector`, `EpsilonSharedDFGSelector`, `RandomSharedSelector`) and `create_bgp_radix`/`create_bgp_prefixes` are external code. The model records which class is built, with which arguments, and in what order its queries are made.
- Liveness of the poll loop: the source polls forever. `Barrier` gives up after `maxSweeps` sweeps and the run ends `Stalled`, which stands for a script still waiting. Only safety (ordering and ledger contents) is proved.
- `time.sleep(1)` / `time.sleep(10)` are modelled only as the step to the next sweep number.
- Logging is left out, including the appends to `log.txt`. The model counts every `.txt` file as a ledger, so its "no ledger changes" contracts hold only because logging is not modelled.
- The `recap` dictionaries, the pickle byte format and file paths are left out. A file is a `Pickle` of a per-agent map or a `Text` string, keyed by its name in the measurement directory.
- `calibration.py` and `create_bgp_prefixes.py` are not part of this model. They only call `zeph` functions and pickle the results.
- The `pilot_bgp_prefixes` call is commented out in all three `__main__` blocks. Each main loads a list of prefix groups from a pickle instead, so the mains take that list as a parameter and the sampler is modelled on its own. exp2.py and exp3.py read `bgp_prefixes_100000.pickle`, the sampled list an earlier run wrote (exp2.py:59-61, exp3.py:51-53). exp1.py reads the full `bgp_prefixes.pickle` (exp1.py:47, 51).
- Float arithmetic: `floor(0.10 * budget)` and the like are computed exactly (`FloorPercent`). For the constants used (11 881 416 and 100 000), this gives the same values as the floating-point expressions.
- Each id is appended to its history before the `while True` loop (exp2.py:344-350, exp1.py:245-253), and the model follows that order.
- Coordinator.RunAndRecord: does not restate `AllValid` and the causal ordering that `RunLockstep` states, because the ledger writes happen after the loop and leave the arms untouched.
- Experiments.Exp1Main: states the ledgers, the barriers each history passed and distinct ids, but not the per-arm prefix property or the causal ordering of the generators it creates, because those are local objects. `RunLockstep` states both.
- Experiments.Exp2Main: same as `Exp1Main`.
- Coordinator.PullAll: does not restate which pickles each cycle wrote. `Arm.NextCycle` states that per cycle, and `PullAll` keeps only that no ledger changes.
- Distinct ids are proved only for ids within one run. Ledgers written by earlier runs are outside the model.
- Experiments.Exp3Main: the arm is local, so the causal ordering of cycles is stated by `RunIncremental` rather than here.
