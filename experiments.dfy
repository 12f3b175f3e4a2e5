/** The three experiment scripts: their constants, the arms each one runs and
    its `__main__`. Each `__main__` loads a list of BGP prefix groups from a
    pickle, so the list comes in as a parameter: exp2.py and exp3.py read
    `bgp_prefixes_100000.pickle`, which a `pilot_bgp_prefixes` call (now
    commented out) once wrote, and exp1.py reads the full
    `bgp_prefixes.pickle`. */
module Experiments {
  import opened Common
  import opened External
  import opened Artifacts
  import opened Scheduler
  import opened Coordinator

  /** `floor(percent / 100 * x)`, in exact arithmetic. */
  function FloorPercent(percent: nat, x: nat): (r: nat)
    ensures r * 100 <= percent * x < (r + 1) * 100
  {
    percent * x / 100
  }

  /** The value of a `lambda x: (b, 6)`: the same budget in every cycle. */
  function ConstantBudget(b: nat): (f: nat -> Budget)
    ensures forall x :: f(x) == (b, 6)
  {
    _ => (b, 6)
  }

  /** Every arm's budget is the same in every cycle. */
  ghost predicate CycleIndependent(arms: seq<ArmConfig>)
  {
    forall j, x, y :: 0 <= j < |arms| ==> arms[j].computeBudget(x) == arms[j].computeBudget(y)
  }

  // ---------------------------------------------------------------------
  // exp1.py: one exhaustive arm and four budget-constrained ones.
  // ---------------------------------------------------------------------

  const Exp1GlobalBudget: nat := 11_881_416
  const Exp1Cycles: nat := 10
  const Exp1Percents: seq<nat> := [10, 25, 50, 75]

  function Exp1Script(): Script
  {
    Script("yarrp", "icmp", 8, 32)
  }

  function Exp1Ledgers(): (r: seq<string>)
    ensures |r| == 5
    ensures forall j :: 0 <= j < |r| ==> IsTextName(r[j])
    ensures forall i, j :: 0 <= i < j < |r| ==> r[i] != r[j]
  {
    ["exhaustive.txt", "constrained_zeph_10.txt", "constrained_zeph_25.txt",
     "constrained_zeph_50.txt", "constrained_zeph_75.txt"]
  }

  function Exp1Adaptive(name: string, budget: nat, bgpPrefixes: seq<PrefixGroup>): ArmConfig
  {
    ArmConfig(name, Exp1Cycles, ConstantBudget(budget), Some(bgpPrefixes),
              Adaptive(0.1, false, false, None), false)
  }

  /** The five arms, all run for `pilot_n_cycles` cycles. */
  function Exp1Arms(bgpPrefixes: seq<PrefixGroup>): (r: seq<ArmConfig>)
    ensures |r| == 5 && forall j :: 0 <= j < 5 ==> r[j].nCycles == Exp1Cycles
  {
    [Exp1Adaptive("edgenet-1", Exp1GlobalBudget, bgpPrefixes),
     Exp1Adaptive("edgenet-2", FloorPercent(10, Exp1GlobalBudget), bgpPrefixes),
     Exp1Adaptive("edgenet-3", FloorPercent(25, Exp1GlobalBudget), bgpPrefixes),
     Exp1Adaptive("edgenet-4", FloorPercent(50, Exp1GlobalBudget), bgpPrefixes),
     Exp1Adaptive("edgenet-5", FloorPercent(75, Exp1GlobalBudget), bgpPrefixes)]
  }

  /** `edgenet-1` probes the whole budget in every cycle, `edgenet-2` …
      `edgenet-5` 10%, 25%, 50% and 75% of it (rounded down); all are
      adaptive arms with epsilon 0.1 that ignore BGP. */
  lemma Exp1Configuration(bgpPrefixes: seq<PrefixGroup>)
    ensures var r := Exp1Arms(bgpPrefixes);
      && CycleIndependent(r)
      && (forall j :: 0 <= j < 5 ==>
            && r[j].bgpPrefixes == Some(bgpPrefixes)
            && r[j].strategy == Adaptive(0.1, false, false, None) && !r[j].dryRun)
      && r[0].computeBudget(0) == (Exp1GlobalBudget, 6)
      && (forall j :: 1 <= j < 5 ==>
            r[j].computeBudget(0).0 == FloorPercent(Exp1Percents[j - 1], Exp1GlobalBudget))
      // the constrained budgets grow with the percentage and stay below the full one
      && (forall i, j :: 0 < i < j < 5 ==> r[i].computeBudget(0).0 < r[j].computeBudget(0).0 < r[0].computeBudget(0).0)
      && r[1].computeBudget(0).0 == 1_188_141
      && r[2].computeBudget(0).0 == 2_970_354
      && r[3].computeBudget(0).0 == 5_940_708
      && r[4].computeBudget(0).0 == 8_911_062
  {
  }

  /** exp1.py's `__main__`. */
  method Exp1Main(env: Platform, store: Store, bgpPrefixes: seq<PrefixGroup>,
                  finished: (nat, Uuid) -> bool, maxSweeps: nat)
    returns (histories: seq<seq<Uuid>>, outcome: Outcome, ghost cleared: seq<nat>)
    modifies store
    ensures |histories| == 5 && Gated(histories, cleared, finished)
    ensures outcome == Completed ==>
      forall j :: 0 <= j < 5 ==>
        && |histories[j]| == Exp1Cycles == |cleared|
        && Exp1Ledgers()[j] in store.files && store.files[Exp1Ledgers()[j]] == Text(LedgerText(histories[j]))
    // no other ledger is touched
    ensures outcome == Completed ==>
      forall k :: IsTextName(k) && k !in Exp1Ledgers() ==>
        (k in store.files <==> k in old(store.files)) && (k in store.files ==> store.files[k] == old(store.files)[k])
    ensures outcome == Stalled ==>
      (forall j :: 0 <= j < 5 ==> |histories[j]| == |cleared| + 1) && SameLedgers(old(store.files), store.files)
    // on a platform that gives every submission a new id, no id appears twice in the histories
    ensures FreshIds(env) ==> IdsDistinct(histories)
  {
    var arms := Exp1Start(env, store, bgpPrefixes);
    histories, outcome, cleared := RunAndRecord(arms, store, Exp1Ledgers(), finished, maxSweeps);
  }

  /** The five `adaptive_instance(...)` calls: fresh generators, none started. */
  method Exp1Start(env: Platform, store: Store, bgpPrefixes: seq<PrefixGroup>) returns (arms: seq<Arm>)
    ensures |arms| == 5 && Distinct(arms) && AllValid(arms) && fresh(Elements(arms))
    ensures forall j :: 0 <= j < 5 ==>
      arms[j].cycle == 0 && arms[j].store == store && arms[j].cfg == Exp1Arms(bgpPrefixes)[j]
    ensures forall j :: 0 <= j < 5 ==> arms[j].cfg.nCycles == Exp1Cycles
    ensures OnePlatform(arms, env)
  {
    var cfgs := Exp1Arms(bgpPrefixes);
    var a0 := new Arm(Exp1Script(), cfgs[0], env, store);
    var a1 := new Arm(Exp1Script(), cfgs[1], env, store);
    var a2 := new Arm(Exp1Script(), cfgs[2], env, store);
    var a3 := new Arm(Exp1Script(), cfgs[3], env, store);
    var a4 := new Arm(Exp1Script(), cfgs[4], env, store);
    arms := [a0, a1, a2, a3, a4];
    forall j | 0 <= j < 5
      ensures arms[j].Valid() && arms[j].cycle == 0 && arms[j].store == store && arms[j].cfg == cfgs[j] && arms[j].env == env
    {
    }
  }

  // ---------------------------------------------------------------------
  // exp2.py: two adaptive arms and two shared ones.
  // ---------------------------------------------------------------------

  const Exp2GlobalBudget: nat := 100_000
  const Exp2Agents: nat := 2
  const Exp2Cycles: nat := 20

  function Exp2Script(): Script
  {
    Script("yarrp", "icmp", 13, 32)
  }

  function Exp2Ledgers(): (r: seq<string>)
    ensures |r| == 4
    ensures forall j :: 0 <= j < |r| ==> IsTextName(r[j])
    ensures forall i, j :: 0 <= i < j < |r| ==> r[i] != r[j]
  {
    ["adaptive.txt", "exploration.txt", "shared.txt", "adaptive_shared.txt"]
  }

  /** The four arms, all run for `pilot_n_cycles` cycles. */
  function Exp2Arms(bgpPrefixes: seq<PrefixGroup>): (r: seq<ArmConfig>)
    ensures |r| == 4 && forall j :: 0 <= j < 4 ==> r[j].nCycles == Exp2Cycles
  {
    var budget := ConstantBudget(Exp2GlobalBudget / Exp2Agents);
    [ArmConfig("adaptive", Exp2Cycles, budget, Some(bgpPrefixes), Adaptive(0.1, false, false, None), false),
     ArmConfig("exploration", Exp2Cycles, budget, Some(bgpPrefixes), Adaptive(1.0, false, false, None), false),
     ArmConfig("shared", Exp2Cycles, budget, Some(bgpPrefixes), Shared(false), false),
     ArmConfig("adaptive_shared", Exp2Cycles, budget, Some(bgpPrefixes), Shared(true), false)]
  }

  /** Each arm gets `pilot_global_budget // n_agents` per agent in every
      cycle: `adaptive` (epsilon 0.1), `exploration` (epsilon 1), `shared`
      (random shared selector) and `adaptive_shared` (shared selector with rl). */
  lemma Exp2Configuration(bgpPrefixes: seq<PrefixGroup>)
    ensures var r := Exp2Arms(bgpPrefixes);
      && CycleIndependent(r)
      && (forall j :: 0 <= j < 4 ==>
            && r[j].bgpPrefixes == Some(bgpPrefixes) && !r[j].dryRun
            && r[j].computeBudget(0) == (50_000, 6))
      && r[0].strategy == Adaptive(0.1, false, false, None)
      && r[1].strategy == Adaptive(1.0, false, false, None)
      && r[2].strategy == Shared(false) && r[3].strategy == Shared(true)
  {
  }

  /** exp2.py's `__main__`. */
  method Exp2Main(env: Platform, store: Store, bgpPrefixes: seq<PrefixGroup>,
                  finished: (nat, Uuid) -> bool, maxSweeps: nat)
    returns (histories: seq<seq<Uuid>>, outcome: Outcome, ghost cleared: seq<nat>)
    modifies store
    ensures |histories| == 4 && Gated(histories, cleared, finished)
    ensures outcome == Completed ==>
      forall j :: 0 <= j < 4 ==>
        && |histories[j]| == Exp2Cycles == |cleared|
        && Exp2Ledgers()[j] in store.files && store.files[Exp2Ledgers()[j]] == Text(LedgerText(histories[j]))
    // no other ledger is touched
    ensures outcome == Completed ==>
      forall k :: IsTextName(k) && k !in Exp2Ledgers() ==>
        (k in store.files <==> k in old(store.files)) && (k in store.files ==> store.files[k] == old(store.files)[k])
    ensures outcome == Stalled ==>
      (forall j :: 0 <= j < 4 ==> |histories[j]| == |cleared| + 1) && SameLedgers(old(store.files), store.files)
    // on a platform that gives every submission a new id, no id appears twice in the histories
    ensures FreshIds(env) ==> IdsDistinct(histories)
  {
    var arms := Exp2Start(env, store, bgpPrefixes);
    histories, outcome, cleared := RunAndRecord(arms, store, Exp2Ledgers(), finished, maxSweeps);
  }

  /** The two `adaptive_instance(...)` and two `shared_instance(...)` calls. */
  method Exp2Start(env: Platform, store: Store, bgpPrefixes: seq<PrefixGroup>) returns (arms: seq<Arm>)
    ensures |arms| == 4 && Distinct(arms) && AllValid(arms) && fresh(Elements(arms))
    ensures forall j :: 0 <= j < 4 ==>
      arms[j].cycle == 0 && arms[j].store == store && arms[j].cfg == Exp2Arms(bgpPrefixes)[j]
    ensures forall j :: 0 <= j < 4 ==> arms[j].cfg.nCycles == Exp2Cycles
    ensures OnePlatform(arms, env)
  {
    var cfgs := Exp2Arms(bgpPrefixes);
    var a0 := new Arm(Exp2Script(), cfgs[0], env, store);
    var a1 := new Arm(Exp2Script(), cfgs[1], env, store);
    var a2 := new Arm(Exp2Script(), cfgs[2], env, store);
    var a3 := new Arm(Exp2Script(), cfgs[3], env, store);
    arms := [a0, a1, a2, a3];
    forall j | 0 <= j < 4
      ensures arms[j].Valid() && arms[j].cycle == 0 && arms[j].store == store && arms[j].cfg == cfgs[j] && arms[j].env == env
    {
    }
  }

  // ---------------------------------------------------------------------
  // exp3.py: one production arm, its ledger appended id by id.
  // ---------------------------------------------------------------------

  const Exp3GlobalBudget: nat := 100_000
  const Exp3Cycles: nat := 10

  function Exp3Script(): Script
  {
    Script("diamond-miner", "icmp", 6, 32)
  }

  const Exp3Ledger: string := "production.txt"

  /** The `production` arm: 10% of the global budget in every cycle. */
  function Exp3Arm(bgpPrefixes: seq<PrefixGroup>): (r: ArmConfig)
    ensures CycleIndependent([r]) && r.computeBudget(0) == (FloorPercent(10, Exp3GlobalBudget), 6)
    ensures r.computeBudget(0).0 == 10_000
    ensures r.nCycles == Exp3Cycles && r.strategy == Adaptive(0.1, false, false, None)
  {
    ArmConfig("edgenet", Exp3Cycles, ConstantBudget(FloorPercent(10, Exp3GlobalBudget)), Some(bgpPrefixes),
              Adaptive(0.1, false, false, None), false)
  }

  /** exp3.py's `__main__`. */
  method Exp3Main(env: Platform, store: Store, bgpPrefixes: seq<PrefixGroup>,
                  finished: (nat, Uuid) -> bool, maxSweeps: nat)
    returns (outcome: Outcome, ghost ids: seq<Uuid>, ghost cleared: seq<nat>)
    modifies store
    ensures ExistingText(store.files, Exp3Ledger) == ExistingText(old(store.files), Exp3Ledger) + LedgerText(ids)
    ensures SameLedgersBut(old(store.files), store.files, Exp3Ledger)
    ensures forall c :: 0 <= c < |cleared| ==> c < |ids| && finished(cleared[c], ids[c])
    ensures outcome == Completed ==> |ids| == |cleared| == Exp3Cycles
    ensures outcome == Stalled ==> |ids| == |cleared| + 1
    // on a platform that gives every submission a new id, no id of this run is listed twice
    ensures FreshIds(env) ==> forall i, j :: 0 <= i < j < |ids| ==> ids[i] != ids[j]
  {
    var production := new Arm(Exp3Script(), Exp3Arm(bgpPrefixes), env, store);
    outcome, cleared := RunIncremental(production, store, Exp3Ledger, finished, maxSweeps);
    ids := production.yielded;
  }
}
