/** The generators `adaptive_instance` and `shared_instance`: one arm of an
    experiment, advanced one cycle per pull. Each cycle builds a selector from
    the arm's current measurement id, submits it through the driver, pickles
    the driver's per-agent maps under names derived from the new id and yields
    that id, which becomes the input of the next cycle. */
module Scheduler {
  import opened Common
  import opened External
  import opened Selection
  import opened Artifacts

  /** The generator arguments that depend on its strategy. */
  datatype Strategy =
    | Adaptive(epsilon: real, bgpAwareness: bool, exploitationOnly: bool, previous: Option<Uuid>)
    | Shared(rl: bool)

  /** The arguments an arm's generator is created with. */
  datatype ArmConfig = ArmConfig(
    name: string,
    nCycles: nat,
    computeBudget: nat -> Budget,
    bgpPrefixes: Option<seq<PrefixGroup>>,
    strategy: Strategy,
    dryRun: bool)

  /** The measurement id the first cycle's selector is built from:
      `previous_measurement_uuid` for adaptive arms, always None for shared ones. */
  function InitialUuid(cfg: ArmConfig): (r: Option<Uuid>)
    ensures cfg.strategy.Shared? ==> r == None
  {
    match cfg.strategy
    case Adaptive(_, _, _, previous) => previous
    case Shared(_) => None
  }

  /** What the driver returns for a cycle whose selector is built from
      `previous`, submitted after `submitted` earlier measurements. */
  function CycleResult(script: Script, cfg: ArmConfig, env: Platform, previous: Option<Uuid>, submitted: nat): DriverResult
  {
    match cfg.strategy
    case Adaptive(epsilon, bgpAwareness, exploitationOnly, _) =>
      var selector := CreateAdaptiveSelector(env, epsilon, previous, cfg.bgpPrefixes, bgpAwareness);
      env.adaptiveDriver(AdaptiveRequest(cfg.name, script, selector, cfg.computeBudget, exploitationOnly, cfg.dryRun),
                         submitted)
    case Shared(rl) =>
      var s := CreateSharedSelector(env, cfg.name, cfg.computeBudget, rl, previous, cfg.bgpPrefixes, submitted);
      env.sharedDriver(SharedRequest(script, s.selector, s.agentBudget, s.agentRound, cfg.dryRun), submitted)
  }

  /** On a platform that gives every submission a new id, two cycles
      submitted at different points get different ids, whatever their arms
      and inputs. */
  lemma DistinctSubmissionsDistinctIds(script: Script, script': Script, cfg: ArmConfig, cfg': ArmConfig,
                                       env: Platform, p: Option<Uuid>, q: Option<Uuid>, n: nat, m: nat)
    requires FreshIds(env) && n != m
    ensures CycleResult(script, cfg, env, p, n).uuid != CycleResult(script', cfg', env, q, m).uuid
  {
  }

  /** The directory after a cycle has pickled its artifacts: adaptive arms
      write `exploitation_<id>.pickle` and `prefixes_<id>.pickle`, shared arms
      only `prefixes_<id>.pickle`; no other file changes. */
  function Persisted(files: map<string, File>, strategy: Strategy, res: DriverResult): (r: map<string, File>)
    ensures PrefixesKey(res.uuid) in r && r[PrefixesKey(res.uuid)] == Pickle(res.prefixesPerAgent)
    ensures strategy.Adaptive? ==>
      ExploitationKey(res.uuid) in r && r[ExploitationKey(res.uuid)] == Pickle(res.exploitationPerAgent)
    ensures SameLedgers(files, r)
  {
    ArtifactKeysDistinct(res.uuid, res.uuid);
    var withExploitation :=
      if strategy.Adaptive? then files[ExploitationKey(res.uuid) := Pickle(res.exploitationPerAgent)] else files;
    withExploitation[PrefixesKey(res.uuid) := Pickle(res.prefixesPerAgent)]
  }

  /** A cycle writes its two pickles (one for shared arms) and nothing else. */
  lemma PersistedFrame(files: map<string, File>, strategy: Strategy, res: DriverResult, k: string)
    requires k != PrefixesKey(res.uuid) && (strategy.Shared? || k != ExploitationKey(res.uuid))
    ensures var r := Persisted(files, strategy, res);
      (k in r <==> k in files) && (k in r ==> r[k] == files[k])
  {
  }

  /** The measurement id cycle k's selector is built from, given the ids
      yielded so far: the initial id for cycle 0, else the id of cycle k-1. */
  function InputOf(initial: Option<Uuid>, yielded: seq<Uuid>, k: nat): Option<Uuid>
    requires k <= |yielded|
  {
    if k == 0 then initial else Some(yielded[k - 1])
  }

  lemma InputOfExtend(initial: Option<Uuid>, ids: seq<Uuid>, id: Uuid, k: nat)
    requires k <= |ids|
    ensures InputOf(initial, ids + [id], k) == InputOf(initial, ids, k)
  {
    if k > 0 {
      assert (ids + [id])[k - 1] == ids[k - 1];
    }
  }

  /** The id an arm's cycle gets when it is built from `previous` and
      submitted after `n` earlier measurements. */
  function SubmittedId(script: Script, cfg: ArmConfig, env: Platform): (idOf: (Option<Uuid>, nat) -> Uuid)
    ensures forall p, n :: idOf(p, n) == CycleResult(script, cfg, env, p, n).uuid
  {
    (p: Option<Uuid>, n: nat) => CycleResult(script, cfg, env, p, n).uuid
  }

  /** Submissions made at different points get different ids. */
  ghost predicate NewPerSubmission(idOf: (Option<Uuid>, nat) -> Uuid)
  {
    forall p, q, n, m :: n != m ==> idOf(p, n) != idOf(q, m)
  }

  lemma FreshIdsPerSubmission(script: Script, cfg: ArmConfig, env: Platform)
    requires FreshIds(env)
    ensures NewPerSubmission(SubmittedId(script, cfg, env))
  {
    var idOf := SubmittedId(script, cfg, env);
    forall p, q, n, m | n != m
      ensures idOf(p, n) != idOf(q, m)
    {
      DistinctSubmissionsDistinctIds(script, script, cfg, cfg, env, p, q, n, m);
    }
  }

  /** `ids` are what an arm's cycles yielded when its k-th cycle was built
      from the id before it (`initial` for the first) and was the
      measurement submitted after `at[k]` earlier ones. */
  ghost predicate Chained(idOf: (Option<Uuid>, nat) -> Uuid, initial: Option<Uuid>, ids: seq<Uuid>, at: seq<nat>)
  {
    && |at| == |ids|
    && forall k {:trigger InputOf(initial, ids, k)} :: 0 <= k < |ids| ==> ids[k] == idOf(InputOf(initial, ids, k), at[k])
  }

  /** The next cycle, built from the last id and submitted after `n`
      earlier measurements, extends the chain. */
  lemma ChainedStep(idOf: (Option<Uuid>, nat) -> Uuid, initial: Option<Uuid>, ids: seq<Uuid>, at: seq<nat>,
                    id: Uuid, n: nat)
    requires Chained(idOf, initial, ids, at)
    requires id == idOf(InputOf(initial, ids, |ids|), n)
    ensures Chained(idOf, initial, ids + [id], at + [n])
  {
    var next, at' := ids + [id], at + [n];
    forall k | 0 <= k < |next|
      ensures next[k] == idOf(InputOf(initial, next, k), at'[k])
    {
      InputOfExtend(initial, ids, id, k);
      if k < |ids| {
        assert next[k] == ids[k] && at'[k] == at[k];
      }
    }
  }

  /** The cycle after a chained run, built from its last id (or the initial
      one) and submitted after `n` earlier measurements, extends the chain. */
  lemma ChainedNext(script: Script, cfg: ArmConfig, env: Platform, ids: seq<Uuid>, at: seq<nat>,
                    input: Option<Uuid>, n: nat, id: Uuid)
    requires Chained(SubmittedId(script, cfg, env), InitialUuid(cfg), ids, at)
    requires input == InputOf(InitialUuid(cfg), ids, |ids|)
    requires id == CycleResult(script, cfg, env, input, n).uuid
    ensures Chained(SubmittedId(script, cfg, env), InitialUuid(cfg), ids + [id], at + [n])
  {
    var idOf := SubmittedId(script, cfg, env);
    assert id == idOf(input, n);
    ChainedStep(idOf, InitialUuid(cfg), ids, at, id, n);
  }

  /** When every submission gets a new id, an arm whose cycles were
      different submissions never yields the same id twice. */
  lemma ChainedDistinct(idOf: (Option<Uuid>, nat) -> Uuid, initial: Option<Uuid>, ids: seq<Uuid>, at: seq<nat>)
    requires NewPerSubmission(idOf) && Chained(idOf, initial, ids, at)
    requires forall i, j :: 0 <= i < j < |at| ==> at[i] != at[j]
    ensures forall i, j :: 0 <= i < j < |ids| ==> ids[i] != ids[j]
  {
    forall i, j | 0 <= i < j < |ids|
      ensures ids[i] != ids[j]
    {
      assert ids[i] == idOf(InputOf(initial, ids, i), at[i]);
      assert ids[j] == idOf(InputOf(initial, ids, j), at[j]);
    }
  }

  /** A running generator. `uuid` is its `measurement_uuid` variable and
      `cycle` the number of cycles done; the ghost fields record the ids it
      has yielded, the sweep (time) at which each cycle was built and how
      many measurements had been submitted before each cycle's own. */
  class Arm {
    const script: Script
    const cfg: ArmConfig
    const env: Platform
    const store: Store
    var uuid: Option<Uuid>
    var cycle: nat
    ghost var yielded: seq<Uuid>
    ghost var builtAt: seq<nat>
    ghost var submittedAt: seq<nat>

    /** At most `n_cycles` cycles, one yielded id each, `measurement_uuid`
        holds the input of the next cycle, and every yielded id is what the
        platform returned for that cycle's input and submission. */
    ghost predicate Valid()
      reads this
    {
      && cycle <= cfg.nCycles
      && |yielded| == cycle && |builtAt| == cycle
      && uuid == InputOf(InitialUuid(cfg), yielded, cycle)
      && Chained(SubmittedId(script, cfg, env), InitialUuid(cfg), yielded, submittedAt)
    }

    /** Calling `adaptive_instance(...)` / `shared_instance(...)`: nothing runs yet. */
    constructor (script: Script, cfg: ArmConfig, env: Platform, store: Store)
      ensures Valid()
      ensures this.script == script && this.cfg == cfg && this.env == env && this.store == store
      ensures cycle == 0 && yielded == [] && builtAt == [] && submittedAt == []
    {
      this.script, this.cfg, this.env, this.store := script, cfg, env, store;
      uuid := InitialUuid(cfg);
      cycle := 0;
      yielded, builtAt, submittedAt := [], [], [];
    }

    /** One pass of the generator's loop body up to the `yield`: build the
        selector from `previous`, submit it through the driver, pickle the
        driver's per-agent maps. */
    method RunCycle(previous: Option<Uuid>) returns (res: DriverResult)
      modifies store
      ensures res == CycleResult(script, cfg, env, previous, old(store.submitted))
      ensures store.submitted == old(store.submitted) + 1
      ensures store.files == Persisted(old(store.files), cfg.strategy, res)
    {
      res := CycleResult(script, cfg, env, previous, store.submitted);
      store.submitted := store.submitted + 1;
      if cfg.strategy.Adaptive? {
        store.files := store.files[ExploitationKey(res.uuid) := Pickle(res.exploitationPerAgent)];
      }
      store.files := store.files[PrefixesKey(res.uuid) := Pickle(res.prefixesPerAgent)];
    }

    /** `next(generator)`: runs one cycle and returns its id, or None once
        `n_cycles` cycles have been run (StopIteration). The new cycle's
        selector is built from the previous cycle's id (the initial id for
        cycle 0), and both artifacts are stored before the id is returned. */
    method NextCycle(ghost now: nat) returns (id: Option<Uuid>)
      requires Valid()
      modifies this, store
      ensures Valid()
      ensures old(cycle) == cfg.nCycles ==> id == None && unchanged(this) && unchanged(store)
      ensures old(cycle) < cfg.nCycles ==>
        var res := CycleResult(script, cfg, env, old(uuid), old(store.submitted));
        && store.submitted == old(store.submitted) + 1
        && yielded == old(yielded) + [res.uuid]
        && submittedAt == old(submittedAt) + [old(store.submitted)]
        && old(uuid) == InputOf(InitialUuid(cfg), yielded, old(cycle))
        && id == Some(res.uuid)
        && cycle == old(cycle) + 1
        && builtAt == old(builtAt) + [now]
        && store.files == Persisted(old(store.files), cfg.strategy, res)
      ensures SameLedgers(old(store.files), store.files)
    {
      if cycle == cfg.nCycles {
        return None;
      }
      ghost var n := store.submitted;
      var res := RunCycle(uuid);
      assert SameLedgers(old(store.files), store.files);
      ChainedNext(script, cfg, env, yielded, submittedAt, uuid, n, res.uuid);
      builtAt := builtAt + [now];
      yielded := yielded + [res.uuid];
      submittedAt := submittedAt + [n];
      uuid := Some(res.uuid);
      cycle := cycle + 1;
      id := uuid;
    }
  }
}
