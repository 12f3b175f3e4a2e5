/** The interfaces of the external `zeph` package as the scripts use them:
    selector objects, the measurement platform's drivers and the MRT parsing.
    Their behaviour is not known here, so the Platform datatype holds them as
    uninterpreted functions; the scripts' own logic is modelled against it. */
module External {
  import opened Common

  /** Links discovered by earlier measurements, as read from the database. */
  type Link = (string, string)
  type Discoveries = set<Link>

  /** Which selector class was instantiated. */
  datatype SelectorKind = EpsilonDfg | EpsilonSharedDfg | RandomShared

  /** Whether `compute_discoveries_links` was called, and for which measurement. */
  datatype DiscoveryQuery = NotQueried | QueriedFor(previous: Option<Uuid>)

  /** The state of a selector object once the script has prepared it. */
  datatype Selector = Selector(
    kind: SelectorKind,
    epsilon: Option<real>,           // absent for RandomSharedSelector
    agentBudget: Option<nat>,        // present for the shared selectors
    authorized: seq<PrefixGroup>,
    bgpAwareness: Option<bool>,      // absent: the class default is used
    discovery: DiscoveryQuery,
    rankPerAgent: Option<RankPerAgent>,
    dispatchPerAgent: Option<PerAgent>)

  /** Tool, protocol and TTL range: module constants of each script. */
  datatype Script = Script(tool: string, protocol: string, minTtl: nat, maxTtl: nat)

  /** Arguments of `adaptive_driver` (url and credentials left out). */
  datatype AdaptiveRequest = AdaptiveRequest(
    name: string, script: Script, selector: Selector,
    computeBudget: nat -> Budget, exploitationOnly: bool, dryRun: bool)

  /** Arguments of `shared_driver` (url and credentials left out). */
  datatype SharedRequest = SharedRequest(
    script: Script, selector: Selector, agentBudget: nat, agentRound: nat, dryRun: bool)

  /** What both drivers return: the new measurement id and two per-agent maps. */
  datatype DriverResult = DriverResult(uuid: Uuid, exploitationPerAgent: PerAgent, prefixesPerAgent: PerAgent)

  /** The external collaborators, as functions of their inputs. The calls
      to the platform's API also take the number of measurements submitted
      before the call, which stands for the platform's state: the same
      request submitted twice is two measurements with their own ids. */
  datatype Platform = Platform(
    mrtPrefixes: seq<PrefixGroup>,                        // create_bgp_prefixes(create_bgp_radix(...))
    discoveries: (Selector, Option<Uuid>) -> Discoveries, // selector.compute_discoveries_links
    rank: (Selector, Discoveries) -> RankPerAgent,        // selector.compute_rank
    dispatch: Selector -> PerAgent,                       // selector.compute_dispatch
    agentBudget: (string, nat -> Budget, nat) -> Budget,  // get_agent_budget
    adaptiveDriver: (AdaptiveRequest, nat) -> DriverResult, // adaptive_driver
    sharedDriver: (SharedRequest, nat) -> DriverResult)   // shared_driver

  /** The platform gives every submission a new measurement id. */
  ghost predicate FreshIds(env: Platform)
  {
    && (forall a: AdaptiveRequest, b: AdaptiveRequest, n: nat, m: nat :: n != m ==>
          env.adaptiveDriver(a, n).uuid != env.adaptiveDriver(b, m).uuid)
    && (forall a: SharedRequest, b: SharedRequest, n: nat, m: nat :: n != m ==>
          env.sharedDriver(a, n).uuid != env.sharedDriver(b, m).uuid)
    && (forall a: AdaptiveRequest, b: SharedRequest, n: nat, m: nat :: n != m ==>
          env.adaptiveDriver(a, n).uuid != env.sharedDriver(b, m).uuid)
  }
}

/** `create_adaptive_selector` / `create_selector` and `create_shared_selector`. */
module Selection {
  import opened Common
  import opened External

  /** The prefixes handed to a selector: the given ones, or those parsed from
      the MRT dump when the caller passed none. */
  function Authorized(env: Platform, bgpPrefixes: Option<seq<PrefixGroup>>): seq<PrefixGroup>
  {
    if bgpPrefixes.Some? then bgpPrefixes.value else env.mrtPrefixes
  }

  /** The selector as constructed, before any query was made on it. */
  function Unqueried(s: Selector): Selector
  {
    s.(discovery := NotQueried, rankPerAgent := None, dispatchPerAgent := None)
  }

  /** An epsilon-DFG selector whose rank was computed from the discoveries of
      `previous` and of no other measurement. */
  function CreateAdaptiveSelector(env: Platform, epsilon: real, previous: Option<Uuid>,
                                  bgpPrefixes: Option<seq<PrefixGroup>>, bgpAwareness: bool): (s: Selector)
    ensures s.kind == EpsilonDfg && s.epsilon == Some(epsilon) && s.agentBudget == None
    ensures s.bgpAwareness == Some(bgpAwareness)
    ensures s.authorized == Authorized(env, bgpPrefixes)
    ensures s.discovery == QueriedFor(previous)
    ensures s.rankPerAgent == Some(env.rank(Unqueried(s), env.discoveries(Unqueried(s), previous)))
    ensures s.dispatchPerAgent == None
  {
    var selector := Selector(EpsilonDfg, Some(epsilon), None, Authorized(env, bgpPrefixes),
                             Some(bgpAwareness), NotQueried, None, None);
    var discoveries := env.discoveries(selector, previous);
    selector.(discovery := QueriedFor(previous), rankPerAgent := Some(env.rank(selector, discoveries)))
  }

  /** What `create_shared_selector` returns. */
  datatype SharedSelection = SharedSelection(selector: Selector, agentBudget: nat, agentRound: nat)

  /** With `rl`, an epsilon-shared-DFG selector with epsilon 0.1 whose rank is
      set from the discoveries of `previous` before its dispatch is computed;
      without it, a random shared selector that makes no discovery query. */
  function CreateSharedSelector(env: Platform, name: string, computeBudget: nat -> Budget, rl: bool,
                                previous: Option<Uuid>, bgpPrefixes: Option<seq<PrefixGroup>>,
                                submitted: nat): (r: SharedSelection)
    ensures (r.agentBudget, r.agentRound) == env.agentBudget(name, computeBudget, submitted)
    ensures r.selector.agentBudget == Some(r.agentBudget)
    ensures r.selector.authorized == Authorized(env, bgpPrefixes)
    ensures rl ==>
      && r.selector.kind == EpsilonSharedDfg && r.selector.epsilon == Some(0.1)
      && r.selector.discovery == QueriedFor(previous)
      && r.selector.rankPerAgent == Some(env.rank(Unqueried(r.selector), env.discoveries(Unqueried(r.selector), previous)))
      // dispatch is computed on the selector whose rank is already set
      && r.selector.dispatchPerAgent == Some(env.dispatch(r.selector.(dispatchPerAgent := None)))
    ensures !rl ==>
      && r.selector.kind == RandomShared && r.selector.epsilon == None
      && r.selector.discovery == NotQueried
      && r.selector.rankPerAgent == None && r.selector.dispatchPerAgent == None
  {
    var (agentBudget, agentRound) := env.agentBudget(name, computeBudget, submitted);
    if rl then
      var selector := Selector(EpsilonSharedDfg, Some(0.1), Some(agentBudget), Authorized(env, bgpPrefixes),
                               None, NotQueried, None, None);
      var discoveries := env.discoveries(selector, previous);
      var ranked := selector.(discovery := QueriedFor(previous), rankPerAgent := Some(env.rank(selector, discoveries)));
      SharedSelection(ranked.(dispatchPerAgent := Some(env.dispatch(ranked))), agentBudget, agentRound)
    else
      SharedSelection(Selector(RandomShared, None, Some(agentBudget), Authorized(env, bgpPrefixes),
                               None, NotQueried, None, None), agentBudget, agentRound)
  }

  /** Without `rl` the previous measurement id is not used at all. */
  lemma SharedSelectorIgnoresPrevious(env: Platform, name: string, computeBudget: nat -> Budget,
                                      p: Option<Uuid>, q: Option<Uuid>, bgpPrefixes: Option<seq<PrefixGroup>>,
                                      submitted: nat)
    ensures CreateSharedSelector(env, name, computeBudget, false, p, bgpPrefixes, submitted)
         == CreateSharedSelector(env, name, computeBudget, false, q, bgpPrefixes, submitted)
  {
  }
}
