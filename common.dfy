/** Vocabulary shared by every part of the model: optional values and the
    names the experiment scripts use for measurements, agents and prefixes. */
module Common {

  /** Python's `None` / value. */
  datatype Option<+T> = None | Some(value: T)

  /** A measurement identifier handed out by the measurement platform. */
  type Uuid = string

  /** An agent (vantage point) of the measurement platform. */
  type AgentId = string

  /** A /24 prefix, as text. */
  type Prefix = string

  /** The /24 prefixes covered by one BGP-announced prefix. */
  type PrefixGroup = seq<Prefix>

  /** A per-agent set of prefixes, as returned by the drivers and pickled. */
  type PerAgent = map<AgentId, set<Prefix>>

  /** A per-agent ranking of prefixes, best first. */
  type RankPerAgent = map<AgentId, seq<Prefix>>

  /** What a budget function returns: (total budget, maximum number of rounds). */
  type Budget = (nat, nat)
}
