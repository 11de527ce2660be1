/** What every agent carries: an objective, a position (its role label) and a status. */
module Common {

  /** The stages of an agent's state machine; `Finished` ends its loop. */
  datatype AgentStatus = Discovery | Working | UnitTesting | Finished

  datatype AgentAttributes = AgentAttributes(objective: string, position: string, status: AgentStatus)

  /** A ranking of the statuses that each agent's transitions decrease, except a return to rework. */
  function Rank(s: AgentStatus): nat {
    match s
    case Discovery => 3
    case Working => 2
    case UnitTesting => 1
    case Finished => 0
  }
}
