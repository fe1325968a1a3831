/**
 * The client-side agent slice: the agent list, the selected agent with their
 * PNRs and stats, and the request flags.
 */
module AgentSlice {
  import opened Wrappers
  import opened Records
  import opened Stats
  import opened SliceErrors
  import opened AgentController

  datatype AgentThunk = FetchAllAgents | FetchAgentPassengers

  function DefaultError(t: AgentThunk): string
  {
    match t
    case FetchAllAgents => "Failed to fetch agents"
    case FetchAgentPassengers => "Failed to fetch agent passengers"
  }

  class AgentState {
    var agents: seq<AgentSummary>
    var selectedAgent: Option<User>
    var agentPassengers: seq<Pnr>
    var stats: Stats
    var loading: bool
    var error: Option<string>

    /** The initial state. */
    constructor ()
      ensures agents == [] && selectedAgent == None && agentPassengers == [] && stats == NoStats
      ensures !loading && error == None
    {
      agents := [];
      selectedAgent := None;
      agentPassengers := [];
      stats := NoStats;
      loading := false;
      error := None;
    }

    /** `clearError`. */
    method ClearError()
      modifies this`error
      ensures error == None
    {
      error := None;
    }

    /** `clearSelectedAgent`: back to no agent, no PNRs and zero stats; the agent list stays. */
    method ClearSelectedAgent()
      modifies this`selectedAgent, this`agentPassengers, this`stats
      ensures selectedAgent == None && agentPassengers == [] && stats == NoStats
    {
      selectedAgent := None;
      agentPassengers := [];
      stats := NoStats;
    }

    /** Both `pending` cases. */
    method RequestPending()
      modifies this`loading, this`error
      ensures loading && error == None
    {
      loading := true;
      error := None;
    }

    /** Both `rejected` cases: the loaded data stay. */
    method RequestRejected(t: AgentThunk, payload: Option<string>)
      modifies this`loading, this`error
      ensures !loading && error == Some(RejectionMessage(payload, DefaultError(t)))
    {
      loading := false;
      error := Some(RejectionMessage(payload, DefaultError(t)));
    }

    /** `fetchAllAgents.fulfilled`: the list is replaced wholesale. */
    method FetchAllAgentsFulfilled(payload: seq<AgentSummary>)
      modifies this`loading, this`agents, this`error
      ensures !loading && error == None && agents == payload
    {
      loading := false;
      agents := payload;
      error := None;
    }

    /** `fetchAgentPassengers.fulfilled`: agent, PNRs and stats all come from the payload. */
    method FetchAgentPassengersFulfilled(payload: AgentListing)
      modifies this`loading, this`selectedAgent, this`agentPassengers, this`stats, this`error
      ensures !loading && error == None
      ensures selectedAgent == Some(payload.agent) && agentPassengers == payload.pnrs && stats == payload.stats
    {
      loading := false;
      selectedAgent := Some(payload.agent);
      agentPassengers := payload.pnrs;
      stats := payload.stats;
      error := None;
    }
  }
}
