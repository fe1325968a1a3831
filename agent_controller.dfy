/**
 * The admin views over agents: every agent with a five-bucket tally, and one
 * agent's PNRs under an optional status filter.
 */
module AgentController {
  import opened Wrappers
  import opened Records
  import opened Collection
  import opened Stats
  import opened PassengerController

  /** A row of the agent list: the agent and the tally of the PNRs they own. */
  datatype AgentSummary = AgentSummary(agent: User, stats: AgentStats)

  /** The body of `getAgentPassengers`: the agent, the selected PNRs, stats over all of them. */
  datatype AgentListing = AgentListing(agent: User, pnrs: seq<Pnr>, stats: Stats)

  /** The user collection, keyed by id. */
  ghost predicate UsersValid(users: map<ObjectId, User>)
  {
    forall k :: k in users ==> users[k].id == k
  }

  function UserCreatedAt(u: User): nat
  {
    u.createdAt
  }

  /** `User.find({ role: 'agent' }).sort({ createdAt: -1 })`: every agent once, newest first. */
  method FindAgents(users: map<ObjectId, User>) returns (agents: seq<User>)
    requires UsersValid(users)
    ensures forall i :: 0 <= i < |agents| ==>
      agents[i].id in users && users[agents[i].id] == agents[i] && agents[i].role == Agent
    ensures forall k :: k in users && users[k].role == Agent ==> exists i :: 0 <= i < |agents| && agents[i].id == k
    ensures forall i, j :: 0 <= i < j < |agents| ==> agents[i].id != agents[j].id
    ensures forall i, j :: 0 <= i < j < |agents| ==> agents[i].createdAt >= agents[j].createdAt
  {
    ghost var keys;
    agents, keys := FindSorted(users, (u: User) => u.role == Agent, UserCreatedAt);
    forall k | k in users && users[k].role == Agent
      ensures exists i :: 0 <= i < |agents| && agents[i].id == k
    {
      assert k in keys;
      var i :| 0 <= i < |keys| && keys[i] == k;
      assert agents[i].id == k;
    }
    forall i, j | 0 <= i < j < |agents|
      ensures agents[i].createdAt >= agents[j].createdAt
    {
      assert UserCreatedAt(agents[i]) >= UserCreatedAt(agents[j]);
    }
  }

  /** The `agents.map(...)` of `getAllAgents`: each agent with the tally of the PNRs they own. */
  method WithStats(store: PnrStore, agents: seq<User>) returns (r: seq<AgentSummary>)
    requires store.Valid()
    ensures |r| == |agents|
    ensures forall j :: 0 <= j < |r| ==> r[j] == AgentSummary(agents[j], OwnerAgentStats(store.records, agents[j].id))
  {
    ghost var m := store.records;
    r := [];
    for i := 0 to |agents|
      invariant store.records == m
      invariant |r| == i
      invariant forall j :: 0 <= j < i ==> r[j] == AgentSummary(agents[j], OwnerAgentStats(m, agents[j].id))
    {
      var all := store.FindOwned(agents[i].id);
      r := r + [AgentSummary(agents[i], AgentTally(all))];
    }
  }

  /**
   * `getAllAgents`: every user whose role is agent, once each, newest first,
   * each with the counts of the PNRs they created.
   */
  method GetAllAgents(store: PnrStore, users: map<ObjectId, User>) returns (r: seq<AgentSummary>)
    requires store.Valid() && UsersValid(users)
    ensures forall i :: 0 <= i < |r| ==>
      r[i].agent.id in users && users[r[i].agent.id] == r[i].agent && r[i].agent.role == Agent
    ensures forall k :: k in users && users[k].role == Agent ==> exists i :: 0 <= i < |r| && r[i].agent.id == k
    ensures forall i, j :: 0 <= i < j < |r| ==> r[i].agent.id != r[j].agent.id
    ensures forall i, j :: 0 <= i < j < |r| ==> r[i].agent.createdAt >= r[j].agent.createdAt
    ensures forall i :: 0 <= i < |r| ==> r[i].stats == OwnerAgentStats(store.records, r[i].agent.id)
    ensures forall i :: 0 <= i < |r| ==>
      r[i].stats.pending + r[i].stats.approved + r[i].stats.declined + r[i].stats.partially == r[i].stats.total
  {
    var agents := FindAgents(users);
    r := WithStats(store, agents);
    forall k | k in users && users[k].role == Agent
      ensures exists i :: 0 <= i < |r| && r[i].agent.id == k
    {
      var i :| 0 <= i < |agents| && agents[i].id == k;
      assert r[i].agent.id == k;
    }
    forall i | 0 <= i < |r|
      ensures r[i].stats.pending + r[i].stats.approved + r[i].stats.declined + r[i].stats.partially == r[i].stats.total
    {
      OwnerAgentStatsPartition(store.records, r[i].agent.id);
    }
  }

  /**
   * `getAgentPassengers`: an unknown id is not found, a non-agent is refused;
   * otherwise the agent's PNRs under the filter and stats over all their PNRs.
   */
  method GetAgentPassengers(store: PnrStore, users: map<ObjectId, User>, agentId: ObjectId, status: Option<string>)
    returns (r: Result<AgentListing, Error>)
    requires store.Valid()
    ensures agentId !in users ==> r == Err(AgentNotFound)
    ensures agentId in users && users[agentId].role != Agent ==> r == Err(NotAnAgent)
    ensures agentId in users && users[agentId].role == Agent ==>
      && r.Ok?
      && r.value.agent == users[agentId]
      && IsListing(store.records, agentId, StatusFilter(status), r.value.pnrs)
      && r.value.stats == OwnerStats(store.records, agentId)
  {
    if agentId !in users {
      return Err(AgentNotFound);
    }
    var agent := users[agentId];
    if agent.role != Agent {
      return Err(NotAnAgent);
    }
    var query := AnyPnr.(owner := Some(agentId));
    var filter := StatusFilter(status);
    if filter.Some? {
      query := query.(status := filter);
    }
    assert query == AnyPnr.(owner := Some(agentId), status := filter);
    var pnrs := store.FindMany(query);
    ListingOfQuery(store.records, agentId, filter, pnrs);
    var all := store.FindOwned(agentId);
    r := Ok(AgentListing(agent, pnrs, Tally(all)));
  }
}
