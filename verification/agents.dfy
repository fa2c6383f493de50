/** Leaderboard entries: the raw objects of a payload's `agents` array and the
    records `pollOnce` turns them into. */
module Agents {
  import opened Options

  /** One element of `json.agents`; `None` is an absent (or `null`) field. */
  datatype RawAgent = RawAgent(
    rank: Option<int>,
    name: Option<string>,
    amount: Option<int>,
    sales: Option<int>,
    team: Option<string>,
    avatar: Option<string>)

  /** A normalised record, as stored in the page's agent list. */
  datatype Agent = Agent(
    rank: int,
    name: string,
    amount: int,
    sales: int,
    team: string,
    avatar: string)

  /** The record built for the raw agent at 0-based position `index`. */
  function NormalizeAgent(a: RawAgent, index: nat): (r: Agent)
    ensures a.rank.Some? ==> r.rank == a.rank.value
    ensures a.rank.None? ==> r.rank == index + 1
    ensures a.name.Some? ==> r.name == a.name.value
    ensures a.name.None? ==> r.name == ""
    ensures a.amount.Some? ==> r.amount == a.amount.value
    ensures a.amount.None? ==> r.amount == 0
    ensures a.sales.Some? ==> r.sales == a.sales.value
    ensures a.sales.None? ==> r.sales == 0
    ensures a.team.Some? ==> r.team == a.team.value
    ensures a.team.None? ==> r.team == ""
    ensures a.avatar.Some? ==> r.avatar == a.avatar.value
    ensures a.avatar.None? ==> r.avatar == ""
  {
    Agent(
      a.rank.GetOr(index + 1),
      a.name.GetOr(""),
      a.amount.GetOr(0),
      a.sales.GetOr(0),
      a.team.GetOr(""),
      a.avatar.GetOr(""))
  }

  /** The records for `agents`, whose first element sits at position `start`. */
  function NormalizeFrom(agents: seq<RawAgent>, start: nat): (r: seq<Agent>)
    ensures |r| == |agents|
    ensures forall i :: 0 <= i < |agents| ==> r[i] == NormalizeAgent(agents[i], start + i)
  {
    if agents == [] then []
    else [NormalizeAgent(agents[0], start)] + NormalizeFrom(agents[1..], start + 1)
  }

  /** The `json.agents.map(...)` step of `pollOnce`: one record per raw agent, in
      order, with the source rank or else the 1-based position, and empty or zero
      defaults for the missing fields. */
  function Normalize(agents: seq<RawAgent>): (r: seq<Agent>)
    ensures |r| == |agents|
    ensures forall i :: 0 <= i < |agents| ==>
      && (agents[i].rank.Some? ==> r[i].rank == agents[i].rank.value)
      && (agents[i].rank.None? ==> r[i].rank == i + 1)
      && (agents[i].name.Some? ==> r[i].name == agents[i].name.value)
      && (agents[i].name.None? ==> r[i].name == "")
      && (agents[i].amount.Some? ==> r[i].amount == agents[i].amount.value)
      && (agents[i].amount.None? ==> r[i].amount == 0)
      && (agents[i].sales.Some? ==> r[i].sales == agents[i].sales.value)
      && (agents[i].sales.None? ==> r[i].sales == 0)
      && (agents[i].team.Some? ==> r[i].team == agents[i].team.value)
      && (agents[i].team.None? ==> r[i].team == "")
      && (agents[i].avatar.Some? ==> r[i].avatar == agents[i].avatar.value)
      && (agents[i].avatar.None? ==> r[i].avatar == "")
  {
    NormalizeFrom(agents, 0)
  }
}
