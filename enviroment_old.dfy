/** `Enviroment_Old`: the earlier environment component, which also caches
    the football agents below it. */
module EnviromentsOld {
  import opened Common
  import opened Hierarchy
  import opened FootballAgents

  /** `Array.FindAll` with the team-id test: the agents whose behaviour team
      id is `teamID`, in their original order. */
  function AgentsOfTeam(agents: seq<FootballAgent>, teamID: int): (r: seq<FootballAgent>)
    reads agents
    ensures |r| <= |agents|
    ensures forall i :: 0 <= i < |r| ==> r[i] in agents && r[i].behaviorTeamId == teamID
    ensures forall i :: 0 <= i < |agents| && agents[i].behaviorTeamId == teamID ==> agents[i] in r
    decreases |agents|
  {
    if agents == [] then []
    else
      var rest := AgentsOfTeam(agents[1..], teamID);
      if agents[0].behaviorTeamId == teamID then [agents[0]] + rest else rest
  }

  /** Filtering distributes over concatenation, so the result keeps the
      agents' relative order. */
  lemma {:induction false} AgentsOfTeamPreservesOrder(xs: seq<FootballAgent>, ys: seq<FootballAgent>, teamID: int)
    ensures AgentsOfTeam(xs + ys, teamID) == AgentsOfTeam(xs, teamID) + AgentsOfTeam(ys, teamID)
    decreases |xs|
  {
    if xs == [] {
      assert xs + ys == ys;
    } else {
      assert (xs + ys)[1..] == xs[1..] + ys;
      AgentsOfTeamPreservesOrder(xs[1..], ys, teamID);
    }
  }

  class EnviromentOld {
    var ID: int
    /** The agents found below the environment when it woke up. */
    var footballAgents: seq<FootballAgent>
    var destroyRequested: bool

    /** `Awake`: caches the agents below the environment. */
    constructor (id: int, agentsBelow: seq<FootballAgent>)
      ensures ID == id && footballAgents == agentsBelow && !destroyRequested
    {
      ID := id;
      footballAgents := agentsBelow;
      destroyRequested := false;
    }

    method SetEnviromentID(id: int)
      modifies this`ID
      ensures GetEnviromentID() == id
    {
      ID := id;
    }

    function GetEnviromentID(): (id: int)
      reads this
      ensures id == ID
    {
      ID
    }

    method DestroyEnviroment()
      modifies this`destroyRequested
      ensures destroyRequested
    {
      destroyRequested := true;
    }

    /** Replaces the cache with the agents currently below. */
    method InitializeAgents(agentsBelow: seq<FootballAgent>)
      modifies this`footballAgents
      ensures footballAgents == agentsBelow
    {
      footballAgents := agentsBelow;
    }

    /** The cached agents of one team: exactly those with that team id. */
    function GetFootballAgentsFromTeamID(teamID: int): (r: seq<FootballAgent>)
      reads this, footballAgents
      ensures forall i :: 0 <= i < |r| ==> r[i] in footballAgents && r[i].GetTeamID() == teamID
      ensures forall i :: 0 <= i < |footballAgents| && footballAgents[i].GetTeamID() == teamID ==> footballAgents[i] in r
    {
      AgentsOfTeam(footballAgents, teamID)
    }
  }

  /** The id of the nearest `Enviroment_Old` on the object or its
      ancestors; None stands for the null reference exception. */
  method GetCurrentEnviromentID(parent: map<nat, nat>, envs: map<nat, EnviromentOld>, o: nat) returns (id: Option<int>)
    requires Ordered(parent)
    ensures var n := NearestWith(parent, envs.Keys, o);
            id == if n.Some? then Some(envs[n.value].ID) else None
    ensures id.None? <==> forall i :: 0 <= i < |Chain(parent, o)| ==> Chain(parent, o)[i] !in envs
  {
    var _ := WalkUp(parent, envs.Keys, o);
    NearestIsFirstOnChain(parent, envs.Keys, o);
    var n := NearestWith(parent, envs.Keys, o);
    if n.None? {
      return None;
    }
    id := Some(envs[n.value].GetEnviromentID());
  }
}
