/** `FootballEnvController`: one environment's match clock, score, episode
    resets and goal handling. */
module FootballEnvControllers {
  import opened Common
  import opened Hierarchy
  import opened Cubes
  import opened FootballAgents

  const DefaultTimeLimit: int := 60

  // Names of the two statistics written on a timeout.
  const AlbertsRewardStat: string := "Reward_Team/Alberts"
  const KaisRewardStat: string := "Reward_Team/Kais"

  /** The random draws of one agent's reset: a lateral offset in [-1, 1], a
      depth offset in [-5, 5] and a yaw in [80, 120] degrees. */
  datatype AgentDraw = AgentDraw(x: real, z: real, rot: real)
  {
    predicate InRange()
    {
      -1.0 <= x <= 1.0 && -5.0 <= z <= 5.0 && 80.0 <= rot <= 120.0
    }
  }

  /** The random draws of the ball's reset: both offsets in [-2.5, 2.5]. */
  datatype BallDraw = BallDraw(x: real, z: real)
  {
    predicate InRange()
    {
      -2.5 <= x <= 2.5 && -2.5 <= z <= 2.5
    }
  }

  /** Where a reset puts an agent: its initial position plus the drawn
      offset, at the same height. */
  function AgentSpot(initial: Vec3, d: AgentDraw): (p: Vec3)
    ensures p.y == initial.y
    ensures d.InRange() ==> -1.0 <= p.x - initial.x <= 1.0 && -5.0 <= p.z - initial.z <= 5.0
  {
    Add(initial, Vec3(d.x, 0.0, d.z))
  }

  /** Where a reset puts the ball: its starting position plus the drawn
      offset, at the same height. */
  function BallSpot(start: Vec3, d: BallDraw): (p: Vec3)
    ensures p.y == start.y
    ensures d.InRange() ==> -2.5 <= p.x - start.x <= 2.5 && -2.5 <= p.z - start.z <= 2.5
  {
    Add(start, Vec3(d.x, 0.0, d.z))
  }

  /** The match clock: the whole seconds left, the fraction of the current
      second and the time elapsed since the last reset. */
  datatype Clock = Clock(currentTime: int, timer: real, elapsedTime: real)

  /** One physics step of a running clock (`CurrentTime > 0`): the step is
      added to both timers, and a full second on `timer` is traded for one
      second off `CurrentTime`. */
  function Tick(c: Clock, dt: real): (r: Clock)
    requires c.currentTime > 0
    ensures r.elapsedTime == c.elapsedTime + dt
    ensures c.timer + dt >= 1.0 ==> r.currentTime == c.currentTime - 1 && r.timer == c.timer + dt - 1.0
    ensures c.timer + dt < 1.0 ==> r.currentTime == c.currentTime && r.timer == c.timer + dt
    ensures r.elapsedTime - r.timer + r.currentTime as real == c.elapsedTime - c.timer + c.currentTime as real
  {
    var t := c.timer + dt;
    if t >= 1.0 then Clock(c.currentTime - 1, t - 1.0, c.elapsedTime + dt)
    else Clock(c.currentTime, t, c.elapsedTime + dt)
  }

  /** A tick takes at most one second off the clock and never makes it
      negative; with a step under one second it keeps the fraction in
      [0, 1). */
  lemma TickBounds(c: Clock, dt: real)
    requires c.currentTime > 0
    ensures c.currentTime - 1 <= Tick(c, dt).currentTime <= c.currentTime
    ensures Tick(c, dt).currentTime >= 0
    ensures 0.0 <= c.timer < 1.0 && 0.0 <= dt < 1.0 ==> 0.0 <= Tick(c, dt).timer < 1.0
  {
  }

  /** The clock after a run of steps, stopping where it reaches zero (the
      step at zero ends the episode instead of ticking). */
  function RunClock(c: Clock, dts: seq<real>): (r: Clock)
    requires c.currentTime >= 0
    ensures r.currentTime >= 0
    decreases |dts|
  {
    if dts == [] || c.currentTime == 0 then c else RunClock(Tick(c, dts[0]), dts[1..])
  }

  /** Over a run of steps the clock loses at most one second per step, and
      with steps under a second each it keeps the fraction in [0, 1) and
      loses a second only when a full second has elapsed. */
  lemma {:induction false} RunClockBounds(c: Clock, dts: seq<real>)
    requires c.currentTime >= 0
    ensures c.currentTime - |dts| <= RunClock(c, dts).currentTime <= c.currentTime
    ensures 0.0 <= c.timer < 1.0 && (forall k :: 0 <= k < |dts| ==> 0.0 <= dts[k] < 1.0) ==>
              0.0 <= RunClock(c, dts).timer < 1.0
              && (RunClock(c, dts).currentTime as real) + RunClock(c, dts).elapsedTime - RunClock(c, dts).timer
                 == (c.currentTime as real) + c.elapsedTime - c.timer
    decreases |dts|
  {
    if dts != [] && c.currentTime != 0 {
      TickBounds(c, dts[0]);
      RunClockBounds(Tick(c, dts[0]), dts[1..]);
      if 0.0 <= c.timer < 1.0 && (forall k :: 0 <= k < |dts| ==> 0.0 <= dts[k] < 1.0) {
        assert forall k :: 0 <= k < |dts[1..]| ==> dts[1..][k] == dts[k + 1];
      }
    }
  }

  /** How many times `a` occurs in `s`. */
  function Occurrences(s: seq<FootballAgent>, a: FootballAgent): nat
    decreases |s|
  {
    if s == [] then 0 else Occurrences(s[..|s| - 1], a) + (if s[|s| - 1] == a then 1 else 0)
  }

  lemma OccurrencesStep(s: seq<FootballAgent>, i: nat, a: FootballAgent)
    requires i < |s|
    ensures Occurrences(s[..i + 1], a) == Occurrences(s[..i], a) + (if s[i] == a then 1 else 0)
  {
    assert s[..i + 1][..i] == s[..i];
  }

  lemma OccurrencesPositive(s: seq<FootballAgent>, a: FootballAgent)
    requires a in s
    ensures Occurrences(s, a) >= 1
    decreases |s|
  {
    if s[|s| - 1] != a {
      assert a in s[..|s| - 1];
      OccurrencesPositive(s[..|s| - 1], a);
    }
  }

  /** What `k` notifications of a goal pay an agent of the given team in
      the given environment: nothing for a goal in another environment,
      otherwise `k` times the goal's outcome for that team. */
  function GoalPays(k: nat, team: Team, envID: int, e: GoalEvent): real
  {
    if e.envID != envID then 0.0
    else if team == e.teamScored then (k as real) * GoalScoredReward
    else (k as real) * GoalConcededPenalty
  }

  lemma GoalPaysIsRepeatedOutcome(k: nat, team: Team, envID: int, e: GoalEvent)
    ensures GoalPays(k, team, envID, e) == if e.envID == envID then (k as real) * GoalOutcome(team, e.teamScored) else 0.0
  {
  }

  /** No agent listed after `k` and before `n` shares agent `k`'s body. */
  predicate NoBodyAfter(list: seq<FootballAgent>, k: nat, n: nat)
    requires k < |list| && n <= |list|
  {
    forall j :: k < j < n ==> list[j].body != list[k].body
  }

  class FootballEnvController {
    var ID: int
    var timeLimit: int
    /** The ball's object; its transform and rigidbody. */
    const ball: Body
    var agents: seq<FootballAgent>
    /** `PlayerInfo.StartingPos` of each agent, recorded by `Start`. */
    var startingPos: seq<Vec3>
    var currentTime: int
    var timer: real
    var elapsedTime: real
    var ballStartingPos: Vec3
    var iterationsCount: int
    var episodeEnded: bool
    var kaiScore: int
    var albertScore: int
    /** Whether `HandleGoalScored` is subscribed to the goal event. */
    var subscribed: bool
    /** The arguments of every `OnIterationsCountChanged` raised so far. */
    var iterationEvents: seq<int>
    /** The arguments `(envID, kaiScore, albertScore)` of every
        `OnScoreChanged` raised so far. */
    var scoreEvents: seq<(int, int, int)>
    /** The statistics recorded so far. */
    var stats: seq<(string, real)>

    constructor (ball: Body, agents: seq<FootballAgent>)
      ensures this.ball == ball && this.agents == agents
      ensures ID == 0 && timeLimit == DefaultTimeLimit && currentTime == 0
      ensures timer == 0.0 && elapsedTime == 0.0 && iterationsCount == 0 && !episodeEnded
      ensures kaiScore == 0 && albertScore == 0 && !subscribed
      ensures iterationEvents == [] && scoreEvents == [] && stats == []
    {
      this.ball := ball;
      this.agents := agents;
      startingPos := [];
      ID, timeLimit, currentTime := 0, DefaultTimeLimit, 0;
      timer, elapsedTime := 0.0, 0.0;
      ballStartingPos := Zero;
      iterationsCount := 0;
      episodeEnded := false;
      kaiScore, albertScore := 0, 0;
      subscribed := false;
      iterationEvents, scoreEvents, stats := [], [], [];
    }

    function AgentSet(): set<FootballAgent>
      reads this
    {
      set a | a in agents
    }

    function AgentBodies(): set<Body>
      reads this
    {
      set i | 0 <= i < |agents| :: agents[i].body
    }

    /** The cubes whose remembered initial positions a reset reads. */
    function AgentCubes(): set<CubeEntity>
      reads this
    {
      set i | 0 <= i < |agents| :: agents[i].cube
    }

    function GetClock(): Clock
      reads this
    {
      Clock(currentTime, timer, elapsedTime)
    }

    /** Agent `k` is the last in the list with its body, so its reset is
        the one that sticks. */
    predicate LastWithBody(k: nat)
      reads this
      requires k < |agents|
    {
      NoBodyAfter(agents, k, |agents|)
    }

    /** The placement a reset with the given draws leaves: every agent at
        its spot with its drawn yaw (the last listed one, when agents share
        a body), every agent body and the ball stopped, and the ball at its
        spot. */
    predicate Placed(draws: seq<AgentDraw>, ballDraw: BallDraw)
      reads this, AgentSet(), AgentCubes(), AgentBodies(), ball
    {
      |draws| == |agents|
      && (forall k :: 0 <= k < |agents| && LastWithBody(k) && agents[k].body != ball ==>
            agents[k].body.position == AgentSpot(agents[k].cube.initialPosition, draws[k])
            && agents[k].body.yaw == draws[k].rot)
      && (forall k :: 0 <= k < |agents| ==>
            agents[k].body.velocity == Zero && agents[k].body.angularVelocity == Zero)
      && ball.position == BallSpot(ballStartingPos, ballDraw)
      && ball.velocity == Zero && ball.angularVelocity == Zero
    }

    /** `ResetBall`: the ball goes to its starting position plus the draw,
        and stops. */
    method ResetBall(d: BallDraw)
      requires d.InRange()
      modifies ball`position, ball`velocity, ball`angularVelocity
      ensures ball.position == BallSpot(ballStartingPos, d)
      ensures ball.velocity == Zero && ball.angularVelocity == Zero
    {
      ball.position := Add(ballStartingPos, Vec3(d.x, 0.0, d.z));
      ball.velocity := Zero;
      ball.angularVelocity := Zero;
    }

    method IncrementIterationsCount()
      modifies this`iterationsCount, this`iterationEvents
      ensures iterationsCount == old(iterationsCount) + 1
      ensures iterationEvents == old(iterationEvents) + [iterationsCount]
    {
      iterationsCount := iterationsCount + 1;
      iterationEvents := iterationEvents + [iterationsCount];
    }

    method ResetIterationsCount()
      modifies this`iterationsCount, this`iterationEvents
      ensures iterationsCount == 0
      ensures iterationEvents == old(iterationEvents) + [0]
    {
      iterationsCount := 0;
      iterationEvents := iterationEvents + [iterationsCount];
    }

    /** One agent of the reset: its body goes to the cube's initial
        position plus the draw, turns to the drawn yaw, and stops. */
    method PlaceAgent(item: FootballAgent, d: AgentDraw)
      modifies item.body`position, item.body`yaw, item.body`velocity, item.body`angularVelocity
      ensures item.body.position == AgentSpot(item.cube.initialPosition, d) && item.body.yaw == d.rot
      ensures item.body.velocity == Zero && item.body.angularVelocity == Zero
    {
      var newStartPos := Add(item.GetInitialPosition(), Vec3(d.x, 0.0, d.z));
      item.body.position := newStartPos;
      item.body.yaw := d.rot;
      item.body.velocity := Zero;
      item.body.angularVelocity := Zero;
    }

    /** The agent loop of `ResetEnviroment`. */
    method PlaceAgents(draws: seq<AgentDraw>)
      requires |draws| == |agents| && forall k :: 0 <= k < |draws| ==> draws[k].InRange()
      modifies AgentBodies()`position, AgentBodies()`yaw, AgentBodies()`velocity, AgentBodies()`angularVelocity
      ensures forall k :: 0 <= k < |agents| && LastWithBody(k) ==>
                agents[k].body.position == AgentSpot(agents[k].cube.initialPosition, draws[k])
                && agents[k].body.yaw == draws[k].rot
      ensures forall k :: 0 <= k < |agents| ==>
                agents[k].body.velocity == Zero && agents[k].body.angularVelocity == Zero
    {
      var list := agents;
      var i := 0;
      while i < |list|
        invariant 0 <= i <= |list| && list == agents
        invariant forall k {:trigger NoBodyAfter(list, k, i)} :: 0 <= k < i && NoBodyAfter(list, k, i) ==>
                    list[k].body.position == AgentSpot(list[k].cube.initialPosition, draws[k])
                    && list[k].body.yaw == draws[k].rot
        invariant forall k :: 0 <= k < i ==>
                    list[k].body.velocity == Zero && list[k].body.angularVelocity == Zero
      {
        var item := list[i];
        assert item.body in AgentBodies();
        PlaceAgent(item, draws[i]);
        forall k | 0 <= k < i && NoBodyAfter(list, k, i + 1)
          ensures NoBodyAfter(list, k, i) && list[k].body != item.body
        {
        }
        i := i + 1;
      }
    }

    /** `ResetEnviroment`: a new episode. Agents and ball are placed by the
        draws, the clock is rewound to the time limit, the iteration count
        goes up by one; the scores are kept. */
    method ResetEnviroment(draws: seq<AgentDraw>, ballDraw: BallDraw)
      requires |draws| == |agents| && forall k :: 0 <= k < |draws| ==> draws[k].InRange()
      requires ballDraw.InRange()
      modifies this`episodeEnded, this`currentTime, this`timer, this`elapsedTime, this`iterationsCount, this`iterationEvents
      modifies AgentBodies()`position, AgentBodies()`yaw, AgentBodies()`velocity, AgentBodies()`angularVelocity
      modifies ball`position, ball`velocity, ball`angularVelocity
      ensures !episodeEnded && GetClock() == Clock(timeLimit, 0.0, 0.0)
      ensures iterationsCount == old(iterationsCount) + 1
      ensures iterationEvents == old(iterationEvents) + [iterationsCount]
      ensures Placed(draws, ballDraw)
    {
      episodeEnded := false;
      PlaceAgents(draws);
      ResetBall(ballDraw);
      currentTime := timeLimit;
      timer := 0.0;
      elapsedTime := 0.0;
      IncrementIterationsCount();
    }

    /** `SetTimeLimit`: the new limit also restarts the clock. */
    method SetTimeLimit(limit: int)
      modifies this`timeLimit, this`currentTime, this`timer, this`elapsedTime
      ensures GetTimeLimit() == limit && GetClock() == Clock(limit, 0.0, 0.0)
    {
      timeLimit := limit;
      currentTime := limit;
      timer := 0.0;
      elapsedTime := 0.0;
    }

    function GetTimeLimit(): (l: int)
      reads this
      ensures l == timeLimit
    {
      timeLimit
    }

    method SetEnviromentID(id: int)
      modifies this`ID
      ensures GetEnviromentID() == id
    {
      ID := id;
    }

    function GetEnviromentID(): (id: int)
      reads this
      ensures id == ID
    {
      ID
    }

    /** `GetScore`: a new array `{ kaiScore, albertScore }`. */
    method GetScore() returns (score: array<int>)
      ensures fresh(score) && score[..] == [kaiScore, albertScore]
    {
      score := new int[2];
      score[0], score[1] := kaiScore, albertScore;
    }

    /** Every listed agent gets the timeout penalty and an episode end, once
        per listing. */
    method PenalizeAgents()
      modifies AgentSet()`reward, AgentSet()`endEpisodes
      ensures forall a :: a in agents ==>
                a.reward == old(a.reward) + (Occurrences(agents, a) as real) * TimeLimitPenalty
                && a.endEpisodes == old(a.endEpisodes) + Occurrences(agents, a)
    {
      var i := 0;
      while i < |agents|
        invariant 0 <= i <= |agents|
        invariant forall a :: a in agents ==>
                    a.reward == old(a.reward) + (Occurrences(agents[..i], a) as real) * TimeLimitPenalty
                    && a.endEpisodes == old(a.endEpisodes) + Occurrences(agents[..i], a)
      {
        agents[i].AddReward(TimeLimitPenalty);
        agents[i].EndEpisode();
        forall a | a in agents
          ensures Occurrences(agents[..i + 1], a) == Occurrences(agents[..i], a) + (if agents[i] == a then 1 else 0)
        {
          OccurrencesStep(agents, i, a);
        }
        i := i + 1;
      }
      assert agents[..i] == agents;
    }

    /** Every listed agent handles the goal, once per listing. */
    method NotifyAgents(e: GoalEvent)
      modifies AgentSet()`reward, AgentSet()`endEpisodes
      ensures forall a :: a in agents ==>
                a.reward == old(a.reward) + GoalPays(Occurrences(agents, a), a.team, a.cube.envID, e)
                && a.endEpisodes == old(a.endEpisodes) + (if e.envID == a.cube.envID then Occurrences(agents, a) else 0)
    {
      var i := 0;
      while i < |agents|
        invariant 0 <= i <= |agents|
        invariant forall a :: a in agents ==>
                    a.reward == old(a.reward) + GoalPays(Occurrences(agents[..i], a), a.team, a.cube.envID, e)
                    && a.endEpisodes == old(a.endEpisodes) + (if e.envID == a.cube.envID then Occurrences(agents[..i], a) else 0)
      {
        agents[i].HandleGoalScored(e);
        forall a | a in agents
          ensures Occurrences(agents[..i + 1], a) == Occurrences(agents[..i], a) + (if agents[i] == a then 1 else 0)
        {
          OccurrencesStep(agents, i, a);
        }
        i := i + 1;
      }
      assert agents[..i] == agents;
    }

    /** `EndEpisodeByTimer`: does nothing when the episode has already
        ended; otherwise ends it for every agent with the timeout penalty
        and starts a new one. */
    method EndEpisodeByTimer(draws: seq<AgentDraw>, ballDraw: BallDraw)
      requires |draws| == |agents| && forall k :: 0 <= k < |draws| ==> draws[k].InRange()
      requires ballDraw.InRange()
      modifies this`episodeEnded, this`currentTime, this`timer, this`elapsedTime, this`iterationsCount
      modifies this`iterationEvents, this`stats
      modifies AgentSet()`reward, AgentSet()`endEpisodes
      modifies AgentBodies()`position, AgentBodies()`yaw, AgentBodies()`velocity, AgentBodies()`angularVelocity
      modifies ball`position, ball`velocity, ball`angularVelocity
      ensures old(episodeEnded) ==> unchanged(this) && unchanged(AgentSet()) && unchanged(AgentBodies()) && unchanged(ball)
      ensures !old(episodeEnded) ==> forall a :: a in agents ==>
                a.reward == old(a.reward) + (Occurrences(agents, a) as real) * TimeLimitPenalty
                && a.endEpisodes == old(a.endEpisodes) + Occurrences(agents, a)
      ensures !old(episodeEnded) ==>
                stats == old(stats) + [(AlbertsRewardStat, TimeLimitPenalty), (KaisRewardStat, TimeLimitPenalty)]
                && !episodeEnded && GetClock() == Clock(timeLimit, 0.0, 0.0)
                && iterationsCount == old(iterationsCount) + 1
                && iterationEvents == old(iterationEvents) + [iterationsCount]
                && Placed(draws, ballDraw)
    {
      if episodeEnded {
        return;
      }
      episodeEnded := true;
      PenalizeAgents();
      stats := stats + [(AlbertsRewardStat, TimeLimitPenalty), (KaisRewardStat, TimeLimitPenalty)];
      ResetEnviroment(draws, ballDraw);
    }

    /** `HandleTimer`: with seconds left the clock ticks and nothing else
        changes; at zero (or below) the episode times out. */
    method HandleTimer(fixedDt: real, draws: seq<AgentDraw>, ballDraw: BallDraw)
      requires |draws| == |agents| && forall k :: 0 <= k < |draws| ==> draws[k].InRange()
      requires ballDraw.InRange()
      modifies this`episodeEnded, this`currentTime, this`timer, this`elapsedTime, this`iterationsCount
      modifies this`iterationEvents, this`stats
      modifies AgentSet()`reward, AgentSet()`endEpisodes
      modifies AgentBodies()`position, AgentBodies()`yaw, AgentBodies()`velocity, AgentBodies()`angularVelocity
      modifies ball`position, ball`velocity, ball`angularVelocity
      ensures old(episodeEnded) ==> unchanged(this) && unchanged(AgentSet()) && unchanged(AgentBodies()) && unchanged(ball)
      ensures !old(episodeEnded) && old(currentTime) > 0 ==>
                GetClock() == Tick(old(GetClock()), fixedDt) && !episodeEnded
                && iterationsCount == old(iterationsCount) && iterationEvents == old(iterationEvents)
                && stats == old(stats) && unchanged(AgentSet()) && unchanged(AgentBodies()) && unchanged(ball)
      ensures !old(episodeEnded) && old(currentTime) <= 0 ==> forall a :: a in agents ==>
                a.reward == old(a.reward) + (Occurrences(agents, a) as real) * TimeLimitPenalty
                && a.endEpisodes == old(a.endEpisodes) + Occurrences(agents, a)
      ensures !old(episodeEnded) && old(currentTime) <= 0 ==>
                stats == old(stats) + [(AlbertsRewardStat, TimeLimitPenalty), (KaisRewardStat, TimeLimitPenalty)]
                && !episodeEnded && GetClock() == Clock(timeLimit, 0.0, 0.0)
                && iterationsCount == old(iterationsCount) + 1
                && iterationEvents == old(iterationEvents) + [iterationsCount]
                && Placed(draws, ballDraw)
    {
      if episodeEnded {
        return;
      }
      if currentTime > 0 {
        timer := timer + fixedDt;
        elapsedTime := elapsedTime + fixedDt;
        if timer >= 1.0 {
          timer := timer - 1.0;
          currentTime := currentTime - 1;
        }
      } else {
        EndEpisodeByTimer(draws, ballDraw);
      }
    }

    /** `FixedUpdate`: the timer step, skipped once the episode has
        ended. */
    method FixedUpdate(fixedDt: real, draws: seq<AgentDraw>, ballDraw: BallDraw)
      requires |draws| == |agents| && forall k :: 0 <= k < |draws| ==> draws[k].InRange()
      requires ballDraw.InRange()
      modifies this`episodeEnded, this`currentTime, this`timer, this`elapsedTime, this`iterationsCount
      modifies this`iterationEvents, this`stats
      modifies AgentSet()`reward, AgentSet()`endEpisodes
      modifies AgentBodies()`position, AgentBodies()`yaw, AgentBodies()`velocity, AgentBodies()`angularVelocity
      modifies ball`position, ball`velocity, ball`angularVelocity
      ensures old(episodeEnded) ==> unchanged(this) && unchanged(AgentSet()) && unchanged(AgentBodies()) && unchanged(ball)
      ensures !old(episodeEnded) && old(currentTime) > 0 ==>
                GetClock() == Tick(old(GetClock()), fixedDt) && !episodeEnded
                && iterationsCount == old(iterationsCount) && iterationEvents == old(iterationEvents)
                && stats == old(stats) && unchanged(AgentSet()) && unchanged(AgentBodies()) && unchanged(ball)
      ensures !old(episodeEnded) && old(currentTime) <= 0 ==> forall a :: a in agents ==>
                a.reward == old(a.reward) + (Occurrences(agents, a) as real) * TimeLimitPenalty
                && a.endEpisodes == old(a.endEpisodes) + Occurrences(agents, a)
      ensures !old(episodeEnded) && old(currentTime) <= 0 ==>
                stats == old(stats) + [(AlbertsRewardStat, TimeLimitPenalty), (KaisRewardStat, TimeLimitPenalty)]
                && !episodeEnded && GetClock() == Clock(timeLimit, 0.0, 0.0)
                && iterationsCount == old(iterationsCount) + 1
                && iterationEvents == old(iterationEvents) + [iterationsCount]
                && Placed(draws, ballDraw)
    {
      if episodeEnded {
        return;
      }
      HandleTimer(fixedDt, draws, ballDraw);
    }

    /** `HandleGoalScored`: a goal in another environment changes nothing.
        A goal here adds one to the scoring team's count, announces the new
        score, lets every agent handle the goal, and starts a new
        episode. */
    method HandleGoalScored(e: GoalEvent, draws: seq<AgentDraw>, ballDraw: BallDraw)
      requires |draws| == |agents| && forall k :: 0 <= k < |draws| ==> draws[k].InRange()
      requires ballDraw.InRange()
      modifies this`kaiScore, this`albertScore, this`scoreEvents
      modifies this`episodeEnded, this`currentTime, this`timer, this`elapsedTime, this`iterationsCount, this`iterationEvents
      modifies AgentSet()`reward, AgentSet()`endEpisodes
      modifies AgentBodies()`position, AgentBodies()`yaw, AgentBodies()`velocity, AgentBodies()`angularVelocity
      modifies ball`position, ball`velocity, ball`angularVelocity
      ensures e.envID != ID ==> unchanged(this) && unchanged(AgentSet()) && unchanged(AgentBodies()) && unchanged(ball)
      ensures e.envID == ID ==>
                kaiScore == old(kaiScore) + (if e.teamScored == Kais then 1 else 0)
                && albertScore == old(albertScore) + (if e.teamScored == Alberts then 1 else 0)
                && scoreEvents == old(scoreEvents) + [(ID, kaiScore, albertScore)]
      ensures e.envID == ID ==> forall a :: a in agents ==>
                a.reward == old(a.reward) + GoalPays(Occurrences(agents, a), a.team, a.cube.envID, e)
                && a.endEpisodes == old(a.endEpisodes) + (if e.envID == a.cube.envID then Occurrences(agents, a) else 0)
      ensures e.envID == ID ==>
                !episodeEnded && GetClock() == Clock(timeLimit, 0.0, 0.0)
                && iterationsCount == old(iterationsCount) + 1
                && iterationEvents == old(iterationEvents) + [iterationsCount]
                && Placed(draws, ballDraw)
    {
      if e.envID != ID {
        return;
      }
      ScoreGoal(e, draws, ballDraw);
    }

    /** The part of `HandleGoalScored` after the environment check. */
    method ScoreGoal(e: GoalEvent, draws: seq<AgentDraw>, ballDraw: BallDraw)
      requires |draws| == |agents| && forall k :: 0 <= k < |draws| ==> draws[k].InRange()
      requires ballDraw.InRange() && e.envID == ID
      modifies this`kaiScore, this`albertScore, this`scoreEvents
      modifies this`episodeEnded, this`currentTime, this`timer, this`elapsedTime, this`iterationsCount, this`iterationEvents
      modifies AgentSet()`reward, AgentSet()`endEpisodes
      modifies AgentBodies()`position, AgentBodies()`yaw, AgentBodies()`velocity, AgentBodies()`angularVelocity
      modifies ball`position, ball`velocity, ball`angularVelocity
      ensures kaiScore == old(kaiScore) + (if e.teamScored == Kais then 1 else 0)
                && albertScore == old(albertScore) + (if e.teamScored == Alberts then 1 else 0)
                && scoreEvents == old(scoreEvents) + [(ID, kaiScore, albertScore)]
      ensures forall a :: a in agents ==>
                a.reward == old(a.reward) + GoalPays(Occurrences(agents, a), a.team, a.cube.envID, e)
                && a.endEpisodes == old(a.endEpisodes) + (if e.envID == a.cube.envID then Occurrences(agents, a) else 0)
      ensures !episodeEnded && GetClock() == Clock(timeLimit, 0.0, 0.0)
                && iterationsCount == old(iterationsCount) + 1
                && iterationEvents == old(iterationEvents) + [iterationsCount]
                && Placed(draws, ballDraw)
    {
      if e.teamScored == Kais {
        kaiScore := kaiScore + 1;
      } else {
        albertScore := albertScore + 1;
      }
      scoreEvents := scoreEvents + [(ID, kaiScore, albertScore)];
      NotifyAgents(e);
      label notified:
      ResetEnviroment(draws, ballDraw);
      assert unchanged@notified(this`kaiScore, this`albertScore, this`scoreEvents);
      assert unchanged@notified(AgentSet()) && unchanged@notified(AgentCubes());
    }

    /** The loop of `Start` that records each agent's starting position. */
    method RecordStartingPositions()
      modifies this`startingPos
      ensures |startingPos| == |agents| && forall k :: 0 <= k < |agents| ==> startingPos[k] == agents[k].cube.initialPosition
    {
      var i := 0;
      startingPos := [];
      while i < |agents|
        invariant 0 <= i <= |agents|
        invariant |startingPos| == i && forall k :: 0 <= k < i ==> startingPos[k] == agents[k].cube.initialPosition
      {
        startingPos := startingPos + [agents[i].GetInitialPosition()];
        i := i + 1;
      }
    }

    /** `Start`: subscribes to the goal event, remembers where the ball and
        the agents start, zeroes the clock's fractions and the iteration
        count, and resets the environment (so the count is then 1). */
    method Start(draws: seq<AgentDraw>, ballDraw: BallDraw)
      requires |draws| == |agents| && forall k :: 0 <= k < |draws| ==> draws[k].InRange()
      requires ballDraw.InRange()
      modifies this`subscribed, this`ballStartingPos, this`startingPos
      modifies this`episodeEnded, this`currentTime, this`timer, this`elapsedTime, this`iterationsCount, this`iterationEvents
      modifies AgentBodies()`position, AgentBodies()`yaw, AgentBodies()`velocity, AgentBodies()`angularVelocity
      modifies ball`position, ball`velocity, ball`angularVelocity
      ensures subscribed && ballStartingPos == old(ball.position)
      ensures |startingPos| == |agents| && forall k :: 0 <= k < |agents| ==> startingPos[k] == agents[k].cube.initialPosition
      ensures iterationsCount == 1 && iterationEvents == old(iterationEvents) + [1]
      ensures !episodeEnded && GetClock() == Clock(timeLimit, 0.0, 0.0)
      ensures Placed(draws, ballDraw)
    {
      subscribed := true;
      ballStartingPos := ball.position;
      RecordStartingPositions();
      currentTime := timeLimit;
      timer := 0.0;
      elapsedTime := 0.0;
      iterationsCount := 0;
      episodeEnded := false;
      label recorded:
      ResetEnviroment(draws, ballDraw);
      assert unchanged@recorded(this`subscribed, this`ballStartingPos, this`startingPos);
      assert unchanged@recorded(AgentCubes());
    }
  }

  /** `FootballEnvController.GetCurrentEnviromentID`: the id of the
      controller on the object or its nearest ancestor; none stands for the
      null reference exception when there is no such controller. The walk
      up the parents that precedes the lookup is kept, and its result
      discarded. */
  method GetCurrentEnviromentID(parent: map<nat, nat>, controllers: map<nat, FootballEnvController>, o: nat)
    returns (id: Option<int>)
    requires Ordered(parent)
    ensures var n := NearestWith(parent, controllers.Keys, o);
            id == if n.Some? then Some(controllers[n.value].ID) else None
    ensures id.None? <==> forall i :: 0 <= i < |Chain(parent, o)| ==> Chain(parent, o)[i] !in controllers
  {
    var _ := WalkUp(parent, controllers.Keys, o);
    NearestIsFirstOnChain(parent, controllers.Keys, o);
    var n := NearestWith(parent, controllers.Keys, o);
    if n.None? {
      return None;
    }
    id := Some(controllers[n.value].GetEnviromentID());
  }
}
