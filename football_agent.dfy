/** `FootballAgent`: the learning agent of the football environment, its
    per-step shaping rewards, its terminal reward and its team id. */
module FootballAgents {
  import opened Common
  import opened Actions
  import opened Cubes

  /** The reward for the ball getting closer to the goal (a literal in the
      step, not one of the `Rewards` constants). */
  const BallCloserToGoalReward: real := 0.005
  /** Below this speed the ball is not considered moving. */
  const MovingBallSpeed: real := 0.1
  /** A shot counts only above this alignment with the goal direction. */
  const ShotAlignment: real := 0.5
  /** The speed a shot's reward is divided by. */
  const ShotSpeedScale: real := 4.5

  /** What an agent step reads from the scene: the agent's forward axis,
      the agent-ball distance, the ball's speed, the alignment of the ball's
      velocity with the direction from ball to goal, and the ball-goal
      distance. */
  datatype StepSenses = StepSenses(forward: Vec3, ballDistance: real, ballSpeed: real,
                                   shotDot: real, ballToGoalDistance: real)

  /** Rewarded when the agent is no farther from the ball than at the last
      step. */
  function ApproachTerm(ballDistance: real, lastBallDistance: real): (r: real)
    ensures r == ApproachBallReward <==> ballDistance <= lastBallDistance
    ensures r == 0.0 <==> ballDistance > lastBallDistance
  {
    if ballDistance <= lastBallDistance then ApproachBallReward else 0.0
  }

  /** Rewarded when the ball moves faster than 0.1 and its velocity points
      towards the goal with alignment above 0.5; the reward grows with the
      alignment and the speed. */
  function ShotReward(speed: real, dot: real): (r: real)
    ensures r > 0.0 <==> speed > MovingBallSpeed && dot > ShotAlignment
    ensures r == 0.0 <==> !(speed > MovingBallSpeed && dot > ShotAlignment)
    ensures r > 0.0 ==> r * ShotSpeedScale == BallMovingTowardGoal * dot * speed
  {
    if speed > MovingBallSpeed then
      if dot > ShotAlignment then BallMovingTowardGoal * dot * (speed / ShotSpeedScale) else 0.0
    else 0.0
  }

  /** Rewarded when the ball is strictly closer to the goal than at the
      last step. */
  function GoalwardTerm(ballToGoal: real, lastBallToGoal: real): (r: real)
    ensures r == BallCloserToGoalReward <==> ballToGoal < lastBallToGoal
    ensures r == 0.0 <==> ballToGoal >= lastBallToGoal
  {
    if ballToGoal < lastBallToGoal then BallCloserToGoalReward else 0.0
  }

  /** The reward one `OnActionReceived` adds: the kick and dash penalties
      when they fire, the three shaping terms, and the move penalty. */
  function StepReward(kickFired: bool, dashFired: bool, s: StepSenses,
                      lastBallDistance: real, lastBallToGoal: real): (r: real)
    ensures r >= KickPenalty + DashPenalty + MovePenalty
    ensures !kickFired && !dashFired && s.ballDistance > lastBallDistance
            && s.ballSpeed <= MovingBallSpeed && s.ballToGoalDistance >= lastBallToGoal
            ==> r == MovePenalty
  {
    (if kickFired then KickPenalty else 0.0)
    + (if dashFired then DashPenalty else 0.0)
    + ApproachTerm(s.ballDistance, lastBallDistance)
    + ShotReward(s.ballSpeed, s.shotDot)
    + GoalwardTerm(s.ballToGoalDistance, lastBallToGoal)
    + MovePenalty
  }

  /** A fired kick, and a fired dash, each cost their penalty exactly once,
      whatever else happens in the step. */
  lemma ActionPenaltiesExactlyOnce(kickFired: bool, dashFired: bool, s: StepSenses, lastBall: real, lastGoal: real)
    ensures StepReward(true, dashFired, s, lastBall, lastGoal) - StepReward(false, dashFired, s, lastBall, lastGoal) == KickPenalty
    ensures StepReward(kickFired, true, s, lastBall, lastGoal) - StepReward(kickFired, false, s, lastBall, lastGoal) == DashPenalty
  {
  }

  /** The terminal reward of a goal: +1 to the scoring team, -1 to the
      other. */
  function GoalOutcome(team: Team, scored: Team): (r: real)
    ensures r == GoalScoredReward <==> team == scored
    ensures r == GoalConcededPenalty <==> team != scored
  {
    if scored == team then GoalScoredReward else GoalConcededPenalty
  }

  /** A goal is zero-sum between the two teams. */
  lemma GoalZeroSum(scored: Team)
    ensures GoalOutcome(Kais, scored) + GoalOutcome(Alberts, scored) == 0.0
  {
  }

  /** The behaviour team id `Start` assigns: from the environment id and
      the team id configured in the behaviour parameters (0 means the Kai
      side). */
  function TeamIdFor(envID: int, configuredTeamId: int): (t: int)
    ensures configuredTeamId == 0 ==> t == 2 * envID
    ensures configuredTeamId != 0 ==> t == 2 * envID + 1
  {
    var isKai := if configuredTeamId == 0 then 1 else 0;
    (envID * 2 - isKai) + 1
  }

  /** Distinct environments and sides get distinct team ids, and a team id
      gives its environment and side back. */
  lemma TeamIdInjective(env1: int, conf1: int, env2: int, conf2: int)
    requires TeamIdFor(env1, conf1) == TeamIdFor(env2, conf2)
    ensures env1 == env2 && (conf1 == 0 <==> conf2 == 0)
  {
  }

  lemma TeamIdDecodes(envID: int, configuredTeamId: int)
    ensures TeamIdFor(envID, configuredTeamId) / 2 == envID
    ensures TeamIdFor(envID, configuredTeamId) % 2 == (if configuredTeamId == 0 then 0 else 1)
  {
  }

  /** Alignment of the forward axis with the direction from the agent to a
      target (`GetAgentBallDotProduct` and `GetAgentGoalDotProduct`, each
      defined twice in the source with the same body). `len` is the
      magnitude of `toTarget`. */
  function AlignmentWith(forward: Vec3, toTarget: Vec3, len: real): (d: real)
    requires len >= 0.0 && len * len == Dot(toTarget, toTarget)
    ensures len <= Epsilon ==> d == 0.0
    ensures len > Epsilon ==> d * len == Dot(forward, toTarget)
  {
    var n := Normalized(toTarget, len);
    if len > Epsilon then
      assert Dot(forward, Scale(n, len)) == Dot(forward, n) * len;
      Dot(forward, n)
    else Dot(forward, n)
  }

  class FootballAgent {
    const body: Body
    const cube: CubeEntity
    const moveSpeed: real
    const rotationSpeed: real
    const jumpForce: real
    var controlScheme: ControlScheme
    var team: Team
    /** `BehaviorParameters.TeamId`. */
    var behaviorTeamId: int
    /** The ML-Agents reward accumulator and the number of `EndEpisode`
        calls. */
    var reward: real
    var endEpisodes: nat
    var isGrounded: bool
    var isCollidingWithBall: bool
    var stepsControllingBall: real
    var lastBallDistance: real
    /** This field and the next two are used but not declared by
        FootballAgent.cs; they are modelled as declared, with the initial
        values of the commented-out declarations beside them. */
    var lastBallToGoalDistance: real
    var lastBallTouchTime: real
    var ballTouchCooldown: real

    /** The agent's own body is the cube's body, and the cube is valid. */
    predicate Valid()
      reads this, cube
    {
      cube.body == body && cube.Valid()
    }

    /** `Initialize`: the control scheme is copied from the cube, the agent
        starts grounded, and the ball distance is remembered. */
    constructor (body: Body, cube: CubeEntity, moveSpeed: real, rotationSpeed: real, jumpForce: real,
                 team: Team, configuredTeamId: int, ballDistance: real)
      requires cube.body == body && cube.Valid()
      ensures this.body == body && this.cube == cube && Valid()
      ensures this.moveSpeed == moveSpeed && this.rotationSpeed == rotationSpeed && this.jumpForce == jumpForce
      ensures controlScheme == cube.controlScheme && this.team == team && behaviorTeamId == configuredTeamId
      ensures isGrounded && lastBallDistance == ballDistance
      ensures reward == 0.0 && endEpisodes == 0 && !isCollidingWithBall
      ensures lastBallTouchTime == -10.0 && ballTouchCooldown == 0.2
    {
      this.body, this.cube := body, cube;
      this.moveSpeed, this.rotationSpeed, this.jumpForce := moveSpeed, rotationSpeed, jumpForce;
      controlScheme := cube.GetControlScheme();
      this.team := team;
      behaviorTeamId := configuredTeamId;
      reward, endEpisodes := 0.0, 0;
      isGrounded := true;
      isCollidingWithBall := false;
      stepsControllingBall := 0.0;
      lastBallDistance := ballDistance;
      lastBallToGoalDistance := 0.0;
      lastBallTouchTime, ballTouchCooldown := -10.0, 0.2;
    }

    /** `Start`: the cube takes the id of the enclosing environment (looked
        up by the caller), and the behaviour team id becomes the id of this
        environment's side. */
    method Start(envID: int)
      modifies this`behaviorTeamId, cube`envID
      ensures cube.envID == envID
      ensures behaviorTeamId == TeamIdFor(envID, old(behaviorTeamId))
    {
      cube.SetEnvID(envID);
      behaviorTeamId := TeamIdFor(cube.GetEnvID(), behaviorTeamId);
    }

    method OnEpisodeBegin(ballDistance: real, ballToGoalDistance: real)
      modifies this`lastBallDistance, this`lastBallToGoalDistance, this`lastBallTouchTime
      ensures lastBallDistance == ballDistance && lastBallToGoalDistance == ballToGoalDistance
      ensures lastBallTouchTime == -10.0
    {
      lastBallDistance := ballDistance;
      lastBallToGoalDistance := ballToGoalDistance;
      lastBallTouchTime := -10.0;
    }

    /** One decision step. Movement and turning are set from the decoded
        action; a jump fires only when grounded; a kick fires when requested
        and the cube permits it (`canKick`), a dash when requested and the
        cube can dash; the reward grows by `StepReward`, and both remembered
        distances are overwritten. The kick's hits and velocity and the dash
        input come from the physics and input systems. */
    method OnActionReceived(a: ActionVector, s: StepSenses, canKick: bool,
                            hits: seq<Hit>, kickVelocity: Vec3, dashInput: DashInput)
      requires Valid() && dashInput.WellFormed()
      modifies this`reward, this`isGrounded, this`lastBallDistance, this`lastBallToGoalDistance
      modifies body`velocity, body`angularVelocity, body`pendingImpulse
      modifies cube`isDashing, cube`canDash, cube`dashTimeLeft, cube`cooldownTimer, cube`dashDirection
      modifies HitBodies(hits)`velocity
      ensures Valid()
      ensures body !in HitBodies(hits) ==>
                body.velocity == MoveVelocity(DecodeMove(a.move), s.forward, moveSpeed, old(body.velocity))
      ensures body.angularVelocity == YawRate(DecodeTurn(a.rotate), rotationSpeed)
      ensures var g := JumpGate(old(isGrounded), a.jump == 1);
              isGrounded == g.1
              && body.pendingImpulse == old(body.pendingImpulse) + (if g.0 then jumpForce else 0.0)
      ensures forall b :: b in HitBodies(hits) && b != body ==>
                b.velocity == if a.kick == 1 && canKick && KickedIn(hits, ScanEnd(hits), b)
                              then kickVelocity else old(b.velocity)
      ensures a.dash == 1 && old(cube.canDash) ==>
                cube.isDashing && !cube.canDash && cube.dashDirection == dashInput.Direction()
                && cube.dashTimeLeft == cube.dashDuration && cube.cooldownTimer == cube.dashCooldown
      ensures !(a.dash == 1 && old(cube.canDash)) ==>
                cube.DashCountdown() == old(cube.DashCountdown()) && cube.CooldownCountdown() == old(cube.CooldownCountdown())
      ensures reward == old(reward) + StepReward(a.kick == 1 && canKick, a.dash == 1 && old(cube.canDash),
                                                 s, old(lastBallDistance), old(lastBallToGoalDistance))
      ensures lastBallDistance == s.ballDistance && lastBallToGoalDistance == s.ballToGoalDistance
    {
      var r0 := reward;
      Move(a, s);

      var kickPart := 0.0;
      if a.kick == 1 && canKick {
        cube.BKick(hits, kickVelocity);
        reward := reward + KickPenalty;
        kickPart := KickPenalty;
      }

      var dashPart := 0.0;
      if a.dash == 1 && cube.CanDash() {
        cube.StartDash(dashInput);
        reward := reward + DashPenalty;
        dashPart := DashPenalty;
      }

      ShapeReward(s);
    }

    /** The movement part of a step: the velocity from the decoded move,
        the yaw rate from the decoded turn, and a jump impulse that fires
        only when grounded. */
    method Move(a: ActionVector, s: StepSenses)
      modifies this`isGrounded, body`velocity, body`angularVelocity, body`pendingImpulse
      ensures body.velocity == MoveVelocity(DecodeMove(a.move), s.forward, moveSpeed, old(body.velocity))
      ensures body.angularVelocity == YawRate(DecodeTurn(a.rotate), rotationSpeed)
      ensures var g := JumpGate(old(isGrounded), a.jump == 1);
              isGrounded == g.1
              && body.pendingImpulse == old(body.pendingImpulse) + (if g.0 then jumpForce else 0.0)
    {
      body.velocity := MoveVelocity(DecodeMove(a.move), s.forward, moveSpeed, body.velocity);
      body.angularVelocity := YawRate(DecodeTurn(a.rotate), rotationSpeed);

      if a.jump == 1 && isGrounded {
        body.pendingImpulse := body.pendingImpulse + jumpForce;
        isGrounded := false;
      }
    }

    /** The shaping part of a step: the approach, shot and goalward terms
        and the move penalty are added, and both distances are
        remembered. */
    method ShapeReward(s: StepSenses)
      modifies this`reward, this`lastBallDistance, this`lastBallToGoalDistance
      ensures reward == old(reward) + ApproachTerm(s.ballDistance, old(lastBallDistance))
                        + ShotReward(s.ballSpeed, s.shotDot)
                        + GoalwardTerm(s.ballToGoalDistance, old(lastBallToGoalDistance)) + MovePenalty
      ensures lastBallDistance == s.ballDistance && lastBallToGoalDistance == s.ballToGoalDistance
    {
      reward := reward + ApproachTerm(s.ballDistance, lastBallDistance);
      lastBallDistance := s.ballDistance;
      reward := reward + ShotReward(s.ballSpeed, s.shotDot);
      reward := reward + GoalwardTerm(s.ballToGoalDistance, lastBallToGoalDistance);
      lastBallToGoalDistance := s.ballToGoalDistance;
      reward := reward + MovePenalty;
    }

    /** A goal in another environment is ignored; otherwise the agent gets
        +1 if its team scored and -1 if not, and its episode ends. */
    method HandleGoalScored(e: GoalEvent)
      modifies this`reward, this`endEpisodes
      ensures e.envID != cube.envID ==> reward == old(reward) && endEpisodes == old(endEpisodes)
      ensures e.envID == cube.envID ==>
                reward == old(reward) + GoalOutcome(team, e.teamScored) && endEpisodes == old(endEpisodes) + 1
    {
      if e.envID != cube.GetEnvID() {
        return;
      }
      if e.teamScored == team {
        reward := reward + GoalScoredReward;
      } else {
        reward := reward + GoalConcededPenalty;
      }
      EndEpisode();
    }

    /** `Agent.AddReward`. */
    method AddReward(r: real)
      modifies this`reward
      ensures reward == old(reward) + r
    {
      reward := reward + r;
    }

    /** `Agent.EndEpisode`, counted. */
    method EndEpisode()
      modifies this`endEpisodes
      ensures endEpisodes == old(endEpisodes) + 1
    {
      endEpisodes := endEpisodes + 1;
    }

    /** A contact whose normal points up (y above 0.5) grounds the agent; a
        contact with the ball starts a ball-control streak. */
    method OnCollisionEnter(normalY: real, isBall: bool)
      modifies this`isGrounded, this`isCollidingWithBall, this`stepsControllingBall
      ensures isGrounded == Landed(old(isGrounded), normalY)
      ensures isBall ==> isCollidingWithBall && stepsControllingBall == 0.0
      ensures !isBall ==> isCollidingWithBall == old(isCollidingWithBall)
                          && stepsControllingBall == old(stepsControllingBall)
    {
      if normalY > 0.5 {
        isGrounded := true;
      }
      if isBall {
        isCollidingWithBall := true;
        stepsControllingBall := 0.0;
      }
    }

    /** Leaving the ball pays the touch reward, at most once per touch
        cooldown. `isCollidingWithBall` is never cleared. */
    method OnCollisionExit(isBall: bool, time: real)
      modifies this`reward, this`lastBallTouchTime
      ensures isBall && time - old(lastBallTouchTime) > ballTouchCooldown ==>
                reward == old(reward) + BallTouchReward && lastBallTouchTime == time
      ensures !(isBall && time - old(lastBallTouchTime) > ballTouchCooldown) ==>
                reward == old(reward) && lastBallTouchTime == old(lastBallTouchTime)
    {
      if isBall {
        if time - lastBallTouchTime > ballTouchCooldown {
          reward := reward + BallTouchReward;
          lastBallTouchTime := time;
        }
      }
    }

    function GetInitialPosition(): (p: Vec3)
      reads this, cube
      ensures p == cube.initialPosition
    {
      cube.GetInitialPosition()
    }

    method SetTeamID(teamID: int)
      modifies this`behaviorTeamId
      ensures GetTeamID() == teamID
    {
      behaviorTeamId := teamID;
    }

    function GetTeamID(): (t: int)
      reads this
      ensures t == behaviorTeamId
    {
      behaviorTeamId
    }

    method SetTeam(t: Team)
      modifies this`team
      ensures GetTeam() == t
    {
      team := t;
    }

    function GetTeam(): (t: Team)
      reads this
      ensures t == team
    {
      team
    }
  }
}
