/** `SoccerAgent`: an agent rewarded for staying near the ball, for the ball
    reaching the goal, and penalised for falling off or touching barriers. */
module SoccerAgents {
  import opened Common
  import opened Actions

  const BarrierPenalty: real := -0.1

  /** The random draws of `OnEpisodeBegin`, within `Random.Range`'s
      inclusive bounds: the agent's x and z in [-4, 4], its yaw in [0, 360],
      the ball's x and z in [-3, 3]. Shared by AlbertAgent. */
  datatype EpisodeDraw = EpisodeDraw(x: real, z: real, yaw: real, ballX: real, ballZ: real)
  {
    predicate InRange()
    {
      -4.0 <= x <= 4.0 && -4.0 <= z <= 4.0 && 0.0 <= yaw <= 360.0
      && -3.0 <= ballX <= 3.0 && -3.0 <= ballZ <= 3.0
    }
  }

  /** The height both the agent and the ball are placed at. */
  const SpawnHeight: real := 0.5

  class SoccerAgent {
    const body: Body
    /** The ball, whose position is its local position. */
    const ball: Body
    var moveSpeed: real
    var rotationSpeed: real
    var jumpForce: real
    var controlScheme: ControlScheme
    /** Never assigned in SoccerAgent.cs, so it keeps its default. */
    var initialPosition: Vec3
    /** `transform.localPosition`. */
    var localPosition: Vec3
    var isGrounded: bool
    var reward: real
    var endEpisodes: nat

    /** `Initialize`, with the inspector values; `isGrounded` keeps its
        default, false, until the first landing. */
    constructor (body: Body, ball: Body, moveSpeed: real, rotationSpeed: real, jumpForce: real, scheme: ControlScheme, localPosition: Vec3)
      ensures this.body == body && this.ball == ball && this.moveSpeed == moveSpeed && this.rotationSpeed == rotationSpeed
      ensures this.jumpForce == jumpForce && controlScheme == scheme && this.localPosition == localPosition
      ensures initialPosition == Zero && !isGrounded && reward == 0.0 && endEpisodes == 0
    {
      this.body, this.ball := body, ball;
      this.moveSpeed, this.rotationSpeed, this.jumpForce := moveSpeed, rotationSpeed, jumpForce;
      controlScheme := scheme;
      initialPosition := Zero;
      this.localPosition := localPosition;
      isGrounded := false;
      reward, endEpisodes := 0.0, 0;
    }

    /** A new episode: the agent is stopped and placed at a random spot
        and heading, the ball at a random spot, with its velocity zeroed
        (its spin is kept). */
    method OnEpisodeBegin(d: EpisodeDraw)
      requires d.InRange() && ball != body
      modifies this`localPosition, body`velocity, body`angularVelocity, body`yaw, ball`position, ball`velocity
      ensures body.velocity == Zero && body.angularVelocity == Zero
      ensures localPosition == Vec3(d.x, SpawnHeight, d.z) && body.yaw == d.yaw
      ensures ball.position == Vec3(d.ballX, SpawnHeight, d.ballZ) && ball.velocity == Zero
      ensures -4.0 <= localPosition.x <= 4.0 && -4.0 <= localPosition.z <= 4.0
    {
      body.velocity, body.angularVelocity := Zero, Zero;
      localPosition := Vec3(d.x, SpawnHeight, d.z);
      body.yaw := d.yaw;
      ball.position := Vec3(d.ballX, SpawnHeight, d.ballZ);
      ball.velocity := Zero;
    }

    /** One decision step: velocity and yaw rate from the decoded action,
        the jump gate, then the proximity rewards and terminal checks on the
        agent-ball and ball-goal distances and the agent's height. */
    method OnActionReceived(a: ActionVector, forward: Vec3, ballDistance: real, ballToGoalDistance: real)
      modifies this`isGrounded, this`reward, this`endEpisodes
      modifies body`velocity, body`angularVelocity, body`pendingImpulse
      ensures body.velocity == MoveVelocity(DecodeMove(a.move), forward, moveSpeed, old(body.velocity))
      ensures body.angularVelocity == YawRate(DecodeTurn(a.rotate), rotationSpeed)
      ensures var g := JumpGate(old(isGrounded), a.jump == 1);
              isGrounded == g.1
              && body.pendingImpulse == old(body.pendingImpulse) + (if g.0 then jumpForce else 0.0)
      ensures var o := ProximityStep(ballDistance, ballToGoalDistance, localPosition.y);
              reward == old(reward) + o.reward && endEpisodes == old(endEpisodes) + o.endEpisodes
    {
      body.velocity := MoveVelocity(DecodeMove(a.move), forward, moveSpeed, body.velocity);
      body.angularVelocity := YawRate(DecodeTurn(a.rotate), rotationSpeed);
      if a.jump == 1 && isGrounded {
        body.pendingImpulse := body.pendingImpulse + jumpForce;
        isGrounded := false;
      }
      if ballDistance < NearBallDistance {
        reward := reward + NearBallReward;
      }
      if ballToGoalDistance < GoalDistance {
        reward := reward + 1.0;
        endEpisodes := endEpisodes + 1;
      }
      if localPosition.y < FallHeight {
        reward := reward + -1.0;
        endEpisodes := endEpisodes + 1;
      }
    }

    /** The keyboard heuristic of the agent's scheme. */
    function Heuristic(held: set<Key>): (v: ActionVector)
      reads this
      ensures v == Heuristic3(controlScheme, held)
      ensures DecodeMove(v.move) == Forward <==> ForwardHeld(controlScheme, held)
    {
      Heuristic3(controlScheme, held)
    }

    /** An upward contact grounds the agent; touching a barrier costs 0.1. */
    method OnCollisionEnter(normalY: real, isBarrier: bool)
      modifies this`isGrounded, this`reward
      ensures isGrounded == Landed(old(isGrounded), normalY)
      ensures reward == old(reward) + (if isBarrier then BarrierPenalty else 0.0)
    {
      if normalY > 0.5 {
        isGrounded := true;
      }
      if isBarrier {
        reward := reward + BarrierPenalty;
      }
    }

    /** Moves the agent to `p` in its parent's space; rotation and velocity
        are left alone. */
    method ResetPosition(p: Vec3)
      modifies this`localPosition
      ensures localPosition == p
    {
      localPosition := p;
    }

    function GetMovementAttributes(): (attrs: seq<real>)
      reads this
      ensures |attrs| == 3
      ensures attrs[0] == moveSpeed && attrs[1] == rotationSpeed && attrs[2] == jumpForce
    {
      [moveSpeed, rotationSpeed, jumpForce]
    }

    /** Overwrites only the attributes that are supplied. */
    method SetMovementAttributes(newMoveSpeed: Option<real>, newRotationSpeed: Option<real>, newJumpForce: Option<real>)
      modifies this`moveSpeed, this`rotationSpeed, this`jumpForce
      ensures GetMovementAttributes() == [Updated(old(moveSpeed), newMoveSpeed),
                                          Updated(old(rotationSpeed), newRotationSpeed),
                                          Updated(old(jumpForce), newJumpForce)]
    {
      if newMoveSpeed.Some? { moveSpeed := newMoveSpeed.value; }
      if newRotationSpeed.Some? { rotationSpeed := newRotationSpeed.value; }
      if newJumpForce.Some? { jumpForce := newJumpForce.value; }
    }

    function GetControlScheme(): (s: ControlScheme)
      reads this
      ensures s == controlScheme
    {
      controlScheme
    }

    method SetControlScheme(s: ControlScheme)
      modifies this`controlScheme
      ensures GetControlScheme() == s
    {
      controlScheme := s;
    }

    function GetInitialPosition(): (p: Vec3)
      reads this
      ensures p == initialPosition
    {
      initialPosition
    }
  }
}
