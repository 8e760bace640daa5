/** `AlbertAgent`: the kinematic variant of SoccerAgent. It moves by
    displacing its rigidbody and turns by composing a yaw rotation, instead
    of setting velocities. */
module AlbertAgents {
  import opened Common
  import opened Actions
  import SoccerAgents

  const DefaultMoveSpeed: real := 5.0
  const DefaultRotationSpeed: real := 100.0
  const DefaultJumpForce: real := 5.0

  /** The displacement of one step: forward or backward by
      `moveSpeed * dt`, or none. */
  function MoveOffset(m: MoveCmd, forward: Vec3, moveSpeed: real, dt: real): (d: Vec3)
    ensures m == Hold ==> d == Zero
    ensures m == Forward ==> d == Scale(forward, moveSpeed * dt)
    ensures m == Backward ==> d == Scale(forward, -(moveSpeed * dt))
  {
    match m
    case Forward => Scale(Scale(forward, moveSpeed), dt)
    case Backward => Neg(Scale(Scale(forward, moveSpeed), dt))
    case Hold => Zero
  }

  /** The yaw change of one step, in degrees: left is negative, right
      positive. `None` when the rotate action is neither, because the step
      then does not touch the rotation at all. */
  function TurnAngle(t: TurnCmd, rotationSpeed: real, dt: real): (a: Option<real>)
    ensures a.None? <==> t == NoTurn
    ensures t == TurnRight ==> a == Some(rotationSpeed * dt)
    ensures t == TurnLeft ==> a == Some(-(rotationSpeed * dt))
  {
    match t
    case TurnLeft => Some(-(rotationSpeed * dt))
    case TurnRight => Some(rotationSpeed * dt)
    case NoTurn => None
  }

  /** A forward step followed by a backward step, and a left turn followed
      by a right turn, bring the agent back where it was. */
  lemma StepsUndo(p: Vec3, yaw: real, forward: Vec3, moveSpeed: real, rotationSpeed: real, dt: real)
    ensures Add(Add(p, MoveOffset(Forward, forward, moveSpeed, dt)), MoveOffset(Backward, forward, moveSpeed, dt)) == p
    ensures yaw + TurnAngle(TurnLeft, rotationSpeed, dt).value + TurnAngle(TurnRight, rotationSpeed, dt).value == yaw
  {
  }

  class AlbertAgent {
    const body: Body
    const ball: Body
    var moveSpeed: real
    var rotationSpeed: real
    var jumpForce: real
    var controlScheme: ControlScheme
    var localPosition: Vec3
    var isGrounded: bool
    var reward: real
    var endEpisodes: nat

    /** `Initialize`, with the public fields at their defaults. */
    constructor (body: Body, ball: Body, scheme: ControlScheme, localPosition: Vec3)
      ensures this.body == body && this.ball == ball && controlScheme == scheme
      ensures this.localPosition == localPosition
      ensures moveSpeed == DefaultMoveSpeed && rotationSpeed == DefaultRotationSpeed && jumpForce == DefaultJumpForce
      ensures !isGrounded && reward == 0.0 && endEpisodes == 0
    {
      this.body, this.ball := body, ball;
      controlScheme := scheme;
      this.localPosition := localPosition;
      moveSpeed, rotationSpeed, jumpForce := DefaultMoveSpeed, DefaultRotationSpeed, DefaultJumpForce;
      isGrounded := false;
      reward, endEpisodes := 0.0, 0;
    }

    /** The same reset as SoccerAgent's. */
    method OnEpisodeBegin(d: SoccerAgents.EpisodeDraw)
      requires d.InRange() && ball != body
      modifies this`localPosition, body`velocity, body`angularVelocity, body`yaw, ball`position, ball`velocity
      ensures body.velocity == Zero && body.angularVelocity == Zero
      ensures localPosition == Vec3(d.x, SoccerAgents.SpawnHeight, d.z) && body.yaw == d.yaw
      ensures ball.position == Vec3(d.ballX, SoccerAgents.SpawnHeight, d.ballZ) && ball.velocity == Zero
    {
      body.velocity, body.angularVelocity := Zero, Zero;
      localPosition := Vec3(d.x, SoccerAgents.SpawnHeight, d.z);
      body.yaw := d.yaw;
      ball.position := Vec3(d.ballX, SoccerAgents.SpawnHeight, d.ballZ);
      ball.velocity := Zero;
    }

    /** One decision step of `fixedDt` seconds: the body is displaced and
        turned per the decoded action (an unknown rotate action leaves the
        yaw alone), the jump gate runs, then the same proximity rewards and
        terminal checks as SoccerAgent. The agent is assumed upright, so
        composing a yaw rotation adds to the yaw. */
    method OnActionReceived(a: ActionVector, forward: Vec3, fixedDt: real, ballDistance: real, ballToGoalDistance: real)
      modifies this`isGrounded, this`reward, this`endEpisodes
      modifies body`position, body`yaw, body`pendingImpulse
      ensures body.position == Add(old(body.position), MoveOffset(DecodeMove(a.move), forward, moveSpeed, fixedDt))
      ensures var t := TurnAngle(DecodeTurn(a.rotate), rotationSpeed, fixedDt);
              body.yaw == if t.Some? then old(body.yaw) + t.value else old(body.yaw)
      ensures var g := JumpGate(old(isGrounded), a.jump == 1);
              isGrounded == g.1
              && body.pendingImpulse == old(body.pendingImpulse) + (if g.0 then jumpForce else 0.0)
      ensures var o := ProximityStep(ballDistance, ballToGoalDistance, localPosition.y);
              reward == old(reward) + o.reward && endEpisodes == old(endEpisodes) + o.endEpisodes
    {
      MoveAndTurn(a, forward, fixedDt);
      if a.jump == 1 && isGrounded {
        body.pendingImpulse := body.pendingImpulse + jumpForce;
        isGrounded := false;
      }
      if ballDistance < NearBallDistance {
        reward := reward + NearBallReward;
      }
      if ballToGoalDistance < GoalDistance {
        reward := reward + 1.0;
        endEpisodes := endEpisodes + 1;
      }
      if localPosition.y < FallHeight {
        reward := reward + -1.0;
        endEpisodes := endEpisodes + 1;
      }
    }

    /** The kinematic part of a step: `MovePosition` and `MoveRotation`. */
    method MoveAndTurn(a: ActionVector, forward: Vec3, fixedDt: real)
      modifies body`position, body`yaw
      ensures body.position == Add(old(body.position), MoveOffset(DecodeMove(a.move), forward, moveSpeed, fixedDt))
      ensures var t := TurnAngle(DecodeTurn(a.rotate), rotationSpeed, fixedDt);
              body.yaw == if t.Some? then old(body.yaw) + t.value else old(body.yaw)
    {
      var m := DecodeMove(a.move);
      if m != Hold {
        body.position := Add(body.position, MoveOffset(m, forward, moveSpeed, fixedDt));
      }
      var turn := TurnAngle(DecodeTurn(a.rotate), rotationSpeed, fixedDt);
      if turn.Some? {
        body.yaw := body.yaw + turn.value;
      }
    }

    /** The keyboard heuristic: forward over backward, left over right; the
        arrow keys also work under WASD; jump is Space, or the right Shift
        under IJKL. */
    function Heuristic(held: set<Key>): (v: ActionVector)
      reads this
      ensures DecodeMove(v.move) == Forward <==> ForwardHeld(controlScheme, held)
      ensures DecodeMove(v.move) == Backward <==> !ForwardHeld(controlScheme, held) && BackwardHeld(controlScheme, held)
      ensures DecodeTurn(v.rotate) == TurnLeft <==> LeftHeld(controlScheme, held)
      ensures DecodeTurn(v.rotate) == TurnRight <==> !LeftHeld(controlScheme, held) && RightHeld(controlScheme, held)
      ensures v.jump == 1 <==> JumpKey(controlScheme) in held
    {
      Heuristic3(controlScheme, held)
    }

    method OnCollisionEnter(normalY: real)
      modifies this`isGrounded
      ensures isGrounded == Landed(old(isGrounded), normalY)
    {
      if normalY > 0.5 {
        isGrounded := true;
      }
    }
  }
}
