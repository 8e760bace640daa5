/** `Player`: the directly driven cube, moved kinematically from the
    keyboard. */
module Players {
  import opened Common

  const DefaultMoveSpeed: real := 15.0
  const DefaultRotationSpeed: real := 200.0
  const DefaultJumpForce: real := 5.0
  /** Where `ResetPosition()` puts the player. */
  const SpawnPoint: Vec3 := Vec3(5.0, 6.0, 0.0)
  /** The yaw both resets turn the player to. */
  const ResetYaw: real := -90.0

  /** One IJKL axis: +1 for the positive key, -1 for the negative key,
      cancelling out when both are held. */
  function KeyAxis(plus: bool, minus: bool): (v: real)
    ensures v == 1.0 <==> plus && !minus
    ensures v == -1.0 <==> minus && !plus
    ensures v == 0.0 <==> (plus <==> minus)
  {
    (if plus then 1.0 else 0.0) - (if minus then 1.0 else 0.0)
  }

  /** The move and rotation inputs of a physics step: the smoothed
      vertical and horizontal axes under WASD (values in [-1, 1] supplied by
      the input system), the I/K and L/J key axes under IJKL. */
  function MoveInputs(scheme: ControlScheme, held: set<Key>, verticalAxis: real, horizontalAxis: real): (r: (real, real))
    ensures scheme == IjklShift ==> r == (KeyAxis(I in held, K in held), KeyAxis(L in held, J in held))
    ensures scheme == WasdArrows ==> r == (verticalAxis, horizontalAxis)
    ensures scheme == IjklShift ==> r.0 in {-1.0, 0.0, 1.0} && r.1 in {-1.0, 0.0, 1.0}
  {
    match scheme
    case WasdArrows => (verticalAxis, horizontalAxis)
    case IjklShift => (KeyAxis(I in held, K in held), KeyAxis(L in held, J in held))
  }

  /** The input reading of `FixedUpdate`, accumulating into the two inputs
      key by key. Under IJKL each input is -1, 0 or 1. */
  method ReadInputs(scheme: ControlScheme, held: set<Key>, verticalAxis: real, horizontalAxis: real)
    returns (moveInput: real, rotationInput: real)
    ensures (moveInput, rotationInput) == MoveInputs(scheme, held, verticalAxis, horizontalAxis)
    ensures scheme == IjklShift ==> moveInput in {-1.0, 0.0, 1.0} && rotationInput in {-1.0, 0.0, 1.0}
  {
    moveInput, rotationInput := 0.0, 0.0;
    if scheme == WasdArrows {
      moveInput := verticalAxis;
      rotationInput := horizontalAxis;
    } else if scheme == IjklShift {
      if I in held { moveInput := moveInput + 1.0; }
      if K in held { moveInput := moveInput - 1.0; }
      if L in held { rotationInput := rotationInput + 1.0; }
      if J in held { rotationInput := rotationInput - 1.0; }
    }
  }

  /** The jump keys of `Update`: Space under WASD, either Shift under IJKL. */
  function JumpPressed(scheme: ControlScheme, pressed: set<Key>): (b: bool)
    ensures scheme == WasdArrows ==> (b <==> Space in pressed)
    ensures scheme == IjklShift ==> (b <==> LeftShift in pressed || RightShift in pressed)
  {
    match scheme
    case WasdArrows => Space in pressed
    case IjklShift => LeftShift in pressed || RightShift in pressed
  }

  class Player {
    const body: Body
    var moveSpeed: real
    var rotationSpeed: real
    var jumpForce: real
    var initialPosition: Vec3
    var isGrounded: bool
    var controlScheme: ControlScheme

    /** `Awake`: remembers the starting position and copies the control
        scheme of the cube on the same object. */
    constructor (body: Body, cubeScheme: ControlScheme)
      ensures this.body == body && initialPosition == body.position && controlScheme == cubeScheme
      ensures moveSpeed == DefaultMoveSpeed && rotationSpeed == DefaultRotationSpeed && jumpForce == DefaultJumpForce
      ensures !isGrounded
    {
      this.body := body;
      initialPosition := body.position;
      controlScheme := cubeScheme;
      moveSpeed, rotationSpeed, jumpForce := DefaultMoveSpeed, DefaultRotationSpeed, DefaultJumpForce;
      isGrounded := false;
    }

    /** The physics step: displaced along the forward axis by
        `moveInput * moveSpeed * fixedDt`, turned by
        `rotationInput * rotationSpeed * fixedDt` degrees (the player is
        upright, so the turn adds to the yaw). */
    method FixedUpdate(held: set<Key>, verticalAxis: real, horizontalAxis: real, forward: Vec3, fixedDt: real)
      modifies body`position, body`yaw
      ensures var r := MoveInputs(controlScheme, held, verticalAxis, horizontalAxis);
              body.position == Add(old(body.position), Scale(Scale(Scale(forward, r.0), moveSpeed), fixedDt))
              && body.yaw == old(body.yaw) + r.1 * rotationSpeed * fixedDt
    {
      var moveInput, rotationInput := ReadInputs(controlScheme, held, verticalAxis, horizontalAxis);
      var move := Scale(Scale(Scale(forward, moveInput), moveSpeed), fixedDt);
      body.position := Add(body.position, move);
      body.yaw := body.yaw + rotationInput * rotationSpeed * fixedDt;
    }

    /** The frame update: a jump fires only if pressed while grounded, and
        clears the grounded flag. */
    method Update(pressed: set<Key>)
      modifies this`isGrounded, body`pendingImpulse
      ensures var g := JumpGate(old(isGrounded), JumpPressed(controlScheme, pressed));
              isGrounded == g.1
              && body.pendingImpulse == old(body.pendingImpulse) + (if g.0 then jumpForce else 0.0)
    {
      var jumpPressed := JumpPressed(controlScheme, pressed);
      if jumpPressed && isGrounded {
        body.pendingImpulse := body.pendingImpulse + jumpForce;
        isGrounded := false;
      }
    }

    method OnCollisionEnter(normalY: real)
      modifies this`isGrounded
      ensures isGrounded == Landed(old(isGrounded), normalY)
    {
      if normalY > 0.5 {
        isGrounded := true;
      }
    }

    function GetInitialPosition(): (p: Vec3)
      reads this
      ensures p == initialPosition
    {
      initialPosition
    }

    /** `ResetPosition(Vector3)`. */
    method ResetPosition(p: Vec3)
      modifies body`position, body`yaw
      ensures body.position == p && body.yaw == ResetYaw
    {
      body.position := p;
      body.yaw := ResetYaw;
    }

    /** `ResetPosition()`: back to the fixed spawn point. */
    method ResetToSpawn()
      modifies body`position, body`yaw
      ensures body.position == SpawnPoint && body.yaw == ResetYaw
    {
      body.position := Vec3(5.0, 6.0, 0.0);
      body.yaw := ResetYaw;
    }

    function GetControlScheme(): (s: ControlScheme)
      reads this
      ensures s == controlScheme
    {
      controlScheme
    }

    method SetControlScheme(s: ControlScheme)
      modifies this`controlScheme
      ensures GetControlScheme() == s
    {
      controlScheme := s;
    }

    function GetMovementAttributes(): (attrs: seq<real>)
      reads this
      ensures |attrs| == 3
      ensures attrs[0] == moveSpeed && attrs[1] == rotationSpeed && attrs[2] == jumpForce
    {
      [moveSpeed, rotationSpeed, jumpForce]
    }

    /** Overwrites only the attributes that are supplied, so setting all
        three and reading them back gives the values set. */
    method SetMovementAttributes(newMoveSpeed: Option<real>, newRotationSpeed: Option<real>, newJumpForce: Option<real>)
      modifies this`moveSpeed, this`rotationSpeed, this`jumpForce
      ensures GetMovementAttributes() == [Updated(old(moveSpeed), newMoveSpeed),
                                          Updated(old(rotationSpeed), newRotationSpeed),
                                          Updated(old(jumpForce), newJumpForce)]
    {
      if newMoveSpeed.Some? { moveSpeed := newMoveSpeed.value; }
      if newRotationSpeed.Some? { rotationSpeed := newRotationSpeed.value; }
      if newJumpForce.Some? { jumpForce := newJumpForce.value; }
    }
  }
}
