/** `PlayerDash`: the stand-alone dash component. Same two countdowns as
    `CubeEntity`, but a fixed left-Shift key, other defaults, and a stop that
    leaves the velocity as the last dash tick set it. */
module PlayerDashes {
  import opened Common
  import opened DashTimers

  const DefaultDashForce: real := 20.0
  const DefaultDashDuration: real := 0.2
  const DefaultDashCD: real := 1.5

  class PlayerDash {
    const body: Body
    const dashForce: real
    const dashDuration: real
    const dashCD: real
    var isDashing: bool
    var canDash: bool
    var dashTimeLeft: real
    var cdTimer: real
    var dashDirection: Vec3

    predicate Valid()
      reads this
    {
      dashDuration > 0.0 && dashCD > 0.0
      && Consistent(DashCountdown()) && Consistent(CooldownCountdown())
    }

    function DashCountdown(): Countdown
      reads this
    {
      Countdown(isDashing, dashTimeLeft)
    }

    function CooldownCountdown(): Countdown
      reads this
    {
      Countdown(!canDash, cdTimer)
    }

    /** `Start`, with the public fields at their defaults. */
    constructor (body: Body)
      ensures this.body == body
      ensures dashForce == DefaultDashForce && dashDuration == DefaultDashDuration && dashCD == DefaultDashCD
      ensures !isDashing && canDash
      ensures Valid()
    {
      this.body := body;
      dashForce, dashDuration, dashCD := DefaultDashForce, DefaultDashDuration, DefaultDashCD;
      isDashing, canDash := false, true;
      dashTimeLeft, cdTimer := 0.0, 0.0;
      dashDirection := Zero;
    }

    /** The frame update: a left-Shift press starts a dash when the
        component can dash; then the cooldown ticks by `dt`. */
    method Update(pressed: set<Key>, dt: real, input: DashInput)
      requires Valid() && input.WellFormed()
      modifies this`isDashing, this`canDash, this`dashTimeLeft, this`cdTimer, this`dashDirection
      ensures Valid()
      ensures var started := LeftShift in pressed && old(canDash);
              && (started ==> isDashing && dashTimeLeft == dashDuration && dashDirection == input.Direction()
                              && CooldownCountdown() == Tick(Countdown(true, dashCD), dt))
              && (!started ==> DashCountdown() == old(DashCountdown()) && dashDirection == old(dashDirection)
                               && CooldownCountdown() == Tick(old(CooldownCountdown()), dt))
    {
      if LeftShift in pressed && canDash {
        StartDash(input);
      }
      if !canDash {
        cdTimer := cdTimer - dt;
        if cdTimer <= 0.0 {
          canDash := true;
        }
      }
    }

    /** The physics step: while dashing, the velocity is overridden with the
        dash velocity and the dash countdown ticks. When the dash stops, the
        velocity keeps the dash velocity just written. */
    method FixedUpdate(fixedDt: real)
      requires Valid()
      modifies this`isDashing, this`dashTimeLeft, body`velocity
      ensures Valid()
      ensures DashCountdown() == Tick(old(DashCountdown()), fixedDt)
      ensures old(isDashing) ==> body.velocity == Scale(dashDirection, dashForce)
      ensures !old(isDashing) ==> body.velocity == old(body.velocity)
    {
      if isDashing {
        body.velocity := Scale(dashDirection, dashForce);
        dashTimeLeft := dashTimeLeft - fixedDt;
        if dashTimeLeft <= 0.0 {
          StopDash();
        }
      }
    }

    method StartDash(input: DashInput)
      requires Valid() && input.WellFormed()
      modifies this`isDashing, this`canDash, this`dashTimeLeft, this`cdTimer, this`dashDirection
      ensures Valid()
      ensures isDashing && !canDash && dashTimeLeft == dashDuration && cdTimer == dashCD
      ensures dashDirection == input.Direction()
    {
      isDashing := true;
      canDash := false;
      dashTimeLeft := dashDuration;
      cdTimer := dashCD;
      dashDirection := input.Direction();
    }

    /** Ends a dash; the velocity is not touched. */
    method StopDash()
      modifies this`isDashing
      ensures !isDashing
    {
      isDashing := false;
    }
  }
}
