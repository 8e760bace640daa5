/** `CubeEntity`: the dash state machine and the kick of a player cube. */
module Cubes {
  import opened Common
  import opened Actions
  import opened DashTimers

  // The serialized defaults of the dash properties.
  const DefaultDashForce: real := 10.0
  const DefaultDashDuration: real := 0.2
  const DefaultDashCooldown: real := 1.0

  /** A collider found by the kick's overlap query: whether it is tagged
      Ball, and the rigidbody attached to it, if any. */
  datatype Hit = Hit(isBall: bool, rb: Option<Body>)

  /** The bodies attached to the hits. */
  function HitBodies(hits: seq<Hit>): set<Body>
  {
    set j | 0 <= j < |hits| && hits[j].rb.Some? :: hits[j].rb.value
  }

  /** How far the kick's scan gets: the index of the first Ball without a
      rigidbody, where the scan returns, or the end of the hits. */
  function ScanEnd(hits: seq<Hit>): (k: nat)
    ensures k <= |hits|
    ensures forall j :: 0 <= j < k ==> !(hits[j].isBall && hits[j].rb.None?)
    ensures k < |hits| ==> hits[k].isBall && hits[k].rb.None?
    decreases |hits|
  {
    if hits == [] then 0
    else if hits[0].isBall && hits[0].rb.None? then 0
    else 1 + ScanEnd(hits[1..])
  }

  /** Body `b` is attached to a Ball among the first `n` hits. */
  predicate KickedIn(hits: seq<Hit>, n: int, b: Body)
  {
    exists j :: 0 <= j < n && j < |hits| && hits[j].isBall && hits[j].rb == Some(b)
  }

  class CubeEntity {
    const body: Body
    const dashForce: real
    const dashDuration: real
    const dashCooldown: real
    var controlScheme: ControlScheme
    var initialPosition: Vec3
    var isDashing: bool
    var canDash: bool
    var dashTimeLeft: real
    var cooldownTimer: real
    var dashDirection: Vec3
    /** The environment the cube belongs to. `CubeEntity.cs` has no such
        field, but FootballAgent sets and reads it through `SetEnvID` and
        `GetEnvID`; it is modelled as if declared. */
    var envID: int

    /** Both countdowns are consistent (a running one has time left) and
        the configured durations are positive. */
    predicate Valid()
      reads this
    {
      dashDuration > 0.0 && dashCooldown > 0.0
      && Consistent(DashCountdown()) && Consistent(CooldownCountdown())
    }

    /** The dash as a countdown: running while `isDashing`. */
    function DashCountdown(): Countdown
      reads this
    {
      Countdown(isDashing, dashTimeLeft)
    }

    /** The cooldown as a countdown: running while the cube cannot dash. */
    function CooldownCountdown(): Countdown
      reads this
    {
      Countdown(!canDash, cooldownTimer)
    }

    /** `Awake`: remembers the starting position; the dash properties take
        their serialized defaults. */
    constructor (body: Body, scheme: ControlScheme)
      ensures this.body == body && controlScheme == scheme
      ensures initialPosition == body.position
      ensures dashForce == DefaultDashForce && dashDuration == DefaultDashDuration
      ensures dashCooldown == DefaultDashCooldown
      ensures !isDashing && canDash && envID == 0
      ensures Valid()
    {
      this.body := body;
      controlScheme := scheme;
      initialPosition := body.position;
      dashForce, dashDuration, dashCooldown := DefaultDashForce, DefaultDashDuration, DefaultDashCooldown;
      isDashing, canDash := false, true;
      dashTimeLeft, cooldownTimer := 0.0, 0.0;
      dashDirection := Zero;
      envID := 0;
    }

    /** The physics step: while dashing, the velocity is forced to the dash
        direction times the dash force and the dash countdown ticks; when it
        runs out, `StopDash` zeroes the velocity. Not dashing, nothing
        changes. */
    method FixedUpdate(fixedDt: real)
      requires Valid()
      modifies this`isDashing, this`dashTimeLeft, body`velocity
      ensures Valid()
      ensures DashCountdown() == Tick(old(DashCountdown()), fixedDt)
      ensures old(isDashing) && isDashing ==> body.velocity == Scale(dashDirection, dashForce)
      ensures old(isDashing) && !isDashing ==> body.velocity == Zero
      ensures !old(isDashing) ==> body.velocity == old(body.velocity)
    {
      if isDashing {
        body.velocity := Scale(dashDirection, dashForce);
        dashTimeLeft := dashTimeLeft - fixedDt;
        if dashTimeLeft <= 0.0 {
          StopDash();
        }
      }
    }

    /** The frame update: dash input first, then the cooldown step, then the
        kick input. A dash started in this frame therefore already has its
        cooldown shortened by this frame's `dt`. */
    method Update(pressed: set<Key>, dt: real, input: DashInput, hits: seq<Hit>, kickVelocity: Vec3)
      requires Valid() && input.WellFormed()
      modifies this`isDashing, this`canDash, this`dashTimeLeft, this`cooldownTimer, this`dashDirection
      modifies HitBodies(hits)`velocity
      ensures Valid()
      ensures var started := DashKey(controlScheme) in pressed && old(canDash);
              && (started ==> isDashing && dashTimeLeft == dashDuration && dashDirection == input.Direction()
                              && CooldownCountdown() == Tick(Countdown(true, dashCooldown), dt))
              && (!started ==> DashCountdown() == old(DashCountdown()) && dashDirection == old(dashDirection)
                               && CooldownCountdown() == Tick(old(CooldownCountdown()), dt))
      ensures forall b :: b in HitBodies(hits) ==>
                b.velocity == if KickKey(controlScheme) in pressed && KickedIn(hits, ScanEnd(hits), b)
                              then kickVelocity else old(b.velocity)
    {
      HandleDashInput(pressed, input);
      HandleCooldown(dt);
      HandleKickInput(pressed, hits, kickVelocity);
    }

    function GetInitialPosition(): (p: Vec3)
      reads this
      ensures p == initialPosition
    {
      initialPosition
    }

    /** Moves the cube to `p` and turns it to yaw -90 degrees; the velocity
        is left alone. */
    method ResetPosition(p: Vec3)
      modifies body`position, body`yaw
      ensures body.position == p && body.yaw == -90.0
    {
      body.position := p;
      body.yaw := -90.0;
    }

    function GetControlScheme(): (s: ControlScheme)
      reads this
      ensures s == controlScheme
    {
      controlScheme
    }

    method SetControlScheme(s: ControlScheme)
      modifies this`controlScheme
      ensures GetControlScheme() == s
    {
      controlScheme := s;
    }

    /** Whether a dash may start now (the `canDash` flag). */
    function CanDash(): (b: bool)
      reads this
      ensures b <==> !CooldownCountdown().running
    {
      canDash
    }

    method SetEnvID(id: int)
      modifies this`envID
      ensures GetEnvID() == id
    {
      envID := id;
    }

    function GetEnvID(): (id: int)
      reads this
      ensures id == envID
    {
      envID
    }

    /** A kick on the kick key of the cube's scheme (F, or H). */
    method HandleKickInput(pressed: set<Key>, hits: seq<Hit>, kickVelocity: Vec3)
      modifies HitBodies(hits)`velocity
      ensures forall b :: b in HitBodies(hits) ==>
                b.velocity == if KickKey(controlScheme) in pressed && KickedIn(hits, ScanEnd(hits), b)
                              then kickVelocity else old(b.velocity)
    {
      if KickKey(controlScheme) in pressed {
        BKick(hits, kickVelocity);
      }
    }

    /** The kick: every Ball among the hits gets the kick velocity, until
        the first Ball without a rigidbody ends the whole scan. Hits not
        tagged Ball are passed over. The kick velocity itself (the forward
        axis tilted up by the kick angle, times the kick magnitude) is
        supplied by the caller. */
    method BKick(hits: seq<Hit>, kickVelocity: Vec3)
      modifies HitBodies(hits)`velocity
      ensures forall b :: b in HitBodies(hits) ==>
                b.velocity == if KickedIn(hits, ScanEnd(hits), b) then kickVelocity else old(b.velocity)
    {
      var i := 0;
      while i < |hits|
        invariant 0 <= i <= ScanEnd(hits)
        invariant forall b :: b in HitBodies(hits) ==>
                    b.velocity == if KickedIn(hits, i, b) then kickVelocity else old(b.velocity)
      {
        if hits[i].isBall {
          if hits[i].rb.None? {
            return;
          }
          var rb := hits[i].rb.value;
          assert rb in HitBodies(hits);
          rb.velocity := kickVelocity;
          assert KickedIn(hits, i + 1, rb);
        }
        i := i + 1;
      }
    }

    /** A dash starts on the dash key of the cube's scheme (left Shift, or
        B) and only when the cube can dash. */
    method HandleDashInput(pressed: set<Key>, input: DashInput)
      requires Valid() && input.WellFormed()
      modifies this`isDashing, this`canDash, this`dashTimeLeft, this`cooldownTimer, this`dashDirection
      ensures Valid()
      ensures DashKey(controlScheme) in pressed && old(canDash) ==>
                isDashing && !canDash && dashTimeLeft == dashDuration && cooldownTimer == dashCooldown
                && dashDirection == input.Direction()
      ensures !(DashKey(controlScheme) in pressed && old(canDash)) ==>
                DashCountdown() == old(DashCountdown()) && CooldownCountdown() == old(CooldownCountdown())
                && dashDirection == old(dashDirection)
    {
      if DashKey(controlScheme) in pressed && canDash {
        StartDash(input);
      }
    }

    /** The cooldown step of one frame. */
    method HandleCooldown(dt: real)
      requires Valid()
      modifies this`canDash, this`cooldownTimer
      ensures Valid()
      ensures CooldownCountdown() == Tick(old(CooldownCountdown()), dt)
    {
      if !canDash {
        cooldownTimer := cooldownTimer - dt;
        if cooldownTimer <= 0.0 {
          canDash := true;
        }
      }
    }

    /** Starts a dash: both countdowns are loaded with their full durations
        and the direction is the normalised input combination, or the
        forward axis when that is zero. */
    method StartDash(input: DashInput)
      requires Valid() && input.WellFormed()
      modifies this`isDashing, this`canDash, this`dashTimeLeft, this`cooldownTimer, this`dashDirection
      ensures Valid()
      ensures isDashing && !canDash && dashTimeLeft == dashDuration && cooldownTimer == dashCooldown
      ensures dashDirection == input.Direction()
    {
      isDashing := true;
      canDash := false;
      dashTimeLeft := dashDuration;
      cooldownTimer := dashCooldown;
      dashDirection := input.Direction();
    }

    /** Ends a dash and stops the cube. */
    method StopDash()
      modifies this`isDashing, body`velocity
      ensures !isDashing && body.velocity == Zero
    {
      isDashing := false;
      body.velocity := Zero;
    }
  }
}
