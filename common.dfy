/** Shared vocabulary of the soccer simulation: vectors, teams, nets, key
    codes, the goal event, the kinematic body of a game object and the
    reward coefficients. */
module Common {

  datatype Option<T> = None | Some(value: T)

  /** A Unity `Vector3`, with exact reals in place of single floats. */
  datatype Vec3 = Vec3(x: real, y: real, z: real)

  const Zero: Vec3 := Vec3(0.0, 0.0, 0.0)

  function Add(a: Vec3, b: Vec3): Vec3 { Vec3(a.x + b.x, a.y + b.y, a.z + b.z) }

  function Scale(v: Vec3, k: real): Vec3 { Vec3(v.x * k, v.y * k, v.z * k) }

  function Neg(v: Vec3): Vec3 { Vec3(-v.x, -v.y, -v.z) }

  function Dot(a: Vec3, b: Vec3): real { a.x * b.x + a.y * b.y + a.z * b.z }

  /** `Mathf.Deg2Rad` as the single-precision constant Unity uses. */
  const Deg2Rad: real := 0.0174532924

  /** The two teams of an environment (`Team` in FootballEnvController.cs). */
  datatype Team = Kais | Alberts

  /** Which net a goal went into. */
  datatype NetId = AlbertNet | KaiNet

  /** The two key-binding profiles of a cube. */
  datatype ControlScheme = WasdArrows | IjklShift

  /** The keys the heuristic controls and the dash/kick/jump handlers poll. */
  datatype Key =
    | W | A | S | D | I | J | K | L | F | H | B
    | Space | LeftShift | RightShift
    | UpArrow | DownArrow | LeftArrow | RightArrow

  /** The goal-scored event: the net, the environment and the team that
      scored. */
  datatype GoalEvent = GoalEvent(netID: NetId, envID: int, teamScored: Team)

  /** The transform and rigidbody of one game object: position, yaw (Euler
      y angle in degrees), linear and angular velocity, and the vertical
      impulses requested by jumps and not yet integrated by the physics
      engine. */
  class Body {
    var position: Vec3
    var yaw: real
    var velocity: Vec3
    var angularVelocity: Vec3
    var pendingImpulse: real

    constructor (p: Vec3, y: real)
      ensures position == p && yaw == y
      ensures velocity == Zero && angularVelocity == Zero && pendingImpulse == 0.0
    {
      position, yaw := p, y;
      velocity, angularVelocity := Zero, Zero;
      pendingImpulse := 0.0;
    }
  }

  /** A partial update with a nullable argument: the supplied value, or the
      current one when none is supplied. */
  function Updated(current: real, supplied: Option<real>): real
  {
    if supplied.Some? then supplied.value else current
  }

  // Reward coefficients (the `Rewards` struct of FootballAgent.cs).
  const GoalScoredReward: real := 1.0
  const GoalConcededPenalty: real := -1.0
  const TimeLimitPenalty: real := -0.5
  const MovePenalty: real := -0.0001
  const ApproachBallReward: real := 0.0001
  const BallMovingTowardGoal: real := 0.002
  const BallTouchReward: real := 0.0005
  const KickPenalty: real := -0.005
  const DashPenalty: real := -0.002
  const JumpPenalty: real := -0.002

  /** Unity's `Vector3.kEpsilon`: `normalized` returns the zero vector for
      any vector whose magnitude is not above it. */
  const Epsilon: real := 0.00001

  /** `v.normalized`: the unit vector along `v`, or the zero vector when
      the magnitude `len` of `v` is not above `Epsilon`. `len` is supplied by
      the caller because the reals have no square root. */
  function Normalized(v: Vec3, len: real): (r: Vec3)
    requires len >= 0.0 && len * len == Dot(v, v)
    ensures len <= Epsilon ==> r == Zero
    ensures len > Epsilon ==> Dot(r, r) == 1.0 && Scale(r, len) == v
  {
    if len > Epsilon then
      UnitAfterScaling(v, len);
      Scale(v, 1.0 / len)
    else Zero
  }

  lemma UnitAfterScaling(c: Vec3, len: real)
    requires len > 0.0 && len * len == Dot(c, c)
    ensures Dot(Scale(c, 1.0 / len), Scale(c, 1.0 / len)) == 1.0
    ensures Scale(Scale(c, 1.0 / len), len) == c
  {
    var k := 1.0 / len;
    assert k * len == 1.0;
    calc {
      Dot(Scale(c, k), Scale(c, k));
      (c.x * k) * (c.x * k) + (c.y * k) * (c.y * k) + (c.z * k) * (c.z * k);
      (c.x * c.x + c.y * c.y + c.z * c.z) * (k * k);
      (len * len) * (k * k);
      (len * k) * (len * k);
      1.0;
    }
  }

  /** The input combination a dash direction is taken from. */
  function Combine(forward: Vec3, right: Vec3, horizontal: real, vertical: real): Vec3
  {
    Add(Scale(forward, vertical), Scale(right, horizontal))
  }

  /** What a dash reads when it starts: the cube's forward and right axes,
      the raw horizontal and vertical input axes, and the magnitude of their
      combination. */
  datatype DashInput = DashInput(forward: Vec3, right: Vec3, horizontal: real, vertical: real, len: real)
  {
    predicate WellFormed()
    {
      len >= 0.0 && len * len == Dot(Combine(forward, right, horizontal, vertical), Combine(forward, right, horizontal, vertical))
    }

    /** `(forward * vertical + right * horizontal).normalized`, replaced by
        `forward` when that is the zero vector. */
    function Direction(): (r: Vec3)
      requires WellFormed()
      ensures len <= Epsilon ==> r == forward
      ensures len > Epsilon ==> Dot(r, r) == 1.0
      ensures len > Epsilon ==> Scale(r, len) == Combine(forward, right, horizontal, vertical)
    {
      var n := Normalized(Combine(forward, right, horizontal, vertical), len);
      if n == Zero then forward else n
    }
  }

  /** The landing rule every cube shares: a contact whose normal has a
      vertical component above 0.5 grounds the cube; any other contact
      leaves the flag as it was. */
  function Landed(wasGrounded: bool, normalY: real): (g: bool)
    ensures g <==> wasGrounded || normalY > 0.5
  {
    if normalY > 0.5 then true else wasGrounded
  }

  /** The jump gate every cube shares: a requested jump fires only when the
      cube is grounded, and firing clears the flag. Returns whether the jump
      fires and the grounded flag afterwards. */
  function JumpGate(grounded: bool, requested: bool): (r: (bool, bool))
    ensures r.0 <==> requested && grounded
    ensures r.1 <==> grounded && !requested
  {
    if requested && grounded then (true, false) else (false, grounded)
  }

  /** One input to the jump/ground state machine: a jump request or a
      collision contact with the given normal's vertical component. */
  datatype GroundEvent = JumpRequest | Contact(normalY: real)

  /** Grounded flag and number of jumps after a run of events: a jump fires
      only when grounded and clears the flag; only a landing contact sets it. */
  function RunGround(grounded: bool, evs: seq<GroundEvent>): (r: (bool, nat))
    decreases |evs|
  {
    if evs == [] then (grounded, 0)
    else
      match evs[0]
      case JumpRequest =>
        var g := JumpGate(grounded, true);
        var t := RunGround(g.1, evs[1..]);
        (t.0, t.1 + (if g.0 then 1 else 0))
      case Contact(ny) => RunGround(Landed(grounded, ny), evs[1..])
  }

  /** Number of landing contacts (normal.y > 0.5) in a run of events. */
  function Landings(evs: seq<GroundEvent>): nat
  {
    if evs == [] then 0
    else (if evs[0].Contact? && evs[0].normalY > 0.5 then 1 else 0) + Landings(evs[1..])
  }

  /** No double jump: over any run of events, the jumps that fire never
      outnumber the landings plus one for starting on the ground. */
  lemma {:induction false} JumpsBoundedByLandings(grounded: bool, evs: seq<GroundEvent>)
    ensures RunGround(grounded, evs).1 + (if RunGround(grounded, evs).0 then 1 else 0)
            <= Landings(evs) + (if grounded then 1 else 0)
    decreases |evs|
  {
    if evs != [] {
      match evs[0]
      case JumpRequest =>
        JumpsBoundedByLandings(false, evs[1..]);
      case Contact(ny) =>
        JumpsBoundedByLandings(Landed(grounded, ny), evs[1..]);
    }
  }
}
