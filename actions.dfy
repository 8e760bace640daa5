/** The discrete action vector the policy (or the keyboard heuristic) sends
    to an agent each step, how it is decoded into movement commands, and the
    per-step reward rules that SoccerAgent and AlbertAgent share. */
module Actions {
  import opened Common

  /** Decoded move action: 1 = forward, 2 = backward, anything else = hold. */
  datatype MoveCmd = Forward | Backward | Hold

  /** Decoded rotate action: 1 = left, 2 = right, anything else = none. */
  datatype TurnCmd = TurnLeft | TurnRight | NoTurn

  /** The discrete action vector `[move, rotate, jump, kick, dash]`;
      SoccerAgent and AlbertAgent read only the first three entries. */
  datatype ActionVector = ActionVector(move: int, rotate: int, jump: int, kick: int, dash: int)

  function DecodeMove(a: int): (m: MoveCmd)
    ensures m == Forward <==> a == 1
    ensures m == Backward <==> a == 2
    ensures m == Hold <==> a != 1 && a != 2
  {
    if a == 1 then Forward else if a == 2 then Backward else Hold
  }

  function DecodeTurn(a: int): (t: TurnCmd)
    ensures t == TurnLeft <==> a == 1
    ensures t == TurnRight <==> a == 2
    ensures t == NoTurn <==> a != 1 && a != 2
  {
    if a == 1 then TurnLeft else if a == 2 then TurnRight else NoTurn
  }

  /** The velocity an agent's rigidbody is given for a move command: the
      horizontal part is forward, backward or zero times the move speed,
      the vertical part is kept. */
  function MoveVelocity(m: MoveCmd, forward: Vec3, moveSpeed: real, current: Vec3): (v: Vec3)
    ensures v.y == current.y
    ensures m == Hold ==> v.x == 0.0 && v.z == 0.0
    ensures m == Forward ==> v.x == forward.x * moveSpeed && v.z == forward.z * moveSpeed
    ensures m == Backward ==> v.x == -(forward.x * moveSpeed) && v.z == -(forward.z * moveSpeed)
  {
    var dir := match m
      case Forward => forward
      case Backward => Neg(forward)
      case Hold => Zero;
    var desired := Scale(dir, moveSpeed);
    Vec3(desired.x, current.y, desired.z)
  }

  /** The angular velocity set for a rotate command: a yaw rate of minus or
      plus `rotationSpeed` degrees per second, converted to radians, or
      none. */
  function YawRate(t: TurnCmd, rotationSpeed: real): (w: Vec3)
    ensures w.x == 0.0 && w.z == 0.0
    ensures t == NoTurn ==> w == Zero
    ensures t == TurnLeft ==> w.y == -rotationSpeed * Deg2Rad
    ensures t == TurnRight ==> w.y == rotationSpeed * Deg2Rad
  {
    match t
    case TurnLeft => Vec3(0.0, -rotationSpeed * Deg2Rad, 0.0)
    case TurnRight => Vec3(0.0, rotationSpeed * Deg2Rad, 0.0)
    case NoTurn => Zero
  }

  /** A backward move is the horizontal mirror image of a forward move with
      the same vertical velocity, and a right turn the mirror image of a
      left turn. */
  lemma MirroredCommands(forward: Vec3, moveSpeed: real, current: Vec3, rotationSpeed: real)
    ensures MoveVelocity(Backward, forward, moveSpeed, current).x == -MoveVelocity(Forward, forward, moveSpeed, current).x
    ensures MoveVelocity(Backward, forward, moveSpeed, current).z == -MoveVelocity(Forward, forward, moveSpeed, current).z
    ensures MoveVelocity(Backward, forward, moveSpeed, current).y == MoveVelocity(Forward, forward, moveSpeed, current).y
    ensures YawRate(TurnRight, rotationSpeed).y == -YawRate(TurnLeft, rotationSpeed).y
  {
  }

  // The keyboard heuristic, shared by FootballAgent, SoccerAgent and AlbertAgent.

  predicate ForwardHeld(scheme: ControlScheme, held: set<Key>)
  {
    match scheme
    case WasdArrows => W in held || UpArrow in held
    case IjklShift => I in held
  }

  predicate BackwardHeld(scheme: ControlScheme, held: set<Key>)
  {
    match scheme
    case WasdArrows => S in held || DownArrow in held
    case IjklShift => K in held
  }

  predicate LeftHeld(scheme: ControlScheme, held: set<Key>)
  {
    match scheme
    case WasdArrows => A in held || LeftArrow in held
    case IjklShift => J in held
  }

  predicate RightHeld(scheme: ControlScheme, held: set<Key>)
  {
    match scheme
    case WasdArrows => D in held || RightArrow in held
    case IjklShift => L in held
  }

  /** The jump key of each scheme: Space, or the right Shift. */
  function JumpKey(scheme: ControlScheme): Key
  {
    match scheme
    case WasdArrows => Space
    case IjklShift => RightShift
  }

  /** The heuristic's kick key (FootballAgent only): F, or H. */
  function KickKey(scheme: ControlScheme): Key
  {
    match scheme
    case WasdArrows => F
    case IjklShift => H
  }

  /** The heuristic's dash key (FootballAgent only): the left Shift, or B. */
  function DashKey(scheme: ControlScheme): Key
  {
    match scheme
    case WasdArrows => LeftShift
    case IjklShift => B
  }

  /** The move entry the heuristic writes: the forward key wins over the
      backward key. */
  function HeuristicMove(scheme: ControlScheme, held: set<Key>): (a: int)
    ensures DecodeMove(a) == Forward <==> ForwardHeld(scheme, held)
    ensures DecodeMove(a) == Backward <==> !ForwardHeld(scheme, held) && BackwardHeld(scheme, held)
    ensures 0 <= a <= 2
  {
    if ForwardHeld(scheme, held) then 1 else if BackwardHeld(scheme, held) then 2 else 0
  }

  /** The rotate entry the heuristic writes: the left key wins over the
      right key. */
  function HeuristicTurn(scheme: ControlScheme, held: set<Key>): (a: int)
    ensures DecodeTurn(a) == TurnLeft <==> LeftHeld(scheme, held)
    ensures DecodeTurn(a) == TurnRight <==> !LeftHeld(scheme, held) && RightHeld(scheme, held)
    ensures 0 <= a <= 2
  {
    if LeftHeld(scheme, held) then 1 else if RightHeld(scheme, held) then 2 else 0
  }

  function Flag(b: bool): int { if b then 1 else 0 }

  /** The three-entry heuristic of SoccerAgent and AlbertAgent (kick and
      dash are left at 0). */
  function Heuristic3(scheme: ControlScheme, held: set<Key>): (v: ActionVector)
    ensures DecodeMove(v.move) == Forward <==> ForwardHeld(scheme, held)
    ensures DecodeTurn(v.rotate) == TurnLeft <==> LeftHeld(scheme, held)
    ensures v.jump == 1 <==> JumpKey(scheme) in held
    ensures v.kick == 0 && v.dash == 0
  {
    ActionVector(HeuristicMove(scheme, held), HeuristicTurn(scheme, held), Flag(JumpKey(scheme) in held), 0, 0)
  }

  /** FootballAgent's five-entry heuristic. */
  function Heuristic5(scheme: ControlScheme, held: set<Key>): (v: ActionVector)
    ensures v.move == Heuristic3(scheme, held).move && v.rotate == Heuristic3(scheme, held).rotate
    ensures v.jump == Heuristic3(scheme, held).jump
    ensures v.kick == 1 <==> KickKey(scheme) in held
    ensures v.dash == 1 <==> DashKey(scheme) in held
  {
    ActionVector(HeuristicMove(scheme, held), HeuristicTurn(scheme, held), Flag(JumpKey(scheme) in held),
                 Flag(KickKey(scheme) in held), Flag(DashKey(scheme) in held))
  }

  /** The two schemes never share a movement, turn or jump key, so two cubes
      driven by the heuristic from one keyboard can be steered apart. */
  lemma {:induction false} SchemesIndependent(held: set<Key>)
    ensures HeuristicMove(WasdArrows, held * {I, K}) == 0
    ensures HeuristicMove(IjklShift, held * {W, S, UpArrow, DownArrow}) == 0
    ensures HeuristicTurn(WasdArrows, held * {J, L}) == 0
    ensures HeuristicTurn(IjklShift, held * {A, D, LeftArrow, RightArrow}) == 0
    ensures JumpKey(WasdArrows) != JumpKey(IjklShift)
  {
    assert W !in held * {I, K} && UpArrow !in held * {I, K};
    assert S !in held * {I, K} && DownArrow !in held * {I, K};
    assert I !in held * {W, S, UpArrow, DownArrow} && K !in held * {W, S, UpArrow, DownArrow};
    assert A !in held * {J, L} && LeftArrow !in held * {J, L};
    assert D !in held * {J, L} && RightArrow !in held * {J, L};
    assert J !in held * {A, D, LeftArrow, RightArrow} && L !in held * {A, D, LeftArrow, RightArrow};
  }

  // The per-step reward rules of SoccerAgent and AlbertAgent.

  const NearBallDistance: real := 1.5
  const NearBallReward: real := 0.05
  const GoalDistance: real := 1.5
  const FallHeight: real := -1.0

  /** What one step adds to the reward and how many times it calls
      `EndEpisode`. */
  datatype StepOutcome = StepOutcome(reward: real, endEpisodes: nat)

  /** +0.05 when the ball is closer than 1.5; +1 and an episode end when the
      ball is within 1.5 of the goal; -1 and an episode end when the agent
      has fallen below y = -1. The two terminal checks are independent, so a
      step can end the episode twice. */
  function ProximityStep(distanceToBall: real, ballToGoal: real, agentY: real): (o: StepOutcome)
    ensures o.endEpisodes == (if ballToGoal < GoalDistance then 1 else 0) + (if agentY < FallHeight then 1 else 0)
    ensures o.endEpisodes <= 2
    ensures distanceToBall >= NearBallDistance && ballToGoal >= GoalDistance && agentY >= FallHeight
            ==> o == StepOutcome(0.0, 0)
    ensures o.reward > 0.0 <==>
              (agentY >= FallHeight && (distanceToBall < NearBallDistance || ballToGoal < GoalDistance))
              || (distanceToBall < NearBallDistance && ballToGoal < GoalDistance)
  {
    var near := if distanceToBall < NearBallDistance then NearBallReward else 0.0;
    var scored := if ballToGoal < GoalDistance then 1.0 else 0.0;
    var fell := if agentY < FallHeight then -1.0 else 0.0;
    StepOutcome(near + scored + fell,
                (if ballToGoal < GoalDistance then 1 else 0) + (if agentY < FallHeight then 1 else 0))
  }
}
