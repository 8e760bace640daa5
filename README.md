# A verified model of the AIW soccer environment

This project models the game and training logic of the AIW soccer
environment, a Unity scene where cube-shaped players push a ball into nets.
Reinforcement-learning agents (ML-Agents) play alongside keyboard-driven
cubes. The model covers:

- **Agents.** The discrete action vector an agent receives (move, rotate,
  jump, kick, dash) and how each agent decodes it into velocities, turns
  and jumps. The per-step shaping rewards and the terminal goal rewards.
  The keyboard heuristic of both control schemes (WASD/arrows and
  IJKL/shift).
- **Cubes.** The dash state machine (dash countdown and cooldown) of
  `CubeEntity` and of the stand-alone `PlayerDash`. The kick scan over the
  colliders in front of a cube. The directly driven `Player` cube.
- **Goals.** The net's goal debounce: one goal per 0.5 s.
- **Football environment controller.** The episode clock, time-out
  penalties, goal handling, score keeping and environment reset of
  `FootballEnvController`.
- **Scene plumbing.** The environment hierarchy lookup (nearest
  environment component on the object or an ancestor). The spawner that
  lays environments out on a grid and numbers them. The field reset after
  a goal.
- **Score displays.** The score screens (tally, validation and text
  format). The older `Scoring` board. The 20JUNE25 single-field variant,
  whose ball raises goals itself.

Floats are modelled as exact reals. A scene object's transform and
rigidbody are one `Common.Body` object. Its position, yaw, velocity,
angular velocity and pending vertical impulse are fields that the methods
update in place. Components whose fields change (agents, cubes, nets,
controller, field, screens) are classes with `modifies` frames. Pure
rules are functions with lemmas, for example: decoding, rewards, the
countdowns, the debounce, the clock, the grid layout, and number
formatting and parsing. The loops of the source are methods proved
against specification functions: the spawner grid and its destroy loop,
the field reset, the controller's per-agent loops, the cube's kick scan
and the ancestor walk that precedes a component lookup.

Inputs that come from outside the logic are method parameters:

- the time, `deltaTime` and `fixedDeltaTime`;
- the pressed keys and the input axes;
- collision normals and tags;
- physics query results;
- distances and vector magnitudes (the reals have no square root);
- `Random.Range` draws, which are parameters with their inclusive ranges
  as preconditions.

ML-Agents' `AddReward` and `EndEpisode` are a reward accumulator and an
end-of-episode counter on each agent.

Where the specification text and the code differ, the model follows the
code:

- `FootballAgent`'s shot reward is `0.002 · dot · speed / 4.5` with no
  cap on the speed (FootballAgent.cs:210).
- The goal event's argument class declares only `netID`
  (Enviroment/Net.cs:17-20), and `Net` sets only that field. Its
  consumers also read an environment id and a scoring team. The model
  raises `GoalEvent(netID, 0, Kais)`: those two fields keep the C#
  defaults. Consumers accept any `GoalEvent`. As written, components of
  an environment whose id is not 0 therefore ignore every goal.
- `FootballAgent` calls `CanDash`, `CanKick`, `StartDash`, `BKick`,
  `SetEnvID` and `GetEnvID` on `CubeEntity`. Some of these are private in
  CubeEntity.cs and some are missing. The model makes them callable.
  `CanDash` is the `canDash` flag. `CanKick` is a parameter. The cube
  keeps an environment id field.
- FootballAgent.cs uses three fields it never declares:
  `lastBallToGoalDistance`, `lastBallTouchTime` and `ballTouchCooldown`.
  The model declares them, with the values the code assigns and a 0.2 s
  touch cooldown.

## Model

| member | source | states |
|---|---|---|
| Common.Normalized | AIW_SOCCER/Assets/Scripts/FootballAgent.cs:205-206 | `normalized`: the zero vector when the magnitude is at most Unity's epsilon, otherwise a unit vector that scales back to the input |
| Common.DashInput.Direction | AIW_SOCCER/Assets/Scripts/CubeEntity.cs:147-151 | the dash direction is the normalised input combination, a unit vector that scales back to it, or the forward axis when the input is (near) zero |
| Common.Landed | AIW_SOCCER/Assets/Scripts/FootballAgent.cs:325-330 | after a contact a cube is grounded iff it was grounded or the contact normal's y exceeds 0.5 |
| Common.JumpGate | AIW_SOCCER/Assets/Scripts/FootballAgent.cs:174-178 | a jump fires iff requested while grounded, and the cube stays grounded iff it was grounded and no jump was requested |
| Common.JumpsBoundedByLandings | AIW_SOCCER/Assets/Scripts/FootballAgent.cs:174-178 | no double jump: over any run of jump requests and contacts, the jumps fired never exceed the landing contacts plus one for starting grounded |
| Actions.DecodeMove | AIW_SOCCER/Assets/Scripts/FootballAgent.cs:160-162 | move action 1 is forward, 2 backward, and every other value (both directions of each iff) is hold |
| Actions.DecodeTurn | AIW_SOCCER/Assets/Scripts/FootballAgent.cs:167-172 | rotate action 1 is left, 2 right, every other value no turn |
| Actions.MoveVelocity | AIW_SOCCER/Assets/Scripts/FootballAgent.cs:160-165 | the horizontal velocity is forward, minus forward or zero times the move speed; the vertical velocity is kept |
| Actions.YawRate | AIW_SOCCER/Assets/Scripts/FootballAgent.cs:167-172 | the angular velocity is a pure yaw of minus/plus rotationSpeed·Deg2Rad, or zero |
| Actions.MirroredCommands | AIW_SOCCER/Assets/Scripts/FootballAgent.cs:160-172 | a backward move mirrors a forward move horizontally with the same vertical velocity, and a right turn mirrors a left turn |
| Actions.HeuristicMove | AIW_SOCCER/Assets/Scripts/FootballAgent.cs:267-268 | the heuristic encodes forward iff a forward key is held, backward iff only a backward key is held (forward wins), always in 0..2 |
| Actions.HeuristicTurn | AIW_SOCCER/Assets/Scripts/FootballAgent.cs:270-271 | the heuristic encodes left iff a left key is held, right iff only a right key is held (left wins) |
| Actions.Heuristic3 | AIW_SOCCER/Assets/Scripts/SoccerAgent.cs:104-130 | the three-entry heuristic decodes back to the held keys' move, turn and jump; kick and dash stay 0 |
| Actions.Heuristic5 | AIW_SOCCER/Assets/Scripts/FootballAgent.cs:260-286 | the five-entry heuristic agrees with the three-entry one and sets kick/dash iff the scheme's kick/dash key (F/H, left Shift/B) is held |
| Actions.SchemesIndependent | AIW_SOCCER/Assets/Scripts/FootballAgent.cs:264-285 | the two control schemes share no movement, turn or jump key, so one scheme's keys never drive the other |
| Actions.ProximityStep | AIW_SOCCER/Assets/Scripts/SoccerAgent.cs:86-100 | the number of episode ends is the number of terminal conditions (ball at goal, agent fallen), up to two; nothing happens when no condition holds; the step's reward is positive exactly when the bonuses outweigh the fall |
| DashTimers.Tick | AIW_SOCCER/Assets/Scripts/CubeEntity.cs:131-138 | a stopped countdown is unchanged; a running one loses dt and keeps running iff time is left, staying consistent |
| DashTimers.RunStopsAfterItsTime | AIW_SOCCER/Assets/Scripts/CubeEntity.cs:39-50 | over any run of non-negative ticks, a countdown is still running iff its time exceeds the total elapsed, and then has exactly the difference left |
| Cubes.ScanEnd | AIW_SOCCER/Assets/Scripts/CubeEntity.cs:106-111 | the kick scan stops at the first Ball without a rigidbody, or runs over every hit |
| Cubes.CubeEntity.FixedUpdate | AIW_SOCCER/Assets/Scripts/CubeEntity.cs:39-50 | while dashing the velocity is the dash velocity and the dash countdown ticks; a dash that runs out stops the cube; otherwise nothing moves |
| Cubes.CubeEntity.Update | AIW_SOCCER/Assets/Scripts/CubeEntity.cs:52-57 | dash input first (a dash starts iff the dash key is pressed and dashing is allowed), then the cooldown tick, then the kick |
| Cubes.CubeEntity.GetInitialPosition | AIW_SOCCER/Assets/Scripts/CubeEntity.cs:61-64 | returns the position remembered at wake-up |
| Cubes.CubeEntity.ResetPosition | AIW_SOCCER/Assets/Scripts/CubeEntity.cs:71-75 | moves the cube to the given position and turns it to yaw -90 |
| Cubes.CubeEntity.GetControlScheme | AIW_SOCCER/Assets/Scripts/CubeEntity.cs:81-84 | returns the configured scheme |
| Cubes.CubeEntity.SetControlScheme | AIW_SOCCER/Assets/Scripts/CubeEntity.cs:86-89 | a set scheme is read back by the getter |
| Cubes.CubeEntity.CanDash | AIW_SOCCER/Assets/Scripts/CubeEntity.cs:28 | dashing is allowed exactly when the cooldown is not running |
| Cubes.CubeEntity.SetEnvID | AIW_SOCCER/Assets/Scripts/FootballAgent.cs:108 | a set environment id is read back by the getter |
| Cubes.CubeEntity.GetEnvID | AIW_SOCCER/Assets/Scripts/FootballAgent.cs:110 | returns the cube's environment id |
| Cubes.CubeEntity.HandleKickInput | AIW_SOCCER/Assets/Scripts/CubeEntity.cs:93-100 | the scheme's kick key (F or H) kicks exactly as BKick does; otherwise no body changes |
| Cubes.CubeEntity.BKick | AIW_SOCCER/Assets/Scripts/CubeEntity.cs:102-122 | every Ball hit before the first Ball without a rigidbody gets the kick velocity; no other body changes |
| Cubes.CubeEntity.HandleDashInput | AIW_SOCCER/Assets/Scripts/CubeEntity.cs:125-129 | a dash starts iff the scheme's dash key is pressed and dashing is allowed; otherwise nothing changes |
| Cubes.CubeEntity.HandleCooldown | AIW_SOCCER/Assets/Scripts/CubeEntity.cs:131-138 | the cooldown countdown ticks by dt, re-allowing dashes when it runs out |
| Cubes.CubeEntity.StartDash | AIW_SOCCER/Assets/Scripts/CubeEntity.cs:140-152 | both countdowns are loaded with their full durations, dashing is disallowed, and the direction is the input's unit direction or forward |
| Cubes.CubeEntity.StopDash | AIW_SOCCER/Assets/Scripts/CubeEntity.cs:154-158 | the dash ends and the cube stops |
| PlayerDashes.PlayerDash.Update | AIW_SOCCER/Assets/Scripts/PlayerDash.cs:23-38 | a left-Shift press starts a dash when allowed, then the cooldown ticks (also in the frame that started it) |
| PlayerDashes.PlayerDash.FixedUpdate | AIW_SOCCER/Assets/Scripts/PlayerDash.cs:40-52 | while dashing the velocity is the dash velocity and the dash countdown ticks; the velocity is not reset when the dash ends |
| PlayerDashes.PlayerDash.StartDash | AIW_SOCCER/Assets/Scripts/PlayerDash.cs:54-69 | both countdowns are loaded, dashing is disallowed, and the direction is the input's unit direction or forward |
| PlayerDashes.PlayerDash.StopDash | AIW_SOCCER/Assets/Scripts/PlayerDash.cs:70-74 | the dash ends; the velocity is left as it was |
| Goals.Accepts | AIW_SOCCER/Assets/Scripts/Enviroment/Net.cs:25 | a goal is accepted iff at least 0.5 s passed since the last accepted one; the first goal at any t ≥ 0 is accepted |
| Goals.Debounce | AIW_SOCCER/Assets/Scripts/Enviroment/Net.cs:23-30 | the accepted goals are no more than the calls, and the last score time is the last accepted goal's time (or unchanged) |
| Goals.DebounceSpaced | AIW_SOCCER/Assets/Scripts/Enviroment/Net.cs:23-30 | accepted goals are at least 0.5 s apart from each other and from the previous one |
| Goals.DebounceAcceptsOnlyGivenTimes | AIW_SOCCER/Assets/Scripts/Enviroment/Net.cs:23-30 | every accepted goal time is one of the call times |
| Goals.NothingWithinCooldown | AIW_SOCCER/Assets/Scripts/Enviroment/Net.cs:25 | calls all within the cooldown after the last goal raise nothing and change nothing |
| Goals.BurstWithinCooldownOneEvent | AIW_SOCCER/Assets/Scripts/Enviroment/Net.cs:25-29 | calls that all fall within one 0.5 s window raise at most one event |
| Goals.DebounceSnoc | AIW_SOCCER/Assets/Scripts/Enviroment/Net.cs:23-30 | extending a run of calls by one call extends the debounce by one step |
| Goals.Net.constructor | AIW_SOCCER/Assets/Scripts/Enviroment/Net.cs:12-13 | a new net has no goal yet (last score time -1), no events and no calls |
| Goals.Net.RegisterGoal | AIW_SOCCER/Assets/Scripts/Enviroment/Net.cs:23-30 | an accepted call records the time and raises exactly one event for this net; a rejected one changes nothing and raises nothing; the net's state is the debounce of all calls |
| Goals.Net.GoalScored | AIW_SOCCER/Assets/Scripts/Enviroment/Net.cs:32-38 | raises one event carrying the given net id |
| Goals.Net.GetNetID | AIW_SOCCER/Assets/Scripts/Enviroment/Net.cs:40-43 | returns the configured net id |
| FootballAgents.ApproachTerm | AIW_SOCCER/Assets/Scripts/FootballAgent.cs:194-199 | the approach reward is paid iff the ball is no farther than at the last step |
| FootballAgents.ShotReward | AIW_SOCCER/Assets/Scripts/FootballAgent.cs:202-213 | the shot reward is positive iff the ball moves faster than 0.1 and its alignment with the goal exceeds 0.5, and then equals 0.002·dot·speed/4.5 |
| FootballAgents.GoalwardTerm | AIW_SOCCER/Assets/Scripts/FootballAgent.cs:216-221 | the goalward reward is paid iff the ball is strictly closer to the goal than at the last step |
| FootballAgents.StepReward | AIW_SOCCER/Assets/Scripts/FootballAgent.cs:152-226 | a step's reward is bounded below by the three penalties and is the bare move penalty when nothing fires and nothing improves |
| FootballAgents.ActionPenaltiesExactlyOnce | AIW_SOCCER/Assets/Scripts/FootballAgent.cs:180-191 | a fired kick, and a fired dash, each change the step's reward by exactly its penalty |
| FootballAgents.GoalOutcome | AIW_SOCCER/Assets/Scripts/FootballAgent.cs:308-318 | +1 iff the agent's team scored, -1 iff it conceded |
| FootballAgents.GoalZeroSum | AIW_SOCCER/Assets/Scripts/FootballAgent.cs:308-318 | a goal's rewards to the two teams sum to zero |
| FootballAgents.TeamIdFor | AIW_SOCCER/Assets/Scripts/FootballAgent.cs:106-110 | the team id is 2·envID for a configured id 0, else 2·envID+1 |
| FootballAgents.TeamIdInjective | AIW_SOCCER/Assets/Scripts/FootballAgent.cs:106-110 | equal team ids mean the same environment and the same side |
| FootballAgents.TeamIdDecodes | AIW_SOCCER/Assets/Scripts/FootballAgent.cs:106-110 | a team id divided by 2 gives the environment and its parity gives the side |
| FootballAgents.AlignmentWith | AIW_SOCCER/Assets/Scripts/FootballAgent.cs:140-150 | the dot product of forward with the normalised direction: zero for a (near) zero direction, else the dot divided by the distance |
| FootballAgents.FootballAgent.constructor | AIW_SOCCER/Assets/Scripts/FootballAgent.cs:90-102 | initialisation copies the cube's scheme, starts grounded and records the ball distance |
| FootballAgents.FootballAgent.Start | AIW_SOCCER/Assets/Scripts/FootballAgent.cs:104-111 | the cube takes the environment id and the behaviour team id becomes TeamIdFor of it |
| FootballAgents.FootballAgent.OnEpisodeBegin | AIW_SOCCER/Assets/Scripts/FootballAgent.cs:113-118 | the remembered ball and ball-to-goal distances are refreshed and the last touch is reset to -10 |
| FootballAgents.FootballAgent.OnActionReceived | AIW_SOCCER/Assets/Scripts/FootballAgent.cs:152-226 | velocity, yaw rate, jump gate, kick, dash (both dash timers loaded, so no second dash until the cooldown ends) and the reward StepReward, with the last distances overwritten every step |
| FootballAgents.FootballAgent.Move | AIW_SOCCER/Assets/Scripts/FootballAgent.cs:160-178 | the horizontal velocity follows the decoded move, the yaw rate the decoded turn, and an impulse of jumpForce is added exactly when a jump is requested while grounded, which also clears the grounded flag |
| FootballAgents.FootballAgent.ShapeReward | AIW_SOCCER/Assets/Scripts/FootballAgent.cs:193-225 | the reward grows by the approach, shot and goalward terms measured against the previous distances plus the move penalty, and both distances are remembered for the next step |
| FootballAgents.FootballAgent.HandleGoalScored | AIW_SOCCER/Assets/Scripts/FootballAgent.cs:304-321 | a goal in another environment changes nothing; otherwise the agent gets GoalOutcome and ends its episode once |
| FootballAgents.FootballAgent.OnCollisionEnter | AIW_SOCCER/Assets/Scripts/FootballAgent.cs:325-336 | the landing rule, and touching the ball marks the agent as colliding with it |
| FootballAgents.FootballAgent.OnCollisionExit | AIW_SOCCER/Assets/Scripts/FootballAgent.cs:338-349 | leaving the ball pays the touch reward iff the touch cooldown has passed, and then records the time |
| FootballAgents.FootballAgent.GetInitialPosition | AIW_SOCCER/Assets/Scripts/FootballAgent.cs:354 | the cube's initial position |
| FootballAgents.FootballAgent.SetTeamID | AIW_SOCCER/Assets/Scripts/FootballAgent.cs:356 | a set team id is read back |
| FootballAgents.FootballAgent.GetTeamID | AIW_SOCCER/Assets/Scripts/FootballAgent.cs:358 | the behaviour team id |
| FootballAgents.FootballAgent.SetTeam | AIW_SOCCER/Assets/Scripts/FootballAgent.cs:360 | a set team is read back |
| FootballAgents.FootballAgent.GetTeam | AIW_SOCCER/Assets/Scripts/FootballAgent.cs:362 | the agent's team |
| SoccerAgents.SoccerAgent.OnEpisodeBegin | AIW_SOCCER/Assets/Scripts/SoccerAgent.cs:31-41 | the agent is stopped and placed at the drawn spot (within ±4) and heading, and the ball at its drawn spot with zero velocity |
| SoccerAgents.SoccerAgent.OnActionReceived | AIW_SOCCER/Assets/Scripts/SoccerAgent.cs:54-101 | velocity and yaw rate from the decoded action, the jump gate, and ProximityStep's reward and episode ends |
| SoccerAgents.SoccerAgent.Heuristic | AIW_SOCCER/Assets/Scripts/SoccerAgent.cs:104-130 | the scheme's three-entry heuristic |
| SoccerAgents.SoccerAgent.OnCollisionEnter | AIW_SOCCER/Assets/Scripts/SoccerAgent.cs:132-142 | the landing rule, and a barrier contact costs 0.1 |
| SoccerAgents.SoccerAgent.ResetPosition | AIW_SOCCER/Assets/Scripts/SoccerAgent.cs:144-147 | the local position becomes the given one |
| SoccerAgents.SoccerAgent.GetMovementAttributes | AIW_SOCCER/Assets/Scripts/SoccerAgent.cs:149-152 | move speed, rotation speed and jump force, in that order |
| SoccerAgents.SoccerAgent.SetMovementAttributes | AIW_SOCCER/Assets/Scripts/SoccerAgent.cs:164-169 | only the supplied attributes change, as read back by the getter |
| SoccerAgents.SoccerAgent.GetControlScheme | AIW_SOCCER/Assets/Scripts/SoccerAgent.cs:154-157 | the configured scheme |
| SoccerAgents.SoccerAgent.SetControlScheme | AIW_SOCCER/Assets/Scripts/SoccerAgent.cs:159-162 | a set scheme is read back |
| SoccerAgents.SoccerAgent.GetInitialPosition | AIW_SOCCER/Assets/Scripts/SoccerAgent.cs:171-174 | the never-assigned initial position |
| AlbertAgents.MoveOffset | AIW_SOCCER/Assets/Scripts/AlbertAgent.cs:61-64 | a step displaces forward or backward by moveSpeed·dt, or not at all |
| AlbertAgents.TurnAngle | AIW_SOCCER/Assets/Scripts/AlbertAgent.cs:66-69 | a step turns by minus/plus rotationSpeed·dt, and leaves the rotation alone iff the action is neither |
| AlbertAgents.StepsUndo | AIW_SOCCER/Assets/Scripts/AlbertAgent.cs:61-69 | forward then backward, and left then right, return the agent to where it was |
| AlbertAgents.AlbertAgent.constructor | AIW_SOCCER/Assets/Scripts/AlbertAgent.cs:8-10 | speeds 5, 100 and 5 by default |
| AlbertAgents.AlbertAgent.OnEpisodeBegin | AIW_SOCCER/Assets/Scripts/AlbertAgent.cs:32-42 | the agent is stopped and placed at the drawn spot and heading, and the ball at its drawn spot |
| AlbertAgents.AlbertAgent.OnActionReceived | AIW_SOCCER/Assets/Scripts/AlbertAgent.cs:55-92 | the body is displaced by MoveOffset and turned by TurnAngle, the jump gate runs, and ProximityStep's reward and episode ends apply |
| AlbertAgents.AlbertAgent.MoveAndTurn | AIW_SOCCER/Assets/Scripts/AlbertAgent.cs:61-69 | the kinematic part of a step: position plus MoveOffset, yaw plus TurnAngle |
| AlbertAgents.AlbertAgent.Heuristic | AIW_SOCCER/Assets/Scripts/AlbertAgent.cs:94-120 | the encoded move, turn and jump decode back to the held keys, forward over backward and left over right |
| AlbertAgents.AlbertAgent.OnCollisionEnter | AIW_SOCCER/Assets/Scripts/AlbertAgent.cs:122-128 | the landing rule |
| Players.KeyAxis | AIW_SOCCER/Assets/Scripts/Player.cs:41-44 | an IJKL axis is +1 iff only the positive key is held, -1 iff only the negative one, 0 iff both or neither |
| Players.MoveInputs | AIW_SOCCER/Assets/Scripts/Player.cs:32-45 | WASD reads the smoothed axes; IJKL reads the key axes I/K and L/J, so each input is -1, 0 or 1 |
| Players.ReadInputs | AIW_SOCCER/Assets/Scripts/Player.cs:29-45 | the accumulating input reading equals MoveInputs and stays in {-1, 0, 1} under IJKL |
| Players.JumpPressed | AIW_SOCCER/Assets/Scripts/Player.cs:58-66 | the jump keys are Space under WASD and either Shift under IJKL |
| Players.Player.constructor | AIW_SOCCER/Assets/Scripts/Player.cs:16-23 | wake-up remembers the position and copies the cube's control scheme |
| Players.Player.FixedUpdate | AIW_SOCCER/Assets/Scripts/Player.cs:27-52 | the player is displaced along forward by move input·speed·dt and turned by rotation input·speed·dt |
| Players.Player.Update | AIW_SOCCER/Assets/Scripts/Player.cs:54-73 | a jump fires iff a jump key is pressed while grounded, and clears the flag |
| Players.Player.OnCollisionEnter | AIW_SOCCER/Assets/Scripts/Player.cs:75-82 | the landing rule |
| Players.Player.GetInitialPosition | AIW_SOCCER/Assets/Scripts/Player.cs:86-89 | the remembered position |
| Players.Player.ResetPosition | AIW_SOCCER/Assets/Scripts/Player.cs:95-99 | moves to the given position at yaw -90 |
| Players.Player.ResetToSpawn | AIW_SOCCER/Assets/Scripts/Player.cs:128-132 | moves to (5, 6, 0) at yaw -90 |
| Players.Player.GetControlScheme | AIW_SOCCER/Assets/Scripts/Player.cs:101-104 | the player's scheme |
| Players.Player.SetControlScheme | AIW_SOCCER/Assets/Scripts/Player.cs:106-109 | a set scheme is read back |
| Players.Player.GetMovementAttributes | AIW_SOCCER/Assets/Scripts/Player.cs:111-114 | move speed, rotation speed and jump force, in that order |
| Players.Player.SetMovementAttributes | AIW_SOCCER/Assets/Scripts/Player.cs:117-122 | only the supplied attributes change |
| Hierarchy.NearestWith | AIW_SOCCER/Assets/Scripts/Enviroment/Enviroment.cs:22 | the component lookup finds an object carrying the component, at or above the start, and the start itself when it carries one |
| Hierarchy.Chain | AIW_SOCCER/Assets/Scripts/Enviroment/Enviroment.cs:15-19 | the ancestor chain starts at the object, follows parent links and ends at a root |
| Hierarchy.NearestIsFirstOnChain | AIW_SOCCER/Assets/Scripts/Enviroment/Enviroment.cs:15-22 | the lookup returns the first chain element carrying the component, and nothing iff none does |
| Hierarchy.WalkUp | AIW_SOCCER/Assets/Scripts/Enviroment/Enviroment.cs:15-19 | the while loop from the parent finds the same object as the lookup whenever the start itself does not carry the component |
| Enviroments.Enviroment.GetID | AIW_SOCCER/Assets/Scripts/Enviroment/Enviroment.cs:8-11 | the environment's id |
| Enviroments.Enviroment.SetEnviromentID | AIW_SOCCER/Assets/Scripts/Enviroment/Enviroment.cs:25-28 | a set id is read back by both getters |
| Enviroments.Enviroment.GetEnviromentID | AIW_SOCCER/Assets/Scripts/Enviroment/Enviroment.cs:30-33 | the same id as GetID |
| Enviroments.Enviroment.DestroyEnviroment | AIW_SOCCER/Assets/Scripts/Enviroment/Enviroment.cs:35-38 | the environment is marked for destruction |
| Enviroments.GetCurrentEnviromentID | AIW_SOCCER/Assets/Scripts/Enviroment/Enviroment.cs:13-23 | the id of the nearest environment at or above the object, and none iff no object on the chain has one |
| EnviromentsOld.AgentsOfTeam | AIW_SOCCER/Assets/Scripts/Enviroment/Enviroment_Old.cs:35-38 | keeps exactly the agents with the given team id |
| EnviromentsOld.AgentsOfTeamPreservesOrder | AIW_SOCCER/Assets/Scripts/Enviroment/Enviroment_Old.cs:35-38 | the filter distributes over concatenation, so it keeps the agents' order |
| EnviromentsOld.EnviromentOld.constructor | AIW_SOCCER/Assets/Scripts/Enviroment/Enviroment_Old.cs:10-13 | wake-up caches the agents below |
| EnviromentsOld.EnviromentOld.SetEnviromentID | AIW_SOCCER/Assets/Scripts/Enviroment/Enviroment_Old.cs:15-18 | a set id is read back |
| EnviromentsOld.EnviromentOld.GetEnviromentID | AIW_SOCCER/Assets/Scripts/Enviroment/Enviroment_Old.cs:20-23 | the environment's id |
| EnviromentsOld.EnviromentOld.DestroyEnviroment | AIW_SOCCER/Assets/Scripts/Enviroment/Enviroment_Old.cs:25-28 | the environment is marked for destruction |
| EnviromentsOld.EnviromentOld.InitializeAgents | AIW_SOCCER/Assets/Scripts/Enviroment/Enviroment_Old.cs:30-33 | the cache becomes the agents currently below |
| EnviromentsOld.EnviromentOld.GetFootballAgentsFromTeamID | AIW_SOCCER/Assets/Scripts/Enviroment/Enviroment_Old.cs:35-38 | exactly the cached agents whose team id matches |
| EnviromentsOld.GetCurrentEnviromentID | AIW_SOCCER/Assets/Scripts/Enviroment/Enviroment_Old.cs:40-50 | the id of the nearest old environment at or above the object, none iff there is none |
| EnviromentSpawners.SpawnedAt | AIW_SOCCER/Assets/Scripts/Enviroment/EnviromentSpawner.cs:35-52 | an instance sits at the origin plus (col·d, 0, row·d); it is made visible iff it has a visibility controller, one environment is visualised and it is cell (0,0); its id is row·columns+col iff it has a controller |
| EnviromentSpawners.Row | AIW_SOCCER/Assets/Scripts/Enviroment/EnviromentSpawner.cs:33-55 | a row has one instance per column, in column order |
| EnviromentSpawners.GridLength | AIW_SOCCER/Assets/Scripts/Enviroment/EnviromentSpawner.cs:31-56 | r rows spawn r·columns instances |
| EnviromentSpawners.GridCell | AIW_SOCCER/Assets/Scripts/Enviroment/EnviromentSpawner.cs:31-56 | cell (row, col) is the instance at index row·columns+col |
| EnviromentSpawners.GridIds | AIW_SOCCER/Assets/Scripts/Enviroment/EnviromentSpawner.cs:50-52 | the k-th spawned environment gets id k, so ids are distinct and consecutive |
| EnviromentSpawners.OnlyFirstVisible | AIW_SOCCER/Assets/Scripts/Enviroment/EnviromentSpawner.cs:39-44 | at most the first spawned environment is made visible |
| EnviromentSpawners.CellIdsInjective | AIW_SOCCER/Assets/Scripts/Enviroment/EnviromentSpawner.cs:52 | distinct cells get distinct ids |
| EnviromentSpawners.SpawnGrid | AIW_SOCCER/Assets/Scripts/Enviroment/EnviromentSpawner.cs:31-56 | the nested row/column loop spawns exactly the grid, row by row |
| EnviromentSpawners.SpawnRow | AIW_SOCCER/Assets/Scripts/Enviroment/EnviromentSpawner.cs:33-55 | one pass of the column loop appends exactly the given row of the grid to what was spawned before |
| EnviromentSpawners.Awake | AIW_SOCCER/Assets/Scripts/Enviroment/EnviromentSpawner.cs:14-57 | every old environment among the children is destroyed; without a configured prefab nothing is spawned, otherwise the grid |
| Fields.Ball.ResetPosition | AIW_SOCCER/Assets/Scripts/Enviroment/Ball.cs:8-12 | the ball goes back to its reset position at yaw -90 |
| Fields.EntityInitial | AIW_SOCCER/Assets/Scripts/Enviroment/Field.cs:47 | a cube entity's reset target is its own initial position |
| Fields.StopsStep | AIW_SOCCER/Assets/Scripts/Enviroment/Field.cs:50-55 | after one more slot a body is stopped iff it was, or that slot resets it and has a rigidbody |
| Fields.LastResetSomeIff | AIW_SOCCER/Assets/Scripts/Enviroment/Field.cs:39-58 | a body is reset by the loop iff some slot holds an entity on it |
| Fields.EachCubeToItsInitial | AIW_SOCCER/Assets/Scripts/Enviroment/Field.cs:39-58 | when no two slots share a body, each cube ends at its own initial position |
| Fields.Field.Start | AIW_SOCCER/Assets/Scripts/Enviroment/Field.cs:11-15 | the field takes its environment's id and subscribes to goals |
| Fields.Field.HandleGoalScored | AIW_SOCCER/Assets/Scripts/Enviroment/Field.cs:17-22 | a goal from another environment changes no body; otherwise every position is reset |
| Fields.Field.ResetAllPositions | AIW_SOCCER/Assets/Scripts/Enviroment/Field.cs:24-59 | the ball and every cube are reset and, where they have a rigidbody, stopped; the last slot on a shared body wins |
| Fields.Field.ResetBall | AIW_SOCCER/Assets/Scripts/Enviroment/Field.cs:26-37 | the ball returns to its reset position and stops iff it has a rigidbody |
| Fields.Field.ResetCubes | AIW_SOCCER/Assets/Scripts/Enviroment/Field.cs:39-58 | the loop leaves each cube body at its last reset position, at yaw -90, stopped iff some slot on it has a rigidbody |
| Fields.Field.ResetSlot | AIW_SOCCER/Assets/Scripts/Enviroment/Field.cs:41-57 | one slot: its entity is reset to its initial position and stopped iff the slot has a rigidbody |
| Fields.Field.GetCubes | AIW_SOCCER/Assets/Scripts/Enviroment/Field.cs:61-64 | the cube slots |
| Fields.Field.SetCubes | AIW_SOCCER/Assets/Scripts/Enviroment/Field.cs:66-69 | the set slots are read back |
| ScoreTexts.GoalDelta | AIW_SOCCER/Assets/Scripts/Enviroment/Screens/ScoreScreen.cs:53-54 | a goal adds one point in total: to entry 0 iff it went into Albert's net, to entry 1 iff into Kai's |
| ScoreTexts.AddGoal | AIW_SOCCER/Assets/Scripts/Enviroment/Screens/ScoreScreen.cs:53-54 | the tally grows by one point, in the entry of the net scored into |
| ScoreTexts.TallyCounts | AIW_SOCCER/Assets/Scripts/Enviroment/Screens/ScoreScreen.cs:53-54 | after a run of goals each entry counts the goals into its net, and the total counts them all |
| ScoreTexts.NatToString | AIW_SOCCER/Assets/Scripts/Enviroment/Screens/ScoreScreen.cs:76 | a number's text is all digits, with no leading zero |
| ScoreTexts.IntToString | AIW_SOCCER/Assets/Scripts/Enviroment/Screens/ScoreScreen.cs:76 | an integer's text has no space, and starts with '-' iff it is negative |
| ScoreTexts.NatRoundTrip | AIW_SOCCER/Assets/Scripts/Enviroment/Screens/ScoreScreen.cs:76 | parsing a number's text gives the number back |
| ScoreTexts.IntRoundTrip | AIW_SOCCER/Assets/Scripts/Enviroment/Screens/ScoreScreen.cs:76 | parsing an integer's text gives the integer back |
| ScoreTexts.IntToStringInjective | AIW_SOCCER/Assets/Scripts/Enviroment/Screens/ScoreScreen.cs:76 | different scores show different texts |
| ScoreTexts.PairRoundTrip | AIW_SOCCER/Assets/Scripts/Enviroment/Screens/ScoreScreen.cs:76 | the "a - b" score text can be read back into both scores |
| ScoreTexts.BoardText | AIW_SOCCER/Assets/Scripts/Enviroment/Screens/ScoreScreen.cs:75-79 | the full board shows "t0 - t1"; a single board on Albert's net shows t1, on Kai's net t0; nothing is written iff single with no net |
| ScoreTexts.BoardShowsTally | AIW_SOCCER/Assets/Scripts/Enviroment/Screens/ScoreScreen.cs:76 | the full board's text reads back as the tally |
| ScoreScreens.ScoreScreen.Awake | AIW_SOCCER/Assets/Scripts/Enviroment/Screens/ScoreScreen.cs:16-23 | the screen takes the id of its environment |
| ScoreScreens.ScoreScreen.OnValidate | AIW_SOCCER/Assets/Scripts/Enviroment/Screens/ScoreScreen.cs:25-35 | both branches show the zero tally when a text exists and the mode can show one |
| ScoreScreens.ScoreScreen.Start | AIW_SOCCER/Assets/Scripts/Enviroment/Screens/ScoreScreen.cs:37-46 | the screen subscribes unless it is single with no net |
| ScoreScreens.ScoreScreen.HandleGoalScored | AIW_SOCCER/Assets/Scripts/Enviroment/Screens/ScoreScreen.cs:48-57 | a goal from another environment changes nothing; otherwise the tally gets AddGoal and the text shows BoardText of it; without a text component, or on a single board without a net, the text is unchanged |
| ScoreScreens.ScoreScreen.SetCanvasText | AIW_SOCCER/Assets/Scripts/Enviroment/Screens/ScoreScreen.cs:59-81 | the text becomes BoardText when there is a text and a format; otherwise nothing changes |
| ScoreScreens.ScoreScreen.GetScoreAmount | AIW_SOCCER/Assets/Scripts/Enviroment/Screens/ScoreScreen.cs:84-87 | the tally array itself (aliased) |
| ScoreScreens.ScoreScreen.SetScoreAmount | AIW_SOCCER/Assets/Scripts/Enviroment/Screens/ScoreScreen.cs:90-100 | a non-null array of length 2 is adopted (aliased); anything else is ignored; the length-2 invariant holds |
| PlainScoreScreens.ScoreScreen.OnValidate | AIW_SOCCER/Assets/Scripts/Enviroment/ScoreScreen.cs:15-25 | shows the zero tally; fails with a null dereference iff a single screen with a text has no net |
| PlainScoreScreens.ScoreScreen.Start | AIW_SOCCER/Assets/Scripts/Enviroment/ScoreScreen.cs:27-36 | subscribes unless single with no net |
| PlainScoreScreens.ScoreScreen.HandleGoalScored | AIW_SOCCER/Assets/Scripts/Enviroment/ScoreScreen.cs:38-45 | every goal, from any environment, adds AddGoal to the tally and then updates the text; when the redraw throws on the missing net (`ok` false), or there is no text component, the text is unchanged |
| PlainScoreScreens.ScoreScreen.SetCanvasScore | AIW_SOCCER/Assets/Scripts/Enviroment/ScoreScreen.cs:47-69 | writes BoardText; fails with a null dereference iff a single screen with a text has no net |
| PlainScoreScreens.ScoreScreen.GetScoreAmount | AIW_SOCCER/Assets/Scripts/Enviroment/ScoreScreen.cs:72-75 | the tally array itself |
| PlainScoreScreens.ScoreScreen.SetScoreAmount | AIW_SOCCER/Assets/Scripts/Enviroment/ScoreScreen.cs:78-88 | a non-null array of length 2 is adopted; anything else is ignored |
| OneField.ScoreIncrease | AIW_SOCCER_20JUNE25/Assets/Scripts/Ball.cs:44 | a goal adds one point: to the player (entry 0) for Goal1, to Kai (entry 1) for Goal2 |
| OneField.Collide | AIW_SOCCER_20JUNE25/Assets/Scripts/Ball.cs:20-36 | a collision scores iff the cooldown passed and it hit a goal, and then records the time; otherwise nothing changes |
| OneField.Collisions | AIW_SOCCER_20JUNE25/Assets/Scripts/Ball.cs:20-36 | every goal a run of collisions raises is worth exactly one point |
| OneField.SumIncreases | AIW_SOCCER_20JUNE25/Assets/Scripts/Screens.cs:36-42 | summed increases are a pair of scores |
| OneField.PointsEqualGoals | AIW_SOCCER_20JUNE25/Assets/Scripts/Screens.cs:36-42 | the two accumulated scores add up to the number of goals |
| OneField.UntaggedChangeNothing | AIW_SOCCER_20JUNE25/Assets/Scripts/Ball.cs:24-35 | collisions with untagged colliders raise no goal and keep the last score time |
| OneField.Ball.OnCollisionEnter | AIW_SOCCER_20JUNE25/Assets/Scripts/Ball.cs:20-36 | the ball follows Collide: a scoring collision puts the ball back at its reset position, stops it when it has a rigidbody, resets the player and Kai once each (twice for one object in both slots) and raises one event with the goal's increase; any other collision changes nothing |
| OneField.Ball.GoalScored | AIW_SOCCER_20JUNE25/Assets/Scripts/Ball.cs:38-46 | the positions are reset before the event is raised (the event sees the ball at its reset position) |
| OneField.Ball.ResetAllPositions | AIW_SOCCER_20JUNE25/Assets/Scripts/Ball.cs:48-69 | the ball returns to its reset position, stops iff it has a rigidbody, and each present player and Kai is reset once |
| OneField.Screens.GetScoreAmount | AIW_SOCCER_20JUNE25/Assets/Scripts/Screens.cs:10-13 | the tally array itself |
| OneField.Screens.SetScoreAmount | AIW_SOCCER_20JUNE25/Assets/Scripts/Screens.cs:16-26 | a non-null array of length 2 is adopted; anything else is ignored |
| OneField.Screens.Start | AIW_SOCCER_20JUNE25/Assets/Scripts/Screens.cs:28-34 | subscribes iff a ball is configured |
| OneField.Screens.HandleGoalScored | AIW_SOCCER_20JUNE25/Assets/Scripts/Screens.cs:36-42 | the increase is added component-wise to the tally |
| Scorings.AddScore | AIW_SOCCER/Assets/Scripts/Scoring.cs:16-29 | team 1 or 2 gains a point and other numbers change nothing; team 2's label is written to the first text, and the second text never changes |
| Scorings.AddScoreIntended | AIW_SOCCER/Assets/Scripts/Scoring.cs:16-29 | the same scores as AddScore, with each team's label in its own text |
| Scorings.IntendedKeepsShows | AIW_SOCCER/Assets/Scripts/Scoring.cs:16-29 | the corrected update keeps both texts showing their team's score |
| Scorings.AsWrittenLosesTeam1Label | AIW_SOCCER/Assets/Scripts/Scoring.cs:26 | as written, a goal for team 2 leaves the board showing the wrong labels: the first text says "Team 2" and the second is stale |
| Scorings.Scoring.Start | AIW_SOCCER/Assets/Scripts/Scoring.cs:10-14 | both texts show their team's label and score |
| Scorings.Scoring.AddScoreToTeam | AIW_SOCCER/Assets/Scripts/Scoring.cs:16-29 | the scores and texts change as AddScore says |
| FootballEnvControllers.AgentSpot | AIW_SOCCER/Assets/Scripts/Enviroment/FootballEnvController.cs:138-151 | an agent is placed within ±1 (x) and ±5 (z) of its starting spot, at its height |
| FootballEnvControllers.BallSpot | AIW_SOCCER/Assets/Scripts/Enviroment/FootballEnvController.cs:112-120 | the ball is placed within ±2.5 of its starting spot, at its height |
| FootballEnvControllers.Tick | AIW_SOCCER/Assets/Scripts/Enviroment/FootballEnvController.cs:194-207 | a tick adds dt to the elapsed time; once the timer reaches a second, one second comes off the timer and the time left; elapsed time minus the fraction plus the seconds left is conserved |
| FootballEnvControllers.TickBounds | AIW_SOCCER/Assets/Scripts/Enviroment/FootballEnvController.cs:194-207 | a tick takes at most one second off the clock, never below zero, and keeps the timer in [0, 1) |
| FootballEnvControllers.RunClock | AIW_SOCCER/Assets/Scripts/Enviroment/FootballEnvController.cs:101-106 | the clock never goes negative |
| FootballEnvControllers.RunClockBounds | AIW_SOCCER/Assets/Scripts/Enviroment/FootballEnvController.cs:101-106 | over n ticks the clock drops by at most n seconds, the timer stays in [0, 1), and elapsed time equals time taken off plus the timer |
| FootballEnvControllers.OccurrencesPositive | AIW_SOCCER/Assets/Scripts/Enviroment/FootballEnvController.cs:241-246 | an agent in the list occurs at least once |
| FootballEnvControllers.FootballEnvController.constructor | AIW_SOCCER/Assets/Scripts/Enviroment/FootballEnvController.cs:35 | a new controller has a 60 s limit, zero scores and no events |
| FootballEnvControllers.FootballEnvController.ResetBall | AIW_SOCCER/Assets/Scripts/Enviroment/FootballEnvController.cs:112-120 | the ball is put at BallSpot and stopped |
| FootballEnvControllers.FootballEnvController.IncrementIterationsCount | AIW_SOCCER/Assets/Scripts/Enviroment/FootballEnvController.cs:122-126 | the count grows by one and is reported |
| FootballEnvControllers.FootballEnvController.ResetIterationsCount | AIW_SOCCER/Assets/Scripts/Enviroment/FootballEnvController.cs:128-132 | the count becomes 0 and is reported |
| FootballEnvControllers.FootballEnvController.PlaceAgents | AIW_SOCCER/Assets/Scripts/Enviroment/FootballEnvController.cs:138-151 | each agent body ends at AgentSpot of its starting spot and draw (the last entry on a shared body wins), stopped and turned |
| FootballEnvControllers.FootballEnvController.PlaceAgent | AIW_SOCCER/Assets/Scripts/Enviroment/FootballEnvController.cs:140-150 | one agent's body goes to its cube's initial position offset by the draw, turns to the drawn yaw, and stops |
| FootballEnvControllers.FootballEnvController.ResetEnviroment | AIW_SOCCER/Assets/Scripts/Enviroment/FootballEnvController.cs:134-160 | the episode is live again, the clock is full, the iteration count grows by one, everything is placed, and the scores are unchanged |
| FootballEnvControllers.FootballEnvController.SetTimeLimit | AIW_SOCCER/Assets/Scripts/Enviroment/FootballEnvController.cs:162-168 | the limit is read back and the clock restarts from it |
| FootballEnvControllers.FootballEnvController.GetTimeLimit | AIW_SOCCER/Assets/Scripts/Enviroment/FootballEnvController.cs:170 | the limit |
| FootballEnvControllers.FootballEnvController.SetEnviromentID | AIW_SOCCER/Assets/Scripts/Enviroment/FootballEnvController.cs:182 | a set id is read back |
| FootballEnvControllers.FootballEnvController.GetEnviromentID | AIW_SOCCER/Assets/Scripts/Enviroment/FootballEnvController.cs:184 | the id |
| FootballEnvControllers.FootballEnvController.GetScore | AIW_SOCCER/Assets/Scripts/Enviroment/FootballEnvController.cs:186-189 | a fresh array [kaiScore, albertScore] |
| FootballEnvControllers.FootballEnvController.PenalizeAgents | AIW_SOCCER/Assets/Scripts/Enviroment/FootballEnvController.cs:241-246 | each agent gets the time-limit penalty and one episode end per list entry |
| FootballEnvControllers.FootballEnvController.NotifyAgents | AIW_SOCCER/Assets/Scripts/Enviroment/FootballEnvController.cs:228-231 | each agent handles the goal once per list entry: its reward grows by GoalPays for its number of entries, and its episode count by that number when the goal is in its environment |
| FootballEnvControllers.GoalPaysIsRepeatedOutcome | AIW_SOCCER/Assets/Scripts/Enviroment/FootballEnvController.cs:228-231 | what a goal pays an agent listed k times is k times its GoalOutcome in the goal's environment, and nothing elsewhere |
| FootballEnvControllers.FootballEnvController.EndEpisodeByTimer | AIW_SOCCER/Assets/Scripts/Enviroment/FootballEnvController.cs:236-250 | a no-op once the episode has ended; otherwise every agent is penalised and ended once, then the environment resets |
| FootballEnvControllers.FootballEnvController.HandleTimer | AIW_SOCCER/Assets/Scripts/Enviroment/FootballEnvController.cs:194-212 | while time is left the clock ticks (Tick); at zero the episode ends by timeout |
| FootballEnvControllers.FootballEnvController.FixedUpdate | AIW_SOCCER/Assets/Scripts/Enviroment/FootballEnvController.cs:101-106 | a physics step runs the timer, except once the episode has ended |
| FootballEnvControllers.FootballEnvController.HandleGoalScored | AIW_SOCCER/Assets/Scripts/Enviroment/FootballEnvController.cs:213-234 | a goal from another environment changes nothing; otherwise exactly one team's score rises, the scores are published, every agent is notified and the environment resets |
| FootballEnvControllers.FootballEnvController.ScoreGoal | AIW_SOCCER/Assets/Scripts/Enviroment/FootballEnvController.cs:217-233 | the matching-goal branch: Kais score iff Kais scored, otherwise Alberts, then notify and reset |
| FootballEnvControllers.FootballEnvController.Start | AIW_SOCCER/Assets/Scripts/Enviroment/FootballEnvController.cs:78-99 | the starting spots of the ball and every agent are recorded, the iteration count restarts, and the first reset leaves it at 1 |
| FootballEnvControllers.FootballEnvController.RecordStartingPositions | AIW_SOCCER/Assets/Scripts/Enviroment/FootballEnvController.cs:84-88 | the recorded starting positions are, entry by entry, the initial positions of the listed agents' cubes |
| FootballEnvControllers.GetCurrentEnviromentID | AIW_SOCCER/Assets/Scripts/Enviroment/FootballEnvController.cs:172-180 | the id of the nearest controller at or above the object, none iff there is none |

## Left out

- Physics: forces, collisions, friction and integration are not modelled. A jump's impulse is accumulated as a pending vertical impulse, and collisions arrive as parameters.
- Observations (`CollectObservations`) and the ML-Agents runtime are left out. This includes the `EndEpisode` → `OnEpisodeBegin` callback chain, so ending an episode is counted rather than re-entering the agent.
- The agents' stats-recorder calls and `Debug` logs, which only record. The controller's two time-out stat entries are kept as a log.
- Floating point: single floats are exact reals. There is no square root. Normalized, DashInput and AlignmentWith take a caller-supplied length `len` tied to its vector by `len * len == Dot(v, v)`. The distances and speeds in StepSenses and those taken by the agents' OnEpisodeBegin, their constructors and SoccerAgent/AlbertAgent.OnActionReceived are plain parameters with no such equation.
- Cubes.CubeEntity.BKick: the kick velocity (a quaternion rotation of the flattened forward axis by the kick angle, times the magnitude) is a parameter. The overlap sphere's contents are a parameter too.
- FootballAgents.FootballAgent.OnActionReceived: the step's senses (ball distance, ball speed, shot alignment, ball-goal distance) are free parameters, not read from the ball's body. The source reads the ball's velocity after the same step's kick has set it, so a kick towards the goal can earn the shot reward in that same step. The model does not capture that coupling.
- AlbertAgents.AlbertAgent.OnActionReceived: composing a yaw rotation is modelled as adding to the yaw angle, which assumes the agent stays upright (no pitch or roll).
- Players.Player.FixedUpdate: same upright assumption for `MoveRotation`. The smoothed WASD axes are parameters.
- FootballEnvControllers.FootballEnvController.PlaceAgents: the source writes a local position from a world-space starting position. The model places the agent's body in one space, which assumes the agents' parent sits at the origin.
- Event wiring (`+=` subscriptions, the static event bus and the order in which subscribers run) is reduced to a `subscribed` flag. A goal event is handed to each component's handler directly.
- AIW_SOCCER_20JUNE25's `Player` and `Kai` components are not part of this model. They appear only through their `ResetPosition`, which is counted.
- Scene queries (`GetComponent`, `GetComponentInChildren`, instantiation and destruction) are parameters or flags. Destruction is a `destroyRequested` flag.
- The environment lookups throw when no component is found, because they dereference the missing result: Enviroment.cs:22, FootballEnvController.cs:179 and Enviroment_Old.cs:49. Enviroments.GetCurrentEnviromentID, FootballEnvControllers.GetCurrentEnviromentID and EnviromentsOld.GetCurrentEnviromentID return `None` instead.
- UI: canvases and text components are reduced to a text field. The visibility controller of spawned environments is reduced to the requested visibility.
- The context scripts (walls, cameras, goal register, other screens, scriptable objects) are outside the modelled core.

## Findings

| source | as written | input that shows it | evidently intended | confidence | as-written member | corrected member |
|---|---|---|---|---|---|---|
| AIW_SOCCER/Assets/Scripts/Scoring.cs:26 | a goal for team 2 writes "Team 2: n" into `scoreText1` | `AddScoreToTeam(2)` after `Start`: the first text reads "Team 2: 1", the second still "Team 2: 0" | write team 2's label into `scoreText2` | high, not executed | Scorings.AsWrittenLosesTeam1Label | Scorings.IntendedKeepsShows |

The `Scoring` class itself follows the code as written (`Scorings.AddScore`).
`Scorings.AddScoreIntended` is the corrected update, and the corrected board
property is proved about it.
