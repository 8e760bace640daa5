/** `Field`: puts the ball and the cubes of one environment back in place
    when a goal is scored in that environment. */
module Fields {
  import opened Common
  import opened Hierarchy
  import opened Enviroments
  import Cubes
  import Players

  /** The ball's reset (`Ball.cs`): back to its configured position, turned
      to yaw -90 degrees. */
  class Ball {
    const body: Body
    var resetPosition: Vec3

    constructor (body: Body, resetPosition: Vec3)
      ensures this.body == body && this.resetPosition == resetPosition
    {
      this.body := body;
      this.resetPosition := resetPosition;
    }

    method ResetPosition()
      modifies body`position, body`yaw
      ensures body.position == resetPosition && body.yaw == -90.0
    {
      body.position := resetPosition;
      body.yaw := -90.0;
    }
  }

  /** The `ICubeEntity` a cube object carries: a `CubeEntity` or a
      `Player`, both of which reset to their remembered initial position. */
  datatype Entity = CubeEntityOf(cube: Cubes.CubeEntity) | PlayerOf(player: Players.Player)

  /** One entry of the cube array: a destroyed (null) object, or an object
      with its `ICubeEntity` component, if any, and whether it has a
      rigidbody. */
  datatype CubeSlot = Destroyed | CubeObject(entity: Option<Entity>, hasRigidbody: bool)

  /** The transform and rigidbody of the entity's object. */
  function EntityBody(e: Entity): Body
  {
    match e
    case CubeEntityOf(c) => c.body
    case PlayerOf(p) => p.body
  }

  /** `GetInitialPosition()` of the entity. */
  function EntityInitial(e: Entity): (p: Vec3)
    reads if e.CubeEntityOf? then {e.cube} else {}, if e.PlayerOf? then {e.player} else {}
    ensures e.CubeEntityOf? ==> p == e.cube.GetInitialPosition()
    ensures e.PlayerOf? ==> p == e.player.GetInitialPosition()
  {
    match e
    case CubeEntityOf(c) => c.GetInitialPosition()
    case PlayerOf(p) => p.GetInitialPosition()
  }

  /** The slot carries an entity whose body is `b`. */
  predicate Resets(s: CubeSlot, b: Body)
  {
    s.CubeObject? && s.entity.Some? && EntityBody(s.entity.value) == b
  }

  /** The cube entities and players whose remembered initial positions the
      cube loop reads. */
  function CubeEntitiesIn(cubes: seq<CubeSlot>): set<Cubes.CubeEntity>
  {
    set i | 0 <= i < |cubes| && cubes[i].CubeObject? && cubes[i].entity.Some? && cubes[i].entity.value.CubeEntityOf?
      :: cubes[i].entity.value.cube
  }

  function PlayersIn(cubes: seq<CubeSlot>): set<Players.Player>
  {
    set i | 0 <= i < |cubes| && cubes[i].CubeObject? && cubes[i].entity.Some? && cubes[i].entity.value.PlayerOf?
      :: cubes[i].entity.value.player
  }

  /** The bodies the cube loop resets. */
  function CubeBodies(cubes: seq<CubeSlot>): set<Body>
  {
    set i | 0 <= i < |cubes| && cubes[i].CubeObject? && cubes[i].entity.Some? :: EntityBody(cubes[i].entity.value)
  }

  /** The position the first `n` slots leave on body `b`: the initial
      position of the last of them that resets `b`, if any. */
  function LastReset(cubes: seq<CubeSlot>, n: nat, b: Body): Option<Vec3>
    requires n <= |cubes|
    reads CubeEntitiesIn(cubes), PlayersIn(cubes)
    decreases n
  {
    if n == 0 then None
    else if Resets(cubes[n - 1], b) then Some(EntityInitial(cubes[n - 1].entity.value))
    else LastReset(cubes, n - 1, b)
  }

  /** Some slot among the first `n` resets `b` and has a rigidbody, so the
      motion of `b` is stopped. */
  predicate Stops(cubes: seq<CubeSlot>, n: nat, b: Body)
  {
    exists i :: 0 <= i < n && i < |cubes| && Resets(cubes[i], b) && cubes[i].hasRigidbody
  }

  lemma StopsStep(cubes: seq<CubeSlot>, n: nat, b: Body)
    requires n < |cubes|
    ensures Stops(cubes, n + 1, b) <==> Stops(cubes, n, b) || (Resets(cubes[n], b) && cubes[n].hasRigidbody)
  {
    if Stops(cubes, n + 1, b) && !(Resets(cubes[n], b) && cubes[n].hasRigidbody) {
      var i :| 0 <= i < n + 1 && i < |cubes| && Resets(cubes[i], b) && cubes[i].hasRigidbody;
      assert i < n;
    }
  }

  /** A body is reset exactly when some slot carries an entity with it. */
  lemma {:induction false} LastResetSomeIff(cubes: seq<CubeSlot>, n: nat, b: Body)
    requires n <= |cubes|
    ensures LastReset(cubes, n, b).Some? <==> exists i :: 0 <= i < n && Resets(cubes[i], b)
    decreases n
  {
    if n > 0 {
      LastResetSomeIff(cubes, n - 1, b);
      if !Resets(cubes[n - 1], b) {
        assert forall i :: 0 <= i < n && Resets(cubes[i], b) ==> i < n - 1;
      }
    }
  }

  /** Entities sharing a body remember the same initial position (for
      instance when the same object is listed twice). */
  predicate Coherent(cubes: seq<CubeSlot>)
    reads CubeEntitiesIn(cubes), PlayersIn(cubes)
  {
    forall i, j :: 0 <= i < |cubes| && 0 <= j < |cubes|
                   && cubes[i].CubeObject? && cubes[i].entity.Some? && cubes[j].CubeObject? && cubes[j].entity.Some?
                   && EntityBody(cubes[i].entity.value) == EntityBody(cubes[j].entity.value)
                   ==> EntityInitial(cubes[i].entity.value) == EntityInitial(cubes[j].entity.value)
  }

  /** With coherent slots, every cube goes back to its own initial
      position, whatever the order of the array. */
  lemma {:induction false} EachCubeToItsInitial(cubes: seq<CubeSlot>, n: nat, i: nat)
    requires n <= |cubes| && i < n
    requires Coherent(cubes)
    requires cubes[i].CubeObject? && cubes[i].entity.Some?
    ensures LastReset(cubes, n, EntityBody(cubes[i].entity.value)) == Some(EntityInitial(cubes[i].entity.value))
    decreases n
  {
    var b := EntityBody(cubes[i].entity.value);
    if i < n - 1 && !Resets(cubes[n - 1], b) {
      EachCubeToItsInitial(cubes, n - 1, i);
    } else if i < n - 1 {
      assert Resets(cubes[i], b);
    }
  }

  class Field {
    var ball: Option<Ball>
    /** Whether the ball's object has a rigidbody. */
    var ballHasRigidbody: bool
    var cubes: seq<CubeSlot>
    var envID: int
    /** Whether `HandleGoalScored` is subscribed to the goal event. */
    var subscribed: bool

    constructor (ball: Option<Ball>, ballHasRigidbody: bool, cubes: seq<CubeSlot>)
      ensures this.ball == ball && this.ballHasRigidbody == ballHasRigidbody && this.cubes == cubes
      ensures envID == 0 && !subscribed
    {
      this.ball := ball;
      this.ballHasRigidbody := ballHasRigidbody;
      this.cubes := cubes;
      envID := 0;
      subscribed := false;
    }

    /** `Start`: takes the id of the enclosing environment, then subscribes
        to the goal event. Without an enclosing environment the lookup
        throws, and `Start` stops before subscribing. */
    method Start(parent: map<nat, nat>, envs: map<nat, Enviroment>, self: nat)
      requires Ordered(parent)
      modifies this`envID, this`subscribed
      ensures var n := NearestWith(parent, envs.Keys, self);
              if n.Some? then envID == envs[n.value].ID && subscribed
              else envID == old(envID) && subscribed == old(subscribed)
    {
      var id := GetCurrentEnviromentID(parent, envs, self);
      if id.None? {
        return;
      }
      envID := id.value;
      subscribed := true;
    }

    function BallBodies(): set<Body>
      reads this
    {
      if ball.Some? then {ball.value.body} else {}
    }

    /** Goal handler: only a goal in this field's environment resets it. */
    method HandleGoalScored(e: GoalEvent)
      modifies BallBodies()`position, BallBodies()`yaw, BallBodies()`velocity, BallBodies()`angularVelocity
      modifies CubeBodies(cubes)`position, CubeBodies(cubes)`yaw, CubeBodies(cubes)`velocity, CubeBodies(cubes)`angularVelocity
      ensures e.envID != envID ==> forall b: Body :: b in BallBodies() + CubeBodies(cubes) ==> unchanged(b)
      ensures e.envID == envID ==> AllReset(old(BallState()), old(CubeStates()))
    {
      if e.envID != envID {
        return;
      }
      ResetAllPositions();
    }

    /** The position, yaw, velocity and angular velocity of the ball. */
    function BallState(): (Vec3, real, Vec3, Vec3)
      reads this, BallBodies()
    {
      if ball.Some? then (ball.value.body.position, ball.value.body.yaw, ball.value.body.velocity, ball.value.body.angularVelocity)
      else (Zero, 0.0, Zero, Zero)
    }

    /** The position, yaw, velocity and angular velocity of each cube body. */
    function CubeStates(): map<Body, (Vec3, real, Vec3, Vec3)>
      reads this, CubeBodies(cubes)
    {
      map b | b in CubeBodies(cubes) :: (b.position, b.yaw, b.velocity, b.angularVelocity)
    }

    /** The state after `ResetAllPositions`, given the state before: every
        cube body is at the initial position of the last entity that resets
        it, turned to yaw -90, and stopped when one of those objects has a
        rigidbody (or it is the ball's and the ball has one); the ball (unless
        it is also a cube) is at its reset
        position, turned to yaw -90, and stopped when it has a rigidbody. */
    predicate AllReset(ballBefore: (Vec3, real, Vec3, Vec3), before: map<Body, (Vec3, real, Vec3, Vec3)>)
      reads this, BallBodies(), CubeBodies(cubes), CubeEntitiesIn(cubes), PlayersIn(cubes)
      reads if ball.Some? then {ball.value} else {}
    {
      (forall b :: b in CubeBodies(cubes) && b in before ==>
         var r := LastReset(cubes, |cubes|, b);
         var stopped := Stops(cubes, |cubes|, b) || (ball.Some? && ball.value.body == b && ballHasRigidbody);
         r.Some? && b.position == r.value
         && b.yaw == -90.0
         && b.velocity == (if stopped then Zero else before[b].2)
         && b.angularVelocity == (if stopped then Zero else before[b].3))
      && (ball.Some? && ball.value.body !in CubeBodies(cubes) ==>
            ball.value.body.position == ball.value.resetPosition && ball.value.body.yaw == -90.0
            && ball.value.body.velocity == (if ballHasRigidbody then Zero else ballBefore.2)
            && ball.value.body.angularVelocity == (if ballHasRigidbody then Zero else ballBefore.3))
    }

    method ResetAllPositions()
      modifies BallBodies()`position, BallBodies()`yaw, BallBodies()`velocity, BallBodies()`angularVelocity
      modifies CubeBodies(cubes)`position, CubeBodies(cubes)`yaw, CubeBodies(cubes)`velocity, CubeBodies(cubes)`angularVelocity
      ensures AllReset(old(BallState()), old(CubeStates()))
    {
      ResetBall();
      ResetCubes();
    }

    /** The ball part of `ResetAllPositions`. */
    method ResetBall()
      modifies BallBodies()`position, BallBodies()`yaw, BallBodies()`velocity, BallBodies()`angularVelocity
      ensures ball.Some? ==> ball.value.body.position == ball.value.resetPosition && ball.value.body.yaw == -90.0
      ensures ball.Some? ==> ball.value.body.velocity == (if ballHasRigidbody then Zero else old(ball.value.body.velocity))
      ensures ball.Some? ==> ball.value.body.angularVelocity == (if ballHasRigidbody then Zero else old(ball.value.body.angularVelocity))
    {
      if ball.Some? {
        ball.value.ResetPosition();
        if ballHasRigidbody {
          ball.value.body.velocity := Zero;
          ball.value.body.angularVelocity := Zero;
        }
      }
    }

    /** The cube loop of `ResetAllPositions`: destroyed objects and objects
        without an entity are skipped. */
    method ResetCubes()
      modifies CubeBodies(cubes)`position, CubeBodies(cubes)`yaw, CubeBodies(cubes)`velocity, CubeBodies(cubes)`angularVelocity
      ensures forall b :: b in CubeBodies(cubes) ==>
                var r := LastReset(cubes, |cubes|, b);
                r.Some? && b.position == r.value && b.yaw == -90.0
                && b.velocity == (if Stops(cubes, |cubes|, b) then Zero else old(b.velocity))
                && b.angularVelocity == (if Stops(cubes, |cubes|, b) then Zero else old(b.angularVelocity))
    {
      var i := 0;
      while i < |cubes|
        invariant 0 <= i <= |cubes|
        invariant forall b :: b in CubeBodies(cubes) ==>
                    var r := LastReset(cubes, i, b);
                    b.position == (if r.Some? then r.value else old(b.position))
                    && b.yaw == (if r.Some? then -90.0 else old(b.yaw))
                    && b.velocity == (if Stops(cubes, i, b) then Zero else old(b.velocity))
                    && b.angularVelocity == (if Stops(cubes, i, b) then Zero else old(b.angularVelocity))
      {
        label before:
        ResetSlot(i);
        forall b | b in CubeBodies(cubes)
          ensures var r := LastReset(cubes, i + 1, b);
                  b.position == (if r.Some? then r.value else old(b.position))
                  && b.yaw == (if r.Some? then -90.0 else old(b.yaw))
                  && b.velocity == (if Stops(cubes, i + 1, b) then Zero else old(b.velocity))
                  && b.angularVelocity == (if Stops(cubes, i + 1, b) then Zero else old(b.angularVelocity))
        {
          StopsStep(cubes, i, b);
          assert unchanged@before(CubeEntitiesIn(cubes)) && unchanged@before(PlayersIn(cubes));
          assert LastReset(cubes, i, b) == old@before(LastReset(cubes, i, b));
        }
        i := i + 1;
      }
      forall b | b in CubeBodies(cubes)
        ensures LastReset(cubes, |cubes|, b).Some?
      {
        var k :| 0 <= k < |cubes| && cubes[k].CubeObject? && cubes[k].entity.Some? && EntityBody(cubes[k].entity.value) == b;
        assert Resets(cubes[k], b);
        LastResetSomeIff(cubes, |cubes|, b);
      }
    }

    /** One iteration of the cube loop: the entity of slot `i`, if any, is
        put back at its initial position and, with a rigidbody, stopped. */
    method ResetSlot(i: nat)
      requires i < |cubes|
      modifies CubeBodies(cubes)`position, CubeBodies(cubes)`yaw, CubeBodies(cubes)`velocity, CubeBodies(cubes)`angularVelocity
      ensures forall b :: b in CubeBodies(cubes) ==>
                if Resets(cubes[i], b) then
                  b.position == EntityInitial(cubes[i].entity.value) && b.yaw == -90.0
                  && b.velocity == (if cubes[i].hasRigidbody then Zero else old(b.velocity))
                  && b.angularVelocity == (if cubes[i].hasRigidbody then Zero else old(b.angularVelocity))
                else
                  b.position == old(b.position) && b.yaw == old(b.yaw)
                  && b.velocity == old(b.velocity) && b.angularVelocity == old(b.angularVelocity)
    {
      var slot := cubes[i];
      if slot.CubeObject? && slot.entity.Some? {
        var e := slot.entity.value;
        assert EntityBody(e) in CubeBodies(cubes);
        match e {
          case CubeEntityOf(c) =>
            c.ResetPosition(c.GetInitialPosition());
          case PlayerOf(p) =>
            p.ResetPosition(p.GetInitialPosition());
        }
        if slot.hasRigidbody {
          EntityBody(e).velocity := Zero;
          EntityBody(e).angularVelocity := Zero;
        }
      }
    }

    function GetCubes(): (c: seq<CubeSlot>)
      reads this
      ensures c == cubes
    {
      cubes
    }

    method SetCubes(newCubes: seq<CubeSlot>)
      modifies this`cubes
      ensures GetCubes() == newCubes
    {
      cubes := newCubes;
    }
  }
}
