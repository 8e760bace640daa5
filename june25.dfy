/** The earlier one-field game (the `AIW_SOCCER_20JUNE25` tree): the ball
    detects goals itself, resets the field and tells the score screen how
    much to add. */
module OneField {
  import opened Common
  import Goals

  /** The tag of the collider the ball touched. */
  datatype ColliderTag = Goal1 | Goal2 | Untagged

  /** The two-entry increase a goal event carries: `{ player, kai }`. A
      Goal1 collision credits the player, a Goal2 collision (the player's
      own net) credits Kai. */
  function ScoreIncrease(playersNet: bool): (inc: seq<int>)
    ensures |inc| == 2 && inc[0] + inc[1] == 1
    ensures inc[0] == (if playersNet then 0 else 1) && inc[1] == (if playersNet then 1 else 0)
  {
    [if playersNet then 0 else 1, if playersNet then 1 else 0]
  }

  /** What a collision at `time` with a collider tagged `tag` does, given
      the last accepted score time: the new last score time and the raised
      increase, if any. */
  function Collide(lastScoreTime: real, time: real, tag: ColliderTag): (r: (real, Option<seq<int>>))
    ensures !Goals.Accepts(lastScoreTime, time) || tag == Untagged ==> r == (lastScoreTime, None)
    ensures Goals.Accepts(lastScoreTime, time) && tag != Untagged ==>
              r == (time, Some(ScoreIncrease(tag == Goal2)))
  {
    if time - lastScoreTime < Goals.ScoreCooldown then (lastScoreTime, None)
    else match tag
      case Goal1 => (time, Some(ScoreIncrease(false)))
      case Goal2 => (time, Some(ScoreIncrease(true)))
      case Untagged => (lastScoreTime, None)
  }

  /** A run of collisions: the final last score time and the increases
      raised, in order. */
  function Collisions(lastScoreTime: real, hits: seq<(real, ColliderTag)>): (r: (real, seq<seq<int>>))
    ensures forall k :: 0 <= k < |r.1| ==> |r.1[k]| == 2 && r.1[k][0] + r.1[k][1] == 1
    decreases |hits|
  {
    if hits == [] then (lastScoreTime, [])
    else
      var c := Collide(lastScoreTime, hits[0].0, hits[0].1);
      var rest := Collisions(c.0, hits[1..]);
      (rest.0, (if c.1.Some? then [c.1.value] else []) + rest.1)
  }

  /** Component-wise sum of a run of increases. */
  function SumIncreases(incs: seq<seq<int>>): (s: seq<int>)
    requires forall k :: 0 <= k < |incs| ==> |incs[k]| == 2
    ensures |s| == 2
    decreases |incs|
  {
    if incs == [] then [0, 0]
    else [incs[0][0] + SumIncreases(incs[1..])[0], incs[0][1] + SumIncreases(incs[1..])[1]]
  }

  /** Every raised goal adds exactly one point in total. */
  lemma {:induction false} PointsEqualGoals(incs: seq<seq<int>>)
    requires forall k :: 0 <= k < |incs| ==> |incs[k]| == 2 && incs[k][0] + incs[k][1] == 1
    ensures SumIncreases(incs)[0] + SumIncreases(incs)[1] == |incs|
    decreases |incs|
  {
    if incs != [] {
      PointsEqualGoals(incs[1..]);
    }
  }

  /** Collisions with untagged colliders never change the debounce state,
      however many there are. */
  lemma {:induction false} UntaggedChangeNothing(lastScoreTime: real, hits: seq<(real, ColliderTag)>)
    requires forall k :: 0 <= k < |hits| ==> hits[k].1 == Untagged
    ensures Collisions(lastScoreTime, hits) == (lastScoreTime, [])
    decreases |hits|
  {
    if hits != [] {
      assert hits[0].1 == Untagged;
      assert Collide(lastScoreTime, hits[0].0, hits[0].1) == (lastScoreTime, None);
      assert forall k :: 0 <= k < |hits[1..]| ==> hits[1..][k] == hits[k + 1];
      UntaggedChangeNothing(lastScoreTime, hits[1..]);
      var rest := Collisions(lastScoreTime, hits[1..]);
      assert rest.0 == lastScoreTime && rest.1 == [];
      assert Collisions(lastScoreTime, hits).1 == [] + rest.1;
      assert Collisions(lastScoreTime, hits).0 == rest.0;
    }
  }

  /** `Player` and `Kai` of this tree are not part of this model; all the
      ball relies on is their `ResetPosition()`, recorded here as a count. */
  class Resettable {
    var resets: nat

    constructor ()
      ensures resets == 0
    {
      resets := 0;
    }

    method ResetPosition()
      modifies this
      ensures resets == old(resets) + 1
    {
      resets := resets + 1;
    }
  }

  /** A raised goal event: the increase it carries and where the ball was
      when it was raised. */
  datatype Raised = Raised(scoreIncrease: seq<int>, ballPosition: Vec3)

  class Ball {
    const body: Body
    const hasRigidbody: bool
    var resetPosition: Vec3
    const player: Option<Resettable>
    const kai: Option<Resettable>
    const scoreCooldown: real
    var lastScoreTime: real
    /** The events raised so far, in order. */
    var raised: seq<Raised>

    predicate Valid()
      reads this
    {
      scoreCooldown == Goals.ScoreCooldown
    }

    constructor (body: Body, hasRigidbody: bool, player: Option<Resettable>, kai: Option<Resettable>)
      ensures this.body == body && this.hasRigidbody == hasRigidbody && this.player == player && this.kai == kai
      ensures resetPosition == Zero && lastScoreTime == -1.0 && raised == []
      ensures Valid()
    {
      this.body := body;
      this.hasRigidbody := hasRigidbody;
      this.player := player;
      this.kai := kai;
      resetPosition := Zero;
      scoreCooldown := 0.5;
      lastScoreTime := -1.0;
      raised := [];
    }

    function Others(): set<Resettable>
      reads this
    {
      (if player.Some? then {player.value} else {}) + (if kai.Some? then {kai.value} else {})
    }

    /** A collision within the cooldown of the last goal, or with an
        untagged collider, changes nothing; a goal collision records its
        time, resets the field and raises its increase. */
    method OnCollisionEnter(time: real, tag: ColliderTag)
      requires Valid()
      modifies this`lastScoreTime, this`raised, body`position, body`velocity, body`angularVelocity, Others()
      ensures Valid()
      ensures var c := Collide(old(lastScoreTime), time, tag);
              lastScoreTime == c.0
              && raised == old(raised) + (if c.1.Some? then [Raised(c.1.value, resetPosition)] else [])
      ensures Collide(old(lastScoreTime), time, tag).1.None? ==>
                unchanged(body) && forall o :: o in Others() ==> o.resets == old(o.resets)
      ensures Collide(old(lastScoreTime), time, tag).1.Some? ==>
                body.position == resetPosition
                && body.velocity == (if hasRigidbody then Zero else old(body.velocity))
                && body.angularVelocity == (if hasRigidbody then Zero else old(body.angularVelocity))
                && forall o :: o in Others() ==> o.resets == old(o.resets) + (if player == Some(o) && kai == Some(o) then 2 else 1)
    {
      if time - lastScoreTime < scoreCooldown {
        return;
      }
      if tag == Goal1 {
        lastScoreTime := time;
        GoalScored(false);
      } else if tag == Goal2 {
        lastScoreTime := time;
        GoalScored(true);
      }
    }

    /** Resets the field first, then raises the event: the raised event
        sees the ball already back at its reset position. */
    method GoalScored(playersNet: bool)
      modifies this`raised, body`position, body`velocity, body`angularVelocity, Others()
      ensures raised == old(raised) + [Raised(ScoreIncrease(playersNet), resetPosition)]
      ensures body.position == resetPosition
      ensures body.velocity == (if hasRigidbody then Zero else old(body.velocity))
      ensures body.angularVelocity == (if hasRigidbody then Zero else old(body.angularVelocity))
      ensures forall o :: o in Others() ==> o.resets == old(o.resets) + (if player == Some(o) && kai == Some(o) then 2 else 1)
    {
      ResetAllPositions();
      raised := raised + [Raised([if playersNet then 0 else 1, if playersNet then 1 else 0], body.position)];
    }

    /** The ball goes to its reset position and, with a rigidbody, stops;
        the player and Kai, when assigned, are reset too. */
    method ResetAllPositions()
      modifies body`position, body`velocity, body`angularVelocity, Others()
      ensures body.position == resetPosition
      ensures body.velocity == (if hasRigidbody then Zero else old(body.velocity))
      ensures body.angularVelocity == (if hasRigidbody then Zero else old(body.angularVelocity))
      ensures forall o :: o in Others() ==> o.resets == old(o.resets) + (if player == Some(o) && kai == Some(o) then 2 else 1)
    {
      body.position := resetPosition;
      if hasRigidbody {
        body.velocity := Zero;
        body.angularVelocity := Zero;
      }
      if player.Some? {
        player.value.ResetPosition();
      }
      if kai.Some? {
        kai.value.ResetPosition();
      }
    }
  }

  /** The score screen: adds each raised increase to its tally. */
  class Screens {
    const ball: Option<Ball>
    var scoreAmount: array<int>
    /** Whether `HandleGoalScored` is subscribed to the ball's event. */
    var subscribed: bool

    predicate Valid()
      reads this
    {
      scoreAmount.Length == 2
    }

    constructor (ball: Option<Ball>)
      ensures this.ball == ball && Valid() && fresh(scoreAmount) && scoreAmount[..] == [0, 0] && !subscribed
    {
      this.ball := ball;
      scoreAmount := new int[2](_ => 0);
      subscribed := false;
    }

    function GetScoreAmount(): (a: array<int>)
      reads this
      ensures a == scoreAmount
    {
      scoreAmount
    }

    /** Adopts the given array (by reference) when it is non-null with
        exactly two entries; anything else is refused with a warning. */
    method SetScoreAmount(newScoreAmount: Option<array<int>>)
      modifies this`scoreAmount
      ensures newScoreAmount.Some? && newScoreAmount.value.Length == 2 ==> GetScoreAmount() == newScoreAmount.value
      ensures !(newScoreAmount.Some? && newScoreAmount.value.Length == 2) ==> scoreAmount == old(scoreAmount)
      ensures old(Valid()) ==> Valid()
    {
      if newScoreAmount.Some? && newScoreAmount.value.Length == 2 {
        scoreAmount := newScoreAmount.value;
      }
    }

    /** `Start`: subscribes only when a ball is assigned. */
    method Start()
      modifies this`subscribed
      ensures subscribed == (old(subscribed) || ball.Some?)
    {
      if ball.Some? {
        subscribed := true;
      }
    }

    /** The tally grows by the increase, entry by entry. */
    method HandleGoalScored(scoreIncrease: seq<int>)
      requires Valid() && |scoreIncrease| == 2
      modifies scoreAmount
      ensures scoreAmount[0] == old(scoreAmount[0]) + scoreIncrease[0]
      ensures scoreAmount[1] == old(scoreAmount[1]) + scoreIncrease[1]
    {
      scoreAmount[0] := scoreAmount[0] + scoreIncrease[0];
      scoreAmount[1] := scoreAmount[1] + scoreIncrease[1];
    }
  }
}
