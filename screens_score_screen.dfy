/** The score board of `Screens/ScoreScreen.cs`: counts the goals of its own
    environment and shows them on its canvas. */
module ScoreScreens {
  import opened Common
  import opened Hierarchy
  import opened Enviroments
  import opened Goals
  import opened ScoreTexts

  class ScoreScreen {
    var canvas: Canvas
    var isSingleScoreScreen: bool
    var net: Option<Net>
    var envID: int
    /** The tally: index 0 counts goals in the Albert net, index 1 in the
        Kai net. `GetScoreAmount` hands out this very array. */
    var scoreAmount: array<int>
    /** Whether `HandleGoalScored` is subscribed to the goal event. */
    var subscribed: bool

    predicate Valid()
      reads this
    {
      scoreAmount.Length == 2
    }

    constructor (canvas: Canvas, isSingleScoreScreen: bool, net: Option<Net>)
      ensures this.canvas == canvas && this.isSingleScoreScreen == isSingleScoreScreen && this.net == net
      ensures Valid() && fresh(scoreAmount) && scoreAmount[..] == [0, 0]
      ensures envID == 0 && !subscribed
    {
      this.canvas := canvas;
      this.isSingleScoreScreen := isSingleScoreScreen;
      this.net := net;
      envID := 0;
      subscribed := false;
      scoreAmount := new int[2](_ => 0);
    }

    /** The id of the net the board watches, if it has one. */
    function NetIdOf(): Option<NetId>
      reads this, if net.Some? then {net.value} else {}
    {
      if net.Some? then Some(net.value.GetNetID()) else None
    }

    function Boxes(): set<TextBox>
      reads this
    {
      if canvas.WithText? then {canvas.box} else {}
    }

    /** `Awake`: takes the id of the enclosing environment (the lookup
        throws when there is none, and the id stays as it was); a single
        board without a net only logs a warning. */
    method Awake(parent: map<nat, nat>, envs: map<nat, Enviroment>, self: nat)
      requires Ordered(parent)
      modifies this`envID
      ensures var n := NearestWith(parent, envs.Keys, self);
              envID == if n.Some? then envs[n.value].ID else old(envID)
    {
      var id := GetCurrentEnviromentID(parent, envs, self);
      if id.Some? {
        envID := id.value;
      }
    }

    /** `OnValidate`: shows a zero tally, whatever the mode. */
    method OnValidate()
      modifies Boxes()`text
      ensures canvas.WithText? && BoardText(isSingleScoreScreen, NetIdOf(), [0, 0]).Some? ==>
                canvas.box.text == BoardText(isSingleScoreScreen, NetIdOf(), [0, 0]).value
      ensures canvas.WithText? && BoardText(isSingleScoreScreen, NetIdOf(), [0, 0]).None? ==>
                canvas.box.text == old(canvas.box.text)
    {
      SetCanvasText([0, 0]);
    }

    /** `Start`: subscribes to the goal event, unless the board is a single
        board without a net. */
    method Start()
      modifies this`subscribed
      ensures subscribed == (old(subscribed) || !(isSingleScoreScreen && net.None?))
    {
      if isSingleScoreScreen && net.None? {
        return;
      }
      subscribed := true;
    }

    /** A goal in this board's environment adds one to the entry of the net
        it went into and redraws the board; a goal elsewhere changes
        nothing. */
    method HandleGoalScored(e: GoalEvent)
      requires Valid()
      modifies scoreAmount, Boxes()`text
      ensures Valid()
      ensures e.envID != envID ==> scoreAmount[..] == old(scoreAmount[..]) && unchanged(Boxes())
      ensures e.envID == envID ==> scoreAmount[..] == AddGoal(old(scoreAmount[..]), e.netID)
      ensures e.envID == envID && canvas.WithText? && BoardText(isSingleScoreScreen, NetIdOf(), scoreAmount[..]).Some? ==>
                canvas.box.text == BoardText(isSingleScoreScreen, NetIdOf(), scoreAmount[..]).value
      ensures !canvas.WithText? || BoardText(isSingleScoreScreen, NetIdOf(), scoreAmount[..]).None? ==> unchanged(Boxes())
    {
      if e.envID != envID {
        return;
      }
      scoreAmount[0] := scoreAmount[0] + (if e.netID == AlbertNet then 1 else 0);
      scoreAmount[1] := scoreAmount[1] + (if e.netID == KaiNet then 1 else 0);
      SetCanvasText(scoreAmount[..]);
    }

    /** Writes the board text; without a canvas or a text component (or in
        single mode without a net) nothing is written. */
    method SetCanvasText(newScoreAmount: seq<int>)
      requires |newScoreAmount| == 2
      modifies Boxes()`text
      ensures canvas.WithText? && BoardText(isSingleScoreScreen, NetIdOf(), newScoreAmount).Some? ==>
                canvas.box.text == BoardText(isSingleScoreScreen, NetIdOf(), newScoreAmount).value
      ensures !canvas.WithText? || BoardText(isSingleScoreScreen, NetIdOf(), newScoreAmount).None? ==>
                unchanged(Boxes())
    {
      if canvas.NoCanvas? {
        return;
      }
      if canvas.NoText? {
        return;
      }
      var scoreText := canvas.box;
      if !isSingleScoreScreen {
        scoreText.text := IntToString(newScoreAmount[0]) + " - " + IntToString(newScoreAmount[1]);
      } else if isSingleScoreScreen && net.Some? {
        scoreText.text := if net.value.GetNetID() == AlbertNet then IntToString(newScoreAmount[1])
                          else IntToString(newScoreAmount[0]);
      }
    }

    function GetScoreAmount(): (a: array<int>)
      reads this
      ensures a == scoreAmount
    {
      scoreAmount
    }

    /** Adopts the given array (by reference) when it is non-null with
        exactly two entries; anything else is refused with a warning. */
    method SetScoreAmount(newScoreAmount: Option<array<int>>)
      modifies this`scoreAmount
      ensures newScoreAmount.Some? && newScoreAmount.value.Length == 2 ==> GetScoreAmount() == newScoreAmount.value
      ensures !(newScoreAmount.Some? && newScoreAmount.value.Length == 2) ==> scoreAmount == old(scoreAmount)
      ensures old(Valid()) ==> Valid()
    {
      if newScoreAmount.Some? && newScoreAmount.value.Length == 2 {
        scoreAmount := newScoreAmount.value;
      }
    }
  }
}
