/** The score board of `Enviroment/ScoreScreen.cs`: counts every goal of
    every environment and shows the tally on its canvas. */
module PlainScoreScreens {
  import opened Common
  import opened Goals
  import opened ScoreTexts

  class ScoreScreen {
    var scoreCanvas: Canvas
    var isSingleScoreScreen: bool
    var net: Option<Net>
    /** The tally: index 0 counts goals in the Albert net, index 1 in the
        Kai net. `GetScoreAmount` hands out this very array. */
    var scoreAmount: array<int>
    /** Whether `HandleGoalScored` is subscribed to the goal event. */
    var subscribed: bool

    predicate Valid()
      reads this
    {
      scoreAmount.Length == 2
    }

    constructor (scoreCanvas: Canvas, isSingleScoreScreen: bool, net: Option<Net>)
      ensures this.scoreCanvas == scoreCanvas && this.isSingleScoreScreen == isSingleScoreScreen && this.net == net
      ensures Valid() && fresh(scoreAmount) && scoreAmount[..] == [0, 0]
      ensures !subscribed
    {
      this.scoreCanvas := scoreCanvas;
      this.isSingleScoreScreen := isSingleScoreScreen;
      this.net := net;
      subscribed := false;
      scoreAmount := new int[2](_ => 0);
    }

    function NetIdOf(): Option<NetId>
      reads this, if net.Some? then {net.value} else {}
    {
      if net.Some? then Some(net.value.GetNetID()) else None
    }

    function Boxes(): set<TextBox>
      reads this
    {
      if scoreCanvas.WithText? then {scoreCanvas.box} else {}
    }

    /** `OnValidate`: shows a zero tally, whatever the mode. */
    method OnValidate() returns (ok: bool)
      modifies Boxes()`text
      ensures !ok <==> scoreCanvas.WithText? && isSingleScoreScreen && net.None?
      ensures ok && scoreCanvas.WithText? ==> scoreCanvas.box.text == BoardText(isSingleScoreScreen, NetIdOf(), [0, 0]).value
    {
      ok := SetCanvasScore([0, 0]);
    }

    /** `Start`: subscribes to the goal event, unless the board is a single
        board without a net. */
    method Start()
      modifies this`subscribed
      ensures subscribed == (old(subscribed) || !(isSingleScoreScreen && net.None?))
    {
      if isSingleScoreScreen && net.None? {
        return;
      }
      subscribed := true;
    }

    /** Every goal, whatever its environment, adds one to the entry of the
        net it went into and redraws the board. `ok` is false when the
        redraw dereferences the missing net (the tally is then already
        updated). */
    method HandleGoalScored(e: GoalEvent) returns (ok: bool)
      requires Valid()
      modifies scoreAmount, Boxes()`text
      ensures Valid()
      ensures scoreAmount[..] == AddGoal(old(scoreAmount[..]), e.netID)
      ensures !ok <==> scoreCanvas.WithText? && isSingleScoreScreen && net.None?
      ensures ok && scoreCanvas.WithText? ==>
                scoreCanvas.box.text == BoardText(isSingleScoreScreen, NetIdOf(), scoreAmount[..]).value
      ensures !ok || !scoreCanvas.WithText? ==> unchanged(Boxes())
    {
      scoreAmount[0] := scoreAmount[0] + (if e.netID == AlbertNet then 1 else 0);
      scoreAmount[1] := scoreAmount[1] + (if e.netID == KaiNet then 1 else 0);
      ok := SetCanvasScore(scoreAmount[..]);
    }

    /** Writes the board text; without a canvas or a text component nothing
        is written. In single mode the net is dereferenced without a check,
        so a missing net throws (`ok` false, nothing written). */
    method SetCanvasScore(newScoreAmount: seq<int>) returns (ok: bool)
      requires |newScoreAmount| == 2
      modifies Boxes()`text
      ensures !ok <==> scoreCanvas.WithText? && isSingleScoreScreen && net.None?
      ensures ok && scoreCanvas.WithText? ==>
                scoreCanvas.box.text == BoardText(isSingleScoreScreen, NetIdOf(), newScoreAmount).value
      ensures !ok || !scoreCanvas.WithText? ==> unchanged(Boxes())
    {
      if scoreCanvas.NoCanvas? {
        return true;
      }
      if scoreCanvas.NoText? {
        return true;
      }
      var scoreText := scoreCanvas.box;
      if !isSingleScoreScreen {
        scoreText.text := IntToString(newScoreAmount[0]) + " - " + IntToString(newScoreAmount[1]);
      } else {
        if net.None? {
          return false;
        }
        scoreText.text := if net.value.GetNetID() == AlbertNet then IntToString(newScoreAmount[1])
                          else IntToString(newScoreAmount[0]);
      }
      ok := true;
    }

    function GetScoreAmount(): (a: array<int>)
      reads this
      ensures a == scoreAmount
    {
      scoreAmount
    }

    /** Adopts the given array (by reference) when it is non-null with
        exactly two entries; anything else is refused with a warning. */
    method SetScoreAmount(newScoreAmount: Option<array<int>>)
      modifies this`scoreAmount
      ensures newScoreAmount.Some? && newScoreAmount.value.Length == 2 ==> GetScoreAmount() == newScoreAmount.value
      ensures !(newScoreAmount.Some? && newScoreAmount.value.Length == 2) ==> scoreAmount == old(scoreAmount)
      ensures old(Valid()) ==> Valid()
    {
      if newScoreAmount.Some? && newScoreAmount.value.Length == 2 {
        scoreAmount := newScoreAmount.value;
      }
    }
  }
}
