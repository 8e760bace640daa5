/** `Scoring`: two team counters and their text labels. */
module Scorings {
  import opened ScoreTexts

  /** The label of a team: `"Team n: score"`. */
  function Label(team: int, score: int): string
  {
    "Team " + IntToString(team) + ": " + IntToString(score)
  }

  /** The board's state: both counters and both label texts. */
  datatype Board = Board(score1: int, score2: int, text1: string, text2: string)

  /** Both labels show their own team's counter. */
  predicate Shows(b: Board)
  {
    b.text1 == Label(1, b.score1) && b.text2 == Label(2, b.score2)
  }

  /** `AddScoreToTeam` as written: team 1 and team 2 each increment their
      own counter, any other number changes nothing, and the new label is
      always written to the first text, also for team 2. */
  function AddScore(b: Board, teamNumber: int): (r: Board)
    ensures r.score1 == b.score1 + (if teamNumber == 1 then 1 else 0)
    ensures r.score2 == b.score2 + (if teamNumber == 2 then 1 else 0)
    ensures r.text2 == b.text2
    ensures teamNumber != 1 && teamNumber != 2 ==> r == b
    ensures teamNumber == 2 ==> r.text1 == Label(2, r.score2)
  {
    if teamNumber == 1 then b.(score1 := b.score1 + 1, text1 := Label(1, b.score1 + 1))
    else if teamNumber == 2 then b.(score2 := b.score2 + 1, text1 := Label(2, b.score2 + 1))
    else b
  }

  /** The evidently intended update: team 2's label goes to the second
      text. */
  function AddScoreIntended(b: Board, teamNumber: int): (r: Board)
    ensures r.score1 == AddScore(b, teamNumber).score1 && r.score2 == AddScore(b, teamNumber).score2
  {
    if teamNumber == 1 then b.(score1 := b.score1 + 1, text1 := Label(1, b.score1 + 1))
    else if teamNumber == 2 then b.(score2 := b.score2 + 1, text2 := Label(2, b.score2 + 1))
    else b
  }

  /** The intended update keeps both labels in step with the counters. */
  lemma IntendedKeepsShows(b: Board, teamNumber: int)
    requires Shows(b)
    ensures Shows(AddScoreIntended(b, teamNumber))
  {
  }

  /** As written, a team-2 goal overwrites team 1's label and leaves team
      2's label stale: from a board that shows both counters, it no longer
      does. */
  lemma AsWrittenLosesTeam1Label(b: Board)
    requires Shows(b)
    ensures !Shows(AddScore(b, 2))
    ensures AddScore(b, 2).text2 != Label(2, AddScore(b, 2).score2)
  {
    var r := AddScore(b, 2);
    assert r.text1[5] == '2';
    assert Label(1, r.score1)[5] == '1';
    var s := IntToString(b.score2);
    var t := IntToString(b.score2 + 1);
    assert Label(2, b.score2) == "Team 2: " + s;
    assert Label(2, b.score2 + 1) == "Team 2: " + t;
    if "Team 2: " + s == "Team 2: " + t {
      assert s == ("Team 2: " + s)[8..] == ("Team 2: " + t)[8..] == t;
      IntToStringInjective(b.score2, b.score2 + 1);
    }
  }

  class Scoring {
    var score1: int
    var score2: int
    const scoreText1: TextBox
    const scoreText2: TextBox

    constructor (scoreText1: TextBox, scoreText2: TextBox)
      ensures this.scoreText1 == scoreText1 && this.scoreText2 == scoreText2
      ensures score1 == 0 && score2 == 0
    {
      this.scoreText1 := scoreText1;
      this.scoreText2 := scoreText2;
      score1, score2 := 0, 0;
    }

    /** The board as a value. */
    function State(): Board
      reads this, scoreText1, scoreText2
    {
      Board(score1, score2, scoreText1.text, scoreText2.text)
    }

    /** `Start`: both labels show their counters (with two distinct text
        objects). */
    method Start()
      modifies scoreText1`text, scoreText2`text
      ensures scoreText2.text == Label(2, score2)
      ensures scoreText1 != scoreText2 ==> Shows(State())
    {
      scoreText1.text := "Team 1: " + IntToString(score1);
      scoreText2.text := "Team 2: " + IntToString(score2);
    }

    /** `AddScoreToTeam`, as written: only the first text is ever
        touched. */
    method AddScoreToTeam(teamNumber: int)
      modifies this`score1, this`score2, scoreText1`text
      ensures var r := AddScore(old(State()), teamNumber);
              score1 == r.score1 && score2 == r.score2 && scoreText1.text == r.text1
    {
      if teamNumber == 1 {
        score1 := score1 + 1;
        scoreText1.text := "Team 1: " + IntToString(score1);
      } else if teamNumber == 2 {
        score2 := score2 + 1;
        scoreText1.text := "Team 2: " + IntToString(score2);
      }
    }
  }
}
