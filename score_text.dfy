/** What the score boards share: the two-entry tally a goal adds to, the
    decimal rendering of an `int` that C# string interpolation produces, and
    the two text formats (`"a - b"` and a single count). */
module ScoreTexts {
  import opened Common

  /** The tally increment of a goal: index 0 counts goals in the Albert net,
      index 1 goals in the Kai net. */
  function GoalDelta(net: NetId): (d: seq<int>)
    ensures |d| == 2 && d[0] + d[1] == 1
    ensures d[0] == 1 <==> net == AlbertNet
    ensures d[1] == 1 <==> net == KaiNet
    ensures 0 <= d[0] && 0 <= d[1]
  {
    match net
    case AlbertNet => [1, 0]
    case KaiNet => [0, 1]
  }

  /** The tally after one goal. */
  function AddGoal(t: seq<int>, net: NetId): (r: seq<int>)
    requires |t| == 2
    ensures |r| == 2 && r[0] + r[1] == t[0] + t[1] + 1
    ensures r[0] == t[0] + GoalDelta(net)[0] && r[1] == t[1] + GoalDelta(net)[1]
  {
    [t[0] + GoalDelta(net)[0], t[1] + GoalDelta(net)[1]]
  }

  /** Number of goals in the given net among a run of goals. */
  function GoalsIn(goals: seq<NetId>, net: NetId): nat
  {
    if goals == [] then 0 else (if goals[|goals| - 1] == net then 1 else 0) + GoalsIn(goals[..|goals| - 1], net)
  }

  /** The tally after a run of goals. */
  function Tally(t: seq<int>, goals: seq<NetId>): (r: seq<int>)
    requires |t| == 2
    ensures |r| == 2
    decreases |goals|
  {
    if goals == [] then t else AddGoal(Tally(t, goals[..|goals| - 1]), goals[|goals| - 1])
  }

  /** Starting from any tally, each entry grows by exactly the goals in its
      net, and the total by the number of goals. */
  lemma {:induction false} TallyCounts(t: seq<int>, goals: seq<NetId>)
    requires |t| == 2
    ensures Tally(t, goals)[0] == t[0] + GoalsIn(goals, AlbertNet)
    ensures Tally(t, goals)[1] == t[1] + GoalsIn(goals, KaiNet)
    ensures Tally(t, goals)[0] + Tally(t, goals)[1] == t[0] + t[1] + |goals|
    decreases |goals|
  {
    if goals != [] {
      TallyCounts(t, goals[..|goals| - 1]);
    }
  }

  // Decimal rendering.

  predicate IsDigit(c: char) { '0' as int <= c as int <= '9' as int }

  predicate AllDigits(s: string) { forall i :: 0 <= i < |s| ==> IsDigit(s[i]) }

  function DigitChar(d: nat): (c: char)
    requires d < 10
    ensures IsDigit(c) && (c as int) - ('0' as int) == d
  {
    (('0' as int) + d) as char
  }

  /** The decimal digits of `n`, without leading zeros. */
  function NatToString(n: nat): (s: string)
    ensures |s| >= 1
    ensures AllDigits(s)
    ensures s[0] == '0' ==> s == "0" && n == 0
    decreases n
  {
    if n < 10 then [DigitChar(n)] else NatToString(n / 10) + [DigitChar(n % 10)]
  }

  /** `$"{n}"`: a minus sign for negative numbers, then the digits. */
  function IntToString(n: int): (s: string)
    ensures |s| >= 1 && ' ' !in s
    ensures n < 0 <==> s[0] == '-'
  {
    if n < 0 then "-" + NatToString(-n) else NatToString(n)
  }

  /** The number a string of decimal digits denotes. */
  function ParseNat(s: string): nat
    requires AllDigits(s)
    decreases |s|
  {
    if s == [] then 0
    else
      assert IsDigit(s[|s| - 1]);
      assert AllDigits(s[..|s| - 1]);
      10 * ParseNat(s[..|s| - 1]) + ((s[|s| - 1] as int) - ('0' as int))
  }

  /** Reads back a rendered `int`: an optional minus sign, then at least one
      digit. */
  function ParseInt(s: string): Option<int>
  {
    if |s| >= 2 && s[0] == '-' && AllDigits(s[1..]) then Some(0 - ParseNat(s[1..]) as int)
    else if |s| >= 1 && AllDigits(s) then Some(ParseNat(s))
    else None
  }

  lemma {:induction false} NatRoundTrip(n: nat)
    ensures ParseNat(NatToString(n)) == n
    decreases n
  {
    if n >= 10 {
      NatRoundTrip(n / 10);
      var s := NatToString(n);
      assert s[..|s| - 1] == NatToString(n / 10);
      assert s[|s| - 1] == DigitChar(n % 10);
    }
  }

  /** The rendering of an `int` reads back as the same number. */
  lemma IntRoundTrip(n: int)
    ensures ParseInt(IntToString(n)) == Some(n)
  {
    var s := IntToString(n);
    if n < 0 {
      var t := NatToString(-n);
      NatRoundTrip(-n);
      assert s == "-" + t;
      assert s[1..] == t;
      assert |s| >= 2 && s[0] == '-' && AllDigits(s[1..]);
    } else {
      NatRoundTrip(n);
      assert s == NatToString(n);
      assert IsDigit(s[0]);
      assert s[0] != '-';
    }
  }

  /** Distinct numbers are rendered differently. */
  lemma IntToStringInjective(a: int, b: int)
    requires IntToString(a) == IntToString(b)
    ensures a == b
  {
    IntRoundTrip(a);
    IntRoundTrip(b);
  }

  /** The full board: `"a - b"`. */
  function PairText(a: int, b: int): string
  {
    IntToString(a) + " - " + IntToString(b)
  }

  /** Index of the first space, or the length when there is none. */
  function FirstSpace(s: string): (k: nat)
    ensures k <= |s|
    ensures forall i :: 0 <= i < k ==> s[i] != ' '
    ensures k < |s| ==> s[k] == ' '
    decreases |s|
  {
    if s == [] then 0 else if s[0] == ' ' then 0 else 1 + FirstSpace(s[1..])
  }

  /** Reads back a full board: two numbers around `" - "`. */
  function ParsePair(s: string): Option<(int, int)>
  {
    var k := FirstSpace(s);
    if k + 3 <= |s| && s[k..k + 3] == " - " then
      var a := ParseInt(s[..k]);
      var b := ParseInt(s[k + 3..]);
      if a.Some? && b.Some? then Some((a.value, b.value)) else None
    else None
  }

  /** The full board reads back as the pair it shows. */
  lemma PairRoundTrip(a: int, b: int)
    ensures ParsePair(PairText(a, b)) == Some((a, b))
  {
    var s := PairText(a, b);
    var sa := IntToString(a);
    assert forall i :: 0 <= i < |sa| ==> s[i] == sa[i];
    assert s[|sa|] == ' ';
    FirstSpaceIs(s, |sa|);
    assert s[..|sa|] == sa;
    assert s[|sa|..|sa| + 3] == " - ";
    assert s[|sa| + 3..] == IntToString(b);
    IntRoundTrip(a);
    IntRoundTrip(b);
  }

  lemma FirstSpaceIs(s: string, k: nat)
    requires k < |s| && s[k] == ' '
    requires forall i :: 0 <= i < k ==> s[i] != ' '
    ensures FirstSpace(s) == k
  {
  }

  /** What a score board writes: in full mode both counts; in single mode
      the count at index 1 for a board watching the Albert net and the one
      at index 0 otherwise; in single mode without a net, nothing. */
  function BoardText(single: bool, net: Option<NetId>, t: seq<int>): (r: Option<string>)
    requires |t| == 2
    ensures !single ==> r == Some(PairText(t[0], t[1]))
    ensures single && net == Some(AlbertNet) ==> r == Some(IntToString(t[1]))
    ensures single && net == Some(KaiNet) ==> r == Some(IntToString(t[0]))
    ensures r.None? <==> single && net.None?
  {
    if !single then Some(PairText(t[0], t[1]))
    else if net.Some? then Some(IntToString(if net.value == AlbertNet then t[1] else t[0]))
    else None
  }

  /** A full board always shows a readable pair, and reading it back gives
      the tally. */
  lemma BoardShowsTally(net: Option<NetId>, t: seq<int>)
    requires |t| == 2
    ensures BoardText(false, net, t).Some? && ParsePair(BoardText(false, net, t).value) == Some((t[0], t[1]))
  {
    PairRoundTrip(t[0], t[1]);
  }

  /** A text component: the only state of the UI the model keeps. */
  class TextBox {
    var text: string

    constructor (text: string)
      ensures this.text == text
    {
      this.text := text;
    }
  }

  /** Where a board's text goes: no canvas, a canvas without a text
      component, or a canvas with one. Each missing piece only logs a
      warning. */
  datatype Canvas = NoCanvas | NoText | WithText(box: TextBox)
}
