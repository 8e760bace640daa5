/** `Net`: the goal debounce and the goal-scored event a net raises. */
module Goals {
  import opened Common

  /** Seconds after an accepted goal during which further goals are ignored. */
  const ScoreCooldown: real := 0.5

  /** `lastScoreTime` before any goal. */
  const NoGoalYet: real := -1.0

  /** The debounce rule: a goal at time `t` is ignored when less than the
      cooldown has passed since the last accepted goal. */
  function Accepts(lastScoreTime: real, t: real): (b: bool)
    ensures b <==> t - lastScoreTime >= ScoreCooldown
    ensures lastScoreTime == NoGoalYet && t >= 0.0 ==> b
  {
    !(t - lastScoreTime < ScoreCooldown)
  }

  /** The event a net raises. Its argument class declares only `netID`, so
      the environment id and the scoring team that listeners read keep the
      C# defaults: 0 and the first `Team` member. */
  function RaisedEvent(id: NetId): GoalEvent
  {
    GoalEvent(id, 0, Kais)
  }

  /** The debounce over a run of goal times: the final `lastScoreTime` and
      the accepted times, in order. */
  function Debounce(last: real, times: seq<real>): (r: (real, seq<real>))
    ensures |r.1| <= |times|
    ensures r.1 == [] ==> r.0 == last
    ensures r.1 != [] ==> r.0 == r.1[|r.1| - 1]
    decreases |times|
  {
    if times == [] then (last, [])
    else if Accepts(last, times[0]) then
      var rest := Debounce(times[0], times[1..]);
      (rest.0, [times[0]] + rest.1)
    else Debounce(last, times[1..])
  }

  /** Consecutive accepted goals, and the first one and the starting
      `lastScoreTime`, are at least the cooldown apart. */
  predicate Spaced(last: real, accepted: seq<real>)
  {
    (accepted != [] ==> accepted[0] - last >= ScoreCooldown)
    && forall i :: 0 < i < |accepted| ==> accepted[i] - accepted[i - 1] >= ScoreCooldown
  }

  lemma {:induction false} DebounceSpaced(last: real, times: seq<real>)
    ensures Spaced(last, Debounce(last, times).1)
    decreases |times|
  {
    if times != [] {
      if Accepts(last, times[0]) {
        DebounceSpaced(times[0], times[1..]);
        var acc := Debounce(last, times).1;
        var rest := Debounce(times[0], times[1..]).1;
        assert acc == [times[0]] + rest;
        forall i | 0 < i < |acc| ensures acc[i] - acc[i - 1] >= ScoreCooldown {
          if i > 1 {
            assert acc[i] == rest[i - 1] && acc[i - 1] == rest[i - 2];
          }
        }
      } else {
        DebounceSpaced(last, times[1..]);
      }
    }
  }

  /** Each accepted time is one of the given times. */
  lemma {:induction false} DebounceAcceptsOnlyGivenTimes(last: real, times: seq<real>)
    ensures forall t :: t in Debounce(last, times).1 ==> t in times
    decreases |times|
  {
    if times != [] {
      if Accepts(last, times[0]) {
        DebounceAcceptsOnlyGivenTimes(times[0], times[1..]);
      } else {
        DebounceAcceptsOnlyGivenTimes(last, times[1..]);
      }
    }
  }

  /** After a goal is accepted at `last`, every goal within the cooldown
      is ignored. */
  lemma {:induction false} NothingWithinCooldown(last: real, times: seq<real>)
    requires forall i :: 0 <= i < |times| ==> times[i] - last < ScoreCooldown
    ensures Debounce(last, times) == (last, [])
    decreases |times|
  {
    if times != [] {
      NothingWithinCooldown(last, times[1..]);
    }
  }

  /** Goals on one net that all fall within one cooldown window yield at
      most one event. */
  lemma {:induction false} BurstWithinCooldownOneEvent(last: real, times: seq<real>)
    requires forall i, j :: 0 <= i < |times| && 0 <= j < |times| ==> times[j] - times[i] < ScoreCooldown
    ensures |Debounce(last, times).1| <= 1
    decreases |times|
  {
    if times != [] {
      if Accepts(last, times[0]) {
        NothingWithinCooldown(times[0], times[1..]);
      } else {
        BurstWithinCooldownOneEvent(last, times[1..]);
      }
    }
  }

  /** Extending a run by one goal time extends the debounce by one step. */
  lemma {:induction false} DebounceSnoc(last: real, times: seq<real>, t: real)
    ensures Debounce(last, times + [t]) ==
              var r := Debounce(last, times);
              if Accepts(r.0, t) then (t, r.1 + [t]) else r
    decreases |times|
  {
    if times == [] {
      assert times + [t] == [t] && [t][1..] == [] && [t] + [] == [] + [t];
    } else {
      assert (times + [t])[0] == times[0] && (times + [t])[1..] == times[1..] + [t];
      if Accepts(last, times[0]) {
        DebounceSnoc(times[0], times[1..], t);
        var r := Debounce(times[0], times[1..]);
        assert [times[0]] + (r.1 + [t]) == ([times[0]] + r.1) + [t];
      } else {
        DebounceSnoc(last, times[1..], t);
      }
    }
  }

  class Net {
    const netID: NetId
    var lastScoreTime: real
    /** The events this net has raised, oldest first. */
    var raised: seq<GoalEvent>
    /** The times `RegisterGoal` has been called at. */
    ghost var calls: seq<real>

    /** The net's state is the debounce of every call so far, and it has
        raised one event per accepted call. */
    ghost predicate Valid()
      reads this
    {
      var r := Debounce(NoGoalYet, calls);
      lastScoreTime == r.0 && raised == seq(|r.1|, _ => RaisedEvent(netID))
    }

    constructor (id: NetId)
      ensures netID == id && lastScoreTime == NoGoalYet && raised == [] && calls == []
      ensures Valid()
    {
      netID := id;
      lastScoreTime := NoGoalYet;
      raised := [];
      calls := [];
    }

    /** A goal at time `time`: ignored within the cooldown; otherwise the
        time is remembered and one event carrying this net's id is raised
        (and returned). */
    method RegisterGoal(time: real) returns (e: Option<GoalEvent>)
      requires Valid()
      modifies this`lastScoreTime, this`raised, this`calls
      ensures Valid() && calls == old(calls) + [time]
      ensures Accepts(old(lastScoreTime), time) ==>
                lastScoreTime == time && e == Some(RaisedEvent(netID)) && raised == old(raised) + [RaisedEvent(netID)]
      ensures !Accepts(old(lastScoreTime), time) ==>
                e == None && lastScoreTime == old(lastScoreTime) && raised == old(raised)
    {
      DebounceSnoc(NoGoalYet, calls, time);
      calls := calls + [time];
      if time - lastScoreTime < ScoreCooldown {
        return None;
      }
      lastScoreTime := time;
      e := GoalScored(netID);
    }

    method GoalScored(id: NetId) returns (e: Option<GoalEvent>)
      modifies this`raised
      ensures e == Some(RaisedEvent(id)) && raised == old(raised) + [RaisedEvent(id)]
    {
      e := Some(RaisedEvent(id));
      raised := raised + [RaisedEvent(id)];
    }

    function GetNetID(): (id: NetId)
      reads this
      ensures id == netID
    {
      netID
    }
  }
}
