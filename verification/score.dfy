/**
 * `ScoreMetersListener`: listens to the travelled meters and adds
 * `SCORE_FACTOR x multiplier` points per `METERS_DELTA` meters, notifying
 * `SCORE_CHANGED` with the new score on every write. The multiplier is kept
 * rounded to one decimal, so it is held here as a whole number of tenths.
 */
module Score {
  import opened JavaLang

  const SCORE_FACTOR: int := 10
  const METERS_DELTA: int := 1
  const INITIAL_SCORE: int := 0
  /** The multiplier a new listener starts with, in tenths (1.0). */
  const INITIAL_MULTIPLIER_TENTHS: int := 10

  /** The meters topics; only METERS_CHANGED matters to the score. */
  datatype MetersEventType = METERS_CHANGED | OtherMetersEvent(name: string)

  datatype MetersEvent = MetersEvent(eventType: MetersEventType, meters: int)

  /** The listener's state, plus the values `SCORE_CHANGED` has been notified with, in order. */
  datatype ScoreState = ScoreState(score: int, multiplierTenths: int, notifications: seq<int>)

  /** Every notification carried the score written, so the last one is the current score. */
  predicate Notified(s: ScoreState) {
    s.notifications != [] && s.notifications[|s.notifications| - 1] == s.score
  }

  /** `Math.round(m * 10)`: the nearest whole number of tenths, halves rounded up. */
  function RoundTenths(m: real): (r: int)
    ensures m * 10.0 - 0.5 < r as real <= m * 10.0 + 0.5
  {
    (m * 10.0 + 0.5).Floor
  }

  /** A multiplier that already has one decimal is stored as it is. */
  lemma RoundTenthsKeepsTenths(k: int)
    ensures RoundTenths(k as real / 10.0) == k
  {
    assert (k as real / 10.0) * 10.0 == k as real;
  }

  /** `(int)(SCORE_FACTOR * multiplier)` for a multiplier of `tenths / 10`. */
  function Gain(tenths: int): (r: int)
    ensures IsInt32(SCORE_FACTOR * tenths / 10) ==> r == tenths
    ensures tenths >= 0 ==> r >= 0
  {
    SaturatingCast(SCORE_FACTOR * tenths / 10)
  }

  /** `setScore`: one write, one notification. */
  function WithScore(s: ScoreState, score: int): (r: ScoreState)
    ensures Notified(r) && r.score == score && r.multiplierTenths == s.multiplierTenths
    ensures |r.notifications| == |s.notifications| + 1 && r.notifications[..|s.notifications|] == s.notifications
  {
    s.(score := score, notifications := s.notifications + [score])
  }

  /** `update`. */
  function Updated(s: ScoreState, e: MetersEvent): ScoreState {
    if e.eventType == METERS_CHANGED && Rem(e.meters, METERS_DELTA) == 0 then
      WithScore(s, Wrap32(s.score + Gain(s.multiplierTenths)))
    else s
  }

  /** A run of `update` calls. */
  function AfterEvents(s: ScoreState, events: seq<MetersEvent>): ScoreState
    decreases |events|
  {
    if events == [] then s else Updated(AfterEvents(s, events[..|events| - 1]), events[|events| - 1])
  }

  /** Since `METERS_DELTA` is 1, every meters change scores and nothing else does. */
  lemma EveryMetersChangeScores(s: ScoreState, e: MetersEvent)
    ensures e.eventType != METERS_CHANGED ==> Updated(s, e) == s
    ensures e.eventType == METERS_CHANGED ==>
      Updated(s, e) == WithScore(s, Wrap32(s.score + Gain(s.multiplierTenths)))
  {
    if e.eventType == METERS_CHANGED {
      assert e.meters % METERS_DELTA == 0;
    }
  }

  function CountMetersChanged(events: seq<MetersEvent>): nat
    decreases |events|
  {
    if events == [] then 0
    else CountMetersChanged(events[..|events| - 1]) + (if events[|events| - 1].eventType == METERS_CHANGED then 1 else 0)
  }

  /**
   * Exactly one notification per meters change, each with the score just
   * written; the multiplier is never touched by updates.
   */
  lemma {:induction false} OneNotificationPerWrite(s: ScoreState, events: seq<MetersEvent>)
    requires Notified(s)
    ensures var t := AfterEvents(s, events);
      && Notified(t)
      && t.multiplierTenths == s.multiplierTenths
      && |t.notifications| == |s.notifications| + CountMetersChanged(events)
      && t.notifications[..|s.notifications|] == s.notifications
    decreases |events|
  {
    if events != [] {
      var init := events[..|events| - 1];
      OneNotificationPerWrite(s, init);
      EveryMetersChangeScores(AfterEvents(s, init), events[|events| - 1]);
      var before := AfterEvents(s, init);
      assert before.notifications[..|s.notifications|] == s.notifications;
      if events[|events| - 1].eventType == METERS_CHANGED {
        var after := AfterEvents(s, events);
        assert after.notifications[..|before.notifications|] == before.notifications;
        assert after.notifications[..|s.notifications|] == before.notifications[..|s.notifications|];
      }
    }
  }

  /** With the multiplier at 1.0, `n` meters changes add exactly `10 * n` points, as long as the score fits an `int`. */
  lemma {:induction false} TenPointsPerMeter(s: ScoreState, events: seq<MetersEvent>)
    requires s.multiplierTenths == INITIAL_MULTIPLIER_TENTHS && IsInt32(s.score)
    requires forall i :: 0 <= i < |events| ==> events[i].eventType == METERS_CHANGED
    requires s.score + SCORE_FACTOR * |events| <= INT_MAX
    ensures AfterEvents(s, events).score == s.score + SCORE_FACTOR * |events|
    ensures AfterEvents(s, events).multiplierTenths == s.multiplierTenths
    decreases |events|
  {
    if events != [] {
      var init := events[..|events| - 1];
      TenPointsPerMeter(s, init);
      EveryMetersChangeScores(AfterEvents(s, init), events[|events| - 1]);
    }
  }

  /** With a non-negative multiplier the score never goes down, as long as it does not overflow. */
  lemma {:induction false} ScoreNeverDecreases(s: ScoreState, events: seq<MetersEvent>)
    requires s.multiplierTenths >= 0 && IsInt32(s.score)
    requires s.score + |events| * Gain(s.multiplierTenths) <= INT_MAX
    ensures s.score <= AfterEvents(s, events).score <= s.score + |events| * Gain(s.multiplierTenths)
    ensures AfterEvents(s, events).multiplierTenths == s.multiplierTenths
    decreases |events|
  {
    if events != [] {
      var init := events[..|events| - 1];
      var g := Gain(s.multiplierTenths);
      assert |init| * g <= |events| * g by {
        assert |events| * g == |init| * g + g;
      }
      ScoreNeverDecreases(s, init);
      EveryMetersChangeScores(AfterEvents(s, init), events[|events| - 1]);
    }
  }

  class ScoreMetersListener {
    var score: int
    var multiplierTenths: int
    /** The values `SCORE_CHANGED` was notified with, in order. */
    var notifications: seq<int>

    function View(): ScoreState
      reads this
    {
      ScoreState(score, multiplierTenths, notifications)
    }

    constructor ()
      ensures View() == ScoreState(INITIAL_SCORE, INITIAL_MULTIPLIER_TENTHS, [INITIAL_SCORE])
      ensures Notified(View())
    {
      notifications := [];
      multiplierTenths := 0;
      score := 0;
      new;
      SetScore(INITIAL_SCORE);
      multiplierTenths := INITIAL_MULTIPLIER_TENTHS;
    }

    method SetScore(newScore: int)
      modifies this
      ensures View() == WithScore(old(View()), newScore)
    {
      score := newScore;
      notifications := notifications + [score];
    }

    /** `setMultiplier`: stores the multiplier rounded to one decimal; the score is untouched and nothing is notified. */
    method SetMultiplier(m: real)
      modifies this`multiplierTenths
      ensures multiplierTenths == RoundTenths(m)
    {
      multiplierTenths := RoundTenths(m);
    }

    method Update(eventType: MetersEventType, meters: int)
      modifies this
      ensures View() == Updated(old(View()), MetersEvent(eventType, meters))
    {
      if eventType == METERS_CHANGED {
        var currentScore := score;
        if Rem(meters, METERS_DELTA) == 0 {
          var newScore := Gain(multiplierTenths);
          SetScore(Wrap32(currentScore + newScore));
        }
      }
    }
  }
}
