/** The home screen's daily progress: the counter of rounds played today,
    which stops at the daily goal, and the three shades a day's progress
    is drawn in. */
module Brain {

  /** One day of the progress history. The calendar date is kept as an
      opaque day number; the generated identifier is left out. */
  datatype DailyProgress = DailyProgress(day: int, completedRounds: int, goal: int)

  /** The three fills of a day's circle: grey (nothing done), faded pink
      (started) and full pink (goal reached). */
  datatype Shade = Unfilled | PartlyFilled | Filled

  /** The fill of a day's circle, read off the fraction completed/goal.
      With a zero goal the source divides by zero in floating point: a
      positive count gives +infinity and a zero count NaN, both of which
      fail the two comparisons and land on the full fill; a negative count
      gives -infinity, which is below one. */
  function ProgressShade(p: DailyProgress): (shade: Shade)
    ensures p.goal != 0 ==> (shade == Unfilled <==> p.completedRounds == 0)
    ensures p.goal == 0 ==> shade != Unfilled
  {
    if p.goal == 0 then
      (if p.completedRounds < 0 then PartlyFilled else Filled)
    else
      var fraction := p.completedRounds as real / p.goal as real;
      if fraction == 0.0 then Unfilled
      else if fraction < 1.0 then PartlyFilled
      else Filled
  }

  /** For a positive goal the shade is an integer comparison of the count
      with zero and with the goal. */
  lemma ShadeByCount(p: DailyProgress)
    requires p.goal > 0
    ensures ProgressShade(p) == Unfilled <==> p.completedRounds == 0
    ensures ProgressShade(p) == PartlyFilled <==> p.completedRounds != 0 && p.completedRounds < p.goal
    ensures ProgressShade(p) == Filled <==> p.completedRounds >= p.goal
  {
    var c, g := p.completedRounds as real, p.goal as real;
    assert c / g * g == c;
  }

  /** With no goal set, only a negative count is drawn as started. */
  lemma ShadeOfZeroGoal(p: DailyProgress)
    requires p.goal == 0
    ensures ProgressShade(p) != Unfilled
    ensures ProgressShade(p) == Filled <==> p.completedRounds >= 0
  {
  }

  /** The counter after one press of the play button: one more, unless the
      goal has been reached. */
  function AfterPlay(count: int, goal: int): (next: int)
    ensures count <= next <= count + 1
    ensures next == count + 1 <==> count < goal
    ensures count <= goal ==> next <= goal
  {
    if count < goal then count + 1 else count
  }

  /** The counter after k presses. */
  function AfterPlays(count: int, goal: int, k: nat): (final: int)
    ensures count <= final <= count + k
    ensures count <= goal ==> final <= goal
    decreases k
  {
    if k == 0 then count else AfterPlays(AfterPlay(count, goal), goal, k - 1)
  }

  function Min(a: int, b: int): int {
    if a <= b then a else b
  }

  /** From a count within the goal, k presses give the count plus k, capped
      at the goal. */
  lemma {:induction false} AfterPlaysIsMin(count: int, goal: int, k: nat)
    requires count <= goal
    ensures AfterPlays(count, goal, k) == Min(count + k, goal)
    decreases k
  {
    if k > 0 {
      AfterPlaysIsMin(AfterPlay(count, goal), goal, k - 1);
    }
  }

  /** From a count already past the goal, presses change nothing. */
  lemma {:induction false} AfterPlaysPastGoal(count: int, goal: int, k: nat)
    requires count >= goal
    ensures AfterPlays(count, goal, k) == count
    decreases k
  {
    if k > 0 {
      AfterPlaysPastGoal(AfterPlay(count, goal), goal, k - 1);
    }
  }

  /** The home screen's model: today's goal, today's count and the history. */
  class HomeViewModel {
    var dailyGoal: int
    var roundsCompletedToday: int
    var history: seq<DailyProgress>

    constructor ()
      ensures dailyGoal == 5 && roundsCompletedToday == 3 && history == []
      ensures roundsCompletedToday <= dailyGoal
    {
      dailyGoal := 5;
      roundsCompletedToday := 3;
      history := [];
    }

    /** Counts one played round, unless today's goal is already met. Only
        the count changes. */
    method PlayRound()
      modifies this`roundsCompletedToday
      ensures roundsCompletedToday == AfterPlay(old(roundsCompletedToday), dailyGoal)
      ensures old(roundsCompletedToday) < dailyGoal ==>
                roundsCompletedToday == old(roundsCompletedToday) + 1
      ensures old(roundsCompletedToday) >= dailyGoal ==> unchanged(this)
      ensures old(roundsCompletedToday) <= dailyGoal ==> roundsCompletedToday <= dailyGoal
    {
      if !(roundsCompletedToday < dailyGoal) {
        return;
      }
      roundsCompletedToday := roundsCompletedToday + 1;
    }
  }

  /** From the initial state (3 of 5), two presses reach the goal and a
      third leaves the count there. */
  method OpeningDay() returns (counts: seq<int>)
    ensures counts == [4, 5, 5]
  {
    var model := new HomeViewModel();
    model.PlayRound();
    var first := model.roundsCompletedToday;
    model.PlayRound();
    var second := model.roundsCompletedToday;
    model.PlayRound();
    counts := [first, second, model.roundsCompletedToday];
  }
}
