/** Model of the round engine and scoring of the dual n-back game
    (dual-n-back/DualNBackGame.swift).

    Each round shows a cell of a 3x3 grid and speaks a letter; the player
    says, for each of the two cues, whether it repeats the cue of exactly
    `n` rounds before. The random draws of DualNBackGame.swift are parameters of
    NextRound and StartGame (a letter is drawn as its index in the
    alphabet), the round timer is the field `timerScheduled` and its
    callback is an explicit call of NextRound. */
module NBack {

  /** A cell of the grid, as the (row, col) pair the game stores. */
  datatype Cell = Cell(row: int, col: int)

  /** The grid is 3 cells by 3 cells. */
  const GridSize: int := 3

  predicate InGrid(c: Cell) {
    0 <= c.row < GridSize && 0 <= c.col < GridSize
  }

  /** The audio cue is drawn from the 26 letters A to Z. */
  const LetterCount: int := 26

  /** The letter at index k of the alphabet ["A", "B", ..., "Z"]. */
  function Letter(k: int): (s: string)
    requires 0 <= k < LetterCount
    ensures IsLetter(s) && s[0] as int - 'A' as int == k
  {
    [('A' as int + k) as char]
  }

  /** A one-letter string from A to Z. */
  predicate IsLetter(s: string) {
    |s| == 1 && 'A' <= s[0] <= 'Z'
  }

  /** Every index of the alphabet gives a letter, and different indices give
      different letters, so the alphabet holds 26 distinct cues. */
  lemma LetterIsLetter(j: int, k: int)
    requires 0 <= j < LetterCount && 0 <= k < LetterCount
    ensures IsLetter(Letter(k))
    ensures Letter(j) == Letter(k) <==> j == k
  {
    if Letter(j) == Letter(k) {
      assert Letter(j)[0] == Letter(k)[0];
    }
  }

  /** Does the newest entry of history `h` repeat the entry `n` places
      before it? Never when the history holds `n` entries or fewer. */
  function LagMatch<T(==)>(h: seq<T>, n: nat): bool {
    |h| > n && h[|h| - 1] == h[|h| - 1 - n]
  }

  /** A history of `n` entries or fewer has nothing to compare against. */
  lemma LagMatchNeedsHistory<T>(h: seq<T>, n: nat)
    requires |h| <= n
    ensures !LagMatch(h, n)
  {
  }

  /** Once a cue `x` is appended, the history matches exactly when `x`
      equals the cue drawn `n` rounds before it. */
  lemma LagMatchOfNewEntry<T>(h: seq<T>, x: T, n: nat)
    ensures LagMatch(h + [x], n) <==> n == 0 || (n <= |h| && x == h[|h| - n])
  {
  }

  /** The verdict depends on the two compared entries and on nothing else. */
  lemma LagMatchIsLocal<T>(h1: seq<T>, h2: seq<T>, n: nat)
    requires |h1| == |h2| > n
    requires h1[|h1| - 1] == h2[|h2| - 1] && h1[|h1| - 1 - n] == h2[|h2| - 1 - n]
    ensures LagMatch(h1, n) == LagMatch(h2, n)
  {
  }

  /** Points of one accepted answer: one for each cue the player judged right. */
  function RoundScore(positionMatch: bool, expectedPosition: bool,
                      audioMatch: bool, expectedAudio: bool): (points: int)
    ensures 0 <= points <= 2
    ensures points == 2 <==> positionMatch == expectedPosition && audioMatch == expectedAudio
    ensures points == 0 <==> positionMatch != expectedPosition && audioMatch != expectedAudio
  {
    (if positionMatch == expectedPosition then 1 else 0) + (if audioMatch == expectedAudio then 1 else 0)
  }

  function Mark(ok: bool): char {
    if ok then '✓' else '✗'
  }

  /** One entry of the feedback list, such as "Audio: ✗". */
  function Verdict(cue: string, ok: bool): string {
    cue + ": " + [Mark(ok)]
  }

  /** The scoring part of checkAnswer: one point and a tick for each cue the
      player judged right, a cross for each cue judged wrong, position first. */
  method JudgeAnswer(positionMatch: bool, expectedPosition: bool, audioMatch: bool, expectedAudio: bool)
    returns (roundScore: int, positionOk: bool, audioOk: bool, message: string)
    ensures positionOk == (positionMatch == expectedPosition)
    ensures audioOk == (audioMatch == expectedAudio)
    ensures roundScore == RoundScore(positionMatch, expectedPosition, audioMatch, expectedAudio)
    ensures message == FeedbackMessage(positionOk, audioOk)
  {
    roundScore := 0;
    var messages: seq<string> := [];

    if positionMatch == expectedPosition {
      roundScore := roundScore + 1;
      positionOk := true;
      messages := messages + [Verdict("Position", true)];
    } else {
      positionOk := false;
      messages := messages + [Verdict("Position", false)];
    }

    if audioMatch == expectedAudio {
      roundScore := roundScore + 1;
      audioOk := true;
      messages := messages + [Verdict("Audio", true)];
    } else {
      audioOk := false;
      messages := messages + [Verdict("Audio", false)];
    }
    message := Joined(messages, " ");
  }

  /** Swift's `joined(separator:)` on an array of strings. */
  function Joined(parts: seq<string>, separator: string): string
    decreases |parts|
  {
    if |parts| == 0 then ""
    else if |parts| == 1 then parts[0]
    else parts[0] + separator + Joined(parts[1..], separator)
  }

  /** Joining two parts puts the separator between them once. */
  lemma JoinedPair(first: string, second: string, separator: string)
    ensures Joined([first, second], separator) == first + separator + second
  {
    assert [first, second][1..] == [second];
  }

  /** The message shown after an accepted answer. */
  function FeedbackMessage(positionOk: bool, audioOk: bool): string {
    Joined([Verdict("Position", positionOk), Verdict("Audio", audioOk)], " ")
  }

  /** The message is the position verdict, one space, then the audio verdict. */
  lemma FeedbackMessageSpelling(positionOk: bool, audioOk: bool)
    ensures FeedbackMessage(positionOk, audioOk)
         == Verdict("Position", positionOk) + " " + Verdict("Audio", audioOk)
    ensures FeedbackMessage(positionOk, audioOk)
         == "Position: " + [Mark(positionOk)] + " Audio: " + [Mark(audioOk)]
  {
    JoinedPair(Verdict("Position", positionOk), Verdict("Audio", audioOk), " ");
  }

  /** Both verdicts can be read back from the message: it has 20
      characters, the position mark at index 10 and the audio mark last. */
  lemma FeedbackMessageReadsBack(positionOk: bool, audioOk: bool)
    ensures |FeedbackMessage(positionOk, audioOk)| == 20
    ensures FeedbackMessage(positionOk, audioOk)[10] == '✓' <==> positionOk
    ensures FeedbackMessage(positionOk, audioOk)[19] == '✓' <==> audioOk
  {
    FeedbackMessageSpelling(positionOk, audioOk);
  }

  /** Different outcomes are never shown with the same message. */
  lemma FeedbackMessageInjective(p1: bool, a1: bool, p2: bool, a2: bool)
    requires FeedbackMessage(p1, a1) == FeedbackMessage(p2, a2)
    ensures p1 == p2 && a1 == a2
  {
    FeedbackMessageReadsBack(p1, a1);
    FeedbackMessageReadsBack(p2, a2);
  }

  /** One history entry per round, every cue drawn from the grid and the
      alphabet, and the cue on show is the newest entry (the blank cue
      (0, 0), "" before the first round). */
  ghost predicate HistoryConsistent(round: int, positions: seq<Cell>, letters: seq<string>,
                                    shown: Cell, spoken: string)
  {
    && |positions| == round
    && |letters| == round
    && (forall i :: 0 <= i < |positions| ==> InGrid(positions[i]))
    && (forall i :: 0 <= i < |letters| ==> IsLetter(letters[i]))
    && (round == 0 ==> shown == Cell(0, 0) && spoken == "")
    && (round > 0 ==> shown == positions[round - 1] && spoken == letters[round - 1])
  }

  /** The number of rounds whose answers may have been scored by round
      `round`: the rounds past the first n, the current one only once answered. */
  function ScoredRounds(round: int, n: nat, answered: bool): nat {
    var last := if answered then round else round - 1;
    if last > n then last - n else 0
  }

  /** At most two points for each round whose answer may have been scored. */
  ghost predicate ScoreBounded(score: int, round: int, n: nat, answered: bool) {
    0 <= score <= 2 * ScoredRounds(round, n, answered)
  }

  /** Recording a new round keeps the history consistent. */
  lemma HistoryConsistentAfterRound(round: int, positions: seq<Cell>, letters: seq<string>,
                                    shown: Cell, spoken: string, cell: Cell, letter: string)
    requires HistoryConsistent(round, positions, letters, shown, spoken)
    requires InGrid(cell) && IsLetter(letter)
    ensures HistoryConsistent(round + 1, positions + [cell], letters + [letter], cell, letter)
  {
  }

  /** A new round with no answer yet keeps the score bound. */
  lemma ScoreBoundedAfterRound(score: int, round: int, n: nat, answered: bool)
    requires ScoreBounded(score, round, n, answered)
    ensures ScoreBounded(score, round + 1, n, false)
  {
  }

  /** An answer past the first n rounds, in a round not yet answered, worth
      at most two points, keeps the score bound. */
  lemma ScoreBoundedAfterAnswer(score: int, round: int, n: nat, points: int)
    requires ScoreBounded(score, round, n, false)
    requires round > n && 0 <= points <= 2
    ensures ScoreBounded(score + points, round, n, true)
  {
  }

  class DualNBackGame {
    var currentRound: int
    var score: int
    var isPlaying: bool
    var currentPosition: Cell
    var currentLetter: string
    var showFeedback: bool
    var feedbackMessage: string
    var correctPosition: bool
    var correctAudio: bool
    var answerSubmitted: bool
    /** The lag; assigning it resets the game (see SetN). */
    var n: nat
    var positionHistory: seq<Cell>
    var audioHistory: seq<string>
    /** True when a round timer is scheduled (`timer != nil`). */
    var timerScheduled: bool

    /** The history part of the invariant (see HistoryConsistent and ScoreBounded). */
    ghost predicate Recorded()
      reads this
    {
      && HistoryConsistent(currentRound, positionHistory, audioHistory, currentPosition, currentLetter)
      && ScoreBounded(score, currentRound, n, answerSubmitted)
    }

    /** The object invariant: a round timer is scheduled exactly while the
        game is playing, and a game that plays has produced its first round. */
    ghost predicate Valid()
      reads this
    {
      && Recorded()
      && (timerScheduled <==> isPlaying)
      && (isPlaying ==> currentRound >= 1)
    }

    /** The state resetGame leaves behind. */
    predicate IsReset()
      reads this
    {
      && !isPlaying && !timerScheduled
      && currentRound == 0 && score == 0
      && positionHistory == [] && audioHistory == []
      && currentPosition == Cell(0, 0) && currentLetter == ""
      && !showFeedback
    }

    /** The guard of checkAnswer. */
    predicate AcceptsAnswer()
      reads this
    {
      isPlaying && currentRound > n && !answerSubmitted
    }

    constructor ()
      ensures Valid() && IsReset()
      ensures n == 2 && feedbackMessage == ""
      ensures !answerSubmitted && !correctPosition && !correctAudio
    {
      currentRound := 0;
      score := 0;
      isPlaying := false;
      currentPosition := Cell(0, 0);
      currentLetter := "";
      showFeedback := false;
      feedbackMessage := "";
      correctPosition := false;
      correctAudio := false;
      answerSubmitted := false;
      n := 2;
      positionHistory := [];
      audioHistory := [];
      timerScheduled := false;
    }

    /** Assigning `n` resets the game, whatever the value was before. */
    method SetN(newN: nat)
      modifies this`n, this`isPlaying, this`timerScheduled, this`currentRound, this`score,
               this`positionHistory, this`audioHistory, this`currentPosition, this`currentLetter,
               this`showFeedback
      ensures n == newN
      ensures Valid() && IsReset()
    {
      n := newN;
      ResetGame();
    }

    /** Starts a session: resets, then produces round 1 from the given draw. */
    method StartGame(row: int, col: int, letterIndex: int)
      requires 0 <= row < GridSize && 0 <= col < GridSize && 0 <= letterIndex < LetterCount
      modifies this`isPlaying, this`timerScheduled, this`currentRound, this`score,
               this`positionHistory, this`audioHistory, this`currentPosition, this`currentLetter,
               this`showFeedback, this`answerSubmitted
      ensures Valid()
      ensures isPlaying && timerScheduled
      ensures currentRound == 1 && score == 0
      ensures positionHistory == [Cell(row, col)] && audioHistory == [Letter(letterIndex)]
      ensures currentPosition == Cell(row, col) && currentLetter == Letter(letterIndex)
      ensures !answerSubmitted && !showFeedback
    {
      ResetGame();
      isPlaying := true;
      positionHistory := [];
      audioHistory := [];
      currentRound := 0;
      score := 0;
      NextRound(row, col, letterIndex);
    }

    /** Stops the session and cancels the round timer; the history stays. */
    method StopGame()
      modifies this`isPlaying, this`timerScheduled
      ensures !isPlaying && !timerScheduled
      ensures old(Recorded()) ==> Valid()
    {
      isPlaying := false;
      timerScheduled := false;
    }

    /** Stops the session and clears it. A second call changes nothing. */
    method ResetGame()
      modifies this`isPlaying, this`timerScheduled, this`currentRound, this`score,
               this`positionHistory, this`audioHistory, this`currentPosition, this`currentLetter,
               this`showFeedback
      ensures Valid() && IsReset()
      ensures old(IsReset()) ==> unchanged(this)
    {
      StopGame();
      currentRound := 0;
      score := 0;
      positionHistory := [];
      audioHistory := [];
      currentPosition := Cell(0, 0);
      currentLetter := "";
      showFeedback := false;
    }

    /** Produces the next round from the drawn cell (row, col) and letter
        Letter(letterIndex), and schedules the round timer; does nothing
        when the game is not playing. */
    method NextRound(row: int, col: int, letterIndex: int)
      requires 0 <= row < GridSize && 0 <= col < GridSize && 0 <= letterIndex < LetterCount
      requires Recorded()
      modifies this`answerSubmitted, this`showFeedback, this`currentPosition, this`currentLetter,
               this`positionHistory, this`audioHistory, this`currentRound, this`timerScheduled
      ensures Recorded()
      ensures (old(isPlaying) || old(Valid())) ==> Valid()
      ensures !old(isPlaying) ==> unchanged(this)
      ensures old(isPlaying) ==>
        && positionHistory == old(positionHistory) + [Cell(row, col)]
        && audioHistory == old(audioHistory) + [Letter(letterIndex)]
        && currentRound == old(currentRound) + 1
        && currentPosition == Cell(row, col) && currentLetter == Letter(letterIndex)
        && !answerSubmitted && !showFeedback && timerScheduled
    {
      if !isPlaying {
        return;
      }
      LetterIsLetter(letterIndex, letterIndex);
      HistoryConsistentAfterRound(currentRound, positionHistory, audioHistory,
                                  currentPosition, currentLetter, Cell(row, col), Letter(letterIndex));
      ScoreBoundedAfterRound(score, currentRound, n, answerSubmitted);
      answerSubmitted := false;
      showFeedback := false;
      currentPosition := Cell(row, col);
      currentLetter := Letter(letterIndex);
      positionHistory := positionHistory + [currentPosition];
      audioHistory := audioHistory + [currentLetter];
      currentRound := currentRound + 1;
      timerScheduled := true;
    }

    /** Scores one answer. It is accepted only while playing, past the first
        n rounds and once per round; any other call changes nothing. */
    method CheckAnswer(positionMatch: bool, audioMatch: bool)
      requires Valid()
      modifies this`answerSubmitted, this`correctPosition, this`correctAudio, this`score,
               this`feedbackMessage, this`showFeedback
      ensures Valid()
      ensures score >= old(score)
      ensures !old(AcceptsAnswer()) ==> unchanged(this)
      ensures old(AcceptsAnswer()) ==>
        && answerSubmitted && showFeedback
        && correctPosition == (positionMatch == old(CheckPositionMatch()))
        && correctAudio == (audioMatch == old(CheckAudioMatch()))
        && score == old(score) + RoundScore(positionMatch, old(CheckPositionMatch()),
                                            audioMatch, old(CheckAudioMatch()))
        && feedbackMessage == FeedbackMessage(correctPosition, correctAudio)
    {
      if !AcceptsAnswer() {
        return;
      }
      // The two checks read the histories, currentRound and n but not
      // answerSubmitted, so taking them before the flag is set gives the
      // same values as taking them after it, as DualNBackGame.swift does.
      var expectedPositionMatch := CheckPositionMatch();
      var expectedAudioMatch := CheckAudioMatch();
      answerSubmitted := true;

      var roundScore, positionOk, audioOk, message :=
        JudgeAnswer(positionMatch, expectedPositionMatch, audioMatch, expectedAudioMatch);
      RecordAnswer(positionOk, audioOk, roundScore, message);
    }

    /** The state writes of an accepted answer. */
    method RecordAnswer(positionOk: bool, audioOk: bool, roundScore: int, message: string)
      requires Recorded() && (timerScheduled <==> isPlaying) && isPlaying && currentRound > n
      requires answerSubmitted && ScoreBounded(score, currentRound, n, false)
      requires 0 <= roundScore <= 2
      modifies this`correctPosition, this`correctAudio, this`score, this`feedbackMessage,
               this`showFeedback
      ensures Valid()
      ensures correctPosition == positionOk && correctAudio == audioOk
      ensures score == old(score) + roundScore
      ensures feedbackMessage == message && showFeedback
    {
      ScoreBoundedAfterAnswer(score, currentRound, n, roundScore);
      correctPosition := positionOk;
      correctAudio := audioOk;
      score := score + roundScore;
      feedbackMessage := message;
      showFeedback := true;
    }

    /** The delayed callback that hides the feedback after an answer. */
    method HideFeedback()
      requires Valid()
      modifies this`showFeedback
      ensures Valid() && !showFeedback
    {
      showFeedback := false;
    }

    /** Does the current cell repeat the cell of n rounds before? The
        indices the source computes from currentRound are in range as long
        as the history holds one entry per round. */
    function CheckPositionMatch(): (r: bool)
      reads this
      requires |positionHistory| == currentRound
      ensures r == LagMatch(positionHistory, n)
      ensures currentRound <= n ==> !r
    {
      if |positionHistory| <= n then false
      else
        var currentPos := positionHistory[currentRound - 1];
        var nBackPos := positionHistory[currentRound - 1 - n];
        currentPos.row == nBackPos.row && currentPos.col == nBackPos.col
    }

    /** Does the current letter repeat the letter of n rounds before? */
    function CheckAudioMatch(): (r: bool)
      reads this
      requires |audioHistory| == currentRound
      ensures r == LagMatch(audioHistory, n)
      ensures currentRound <= n ==> !r
    {
      if |audioHistory| <= n then false
      else audioHistory[currentRound - 1] == audioHistory[currentRound - 1 - n]
    }
  }

  /** Rounds 1 to 3 of a session with n = 2: cells (0,0), (1,1), (0,0) and
      letters A, B, C. */
  method TwoBackOpening() returns (game: DualNBackGame)
    ensures fresh(game) && game.Valid()
    ensures game.isPlaying && game.n == 2 && game.currentRound == 3 && game.score == 0
    ensures !game.answerSubmitted
    ensures game.positionHistory == [Cell(0, 0), Cell(1, 1), Cell(0, 0)]
    ensures game.audioHistory == ["A", "B", "C"]
  {
    game := new DualNBackGame();
    game.SetN(2);
    game.StartGame(0, 0, 0);
    game.NextRound(1, 1, 1);
    game.NextRound(0, 0, 2);
  }

  /** Round 3 of that session repeats the cell of round 1 but not its letter:
      a right answer scores 2, and a second answer in the same round is
      ignored. */
  method TwoBackRoundThree() returns (game: DualNBackGame, afterRight: int, afterRepeat: int)
    ensures fresh(game) && game.Valid()
    ensures afterRight == 2 && afterRepeat == 2
    ensures game.isPlaying && game.n == 2 && game.currentRound == 3 && game.score == 2
    ensures game.positionHistory == [Cell(0, 0), Cell(1, 1), Cell(0, 0)]
    ensures game.audioHistory == ["A", "B", "C"]
  {
    game := TwoBackOpening();
    game.CheckAnswer(true, false);
    afterRight := game.score;
    game.CheckAnswer(false, true);
    afterRepeat := game.score;
  }

  /** The session continued: round 4 (cell (1,1), letter A) repeats the cell
      of round 2 but not its letter. Returns the scores of round 3 and the
      score and message after a wrong answer on both cues in round 4. */
  method TwoBackSession() returns (afterRight: int, afterRepeat: int, afterWrong: int, message: string)
    ensures afterRight == 2 && afterRepeat == 2 && afterWrong == 2
    ensures message == "Position: ✗ Audio: ✗"
  {
    var game;
    game, afterRight, afterRepeat := TwoBackRoundThree();
    game.NextRound(1, 1, 0);
    assert game.positionHistory[3] == game.positionHistory[1];
    assert game.audioHistory[3] == "A" && game.audioHistory[1] == "B";
    game.CheckAnswer(false, true);
    afterWrong := game.score;
    message := game.feedbackMessage;
    FeedbackMessageSpelling(false, false);
  }
}
