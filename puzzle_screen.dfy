/** The puzzle screen of a training session: checking an answer updates the
    session's stats, and `next` moves to the following puzzle or ends the
    session. */
module PuzzleScreen {
  import opened Base
  import opened Documents
  import opened Train

  /** `PointsReference[difficulty] * 15`. */
  function AnswerPoints(d: Difficulty): (r: int)
    ensures r == 15 || r == 30 || r == 45
    ensures d == Easy <==> r == 15
    ensures d == Medium <==> r == 30
    ensures d == Hard <==> r == 45
  {
    PointsReference(d) * 15
  }

  /** The check-answer reply: the request threw, or the body's `success`,
      `correct` (possibly absent) and `message`. */
  datatype CheckReply = Threw | Body(success: bool, correct: Option<bool>, message: string)

  /** The stats after a successful check: one more attempt; one more solve and
      the puzzle's points only when `correct === true`. */
  function Score(stats: TrainingStats, d: Difficulty, correct: Option<bool>): (r: TrainingStats)
    ensures r.puzzlesAttempted == stats.puzzlesAttempted + 1
    ensures correct == Some(true) ==>
      r.puzzlesSolved == stats.puzzlesSolved + 1 && r.pointsEarned == stats.pointsEarned + AnswerPoints(d)
    ensures correct != Some(true) ==>
      r.puzzlesSolved == stats.puzzlesSolved && r.pointsEarned == stats.pointsEarned
  {
    var s := if correct == Some(true)
      then stats.(pointsEarned := stats.pointsEarned + AnswerPoints(d), puzzlesSolved := stats.puzzlesSolved + 1)
      else stats;
    s.(puzzlesAttempted := s.puzzlesAttempted + 1)
  }

  /** What a session's stats can be: no more solves than attempts, and
      between 15 and 45 points per solve. */
  predicate Consistent(stats: TrainingStats)
  {
    0 <= stats.puzzlesSolved <= stats.puzzlesAttempted
    && 15 * stats.puzzlesSolved <= stats.pointsEarned <= 45 * stats.puzzlesSolved
  }

  lemma ScoreKeepsConsistent(stats: TrainingStats, d: Difficulty, correct: Option<bool>)
    requires Consistent(stats)
    ensures Consistent(Score(stats, d, correct))
  {
  }

  lemma ZeroStatsConsistent()
    ensures Consistent(ZeroStats)
  {
  }

  /** `{ isCorrect, text }` of the last checked answer. */
  datatype Answer = Answer(isCorrect: bool, text: string)

  /** The screen's own state; the session's state lives in `page`. */
  class Screen {
    const page: TrainPage
    var isCorrect: Answer
    var userRes: string
    var loading: bool
    var noShowPrevAnswer: bool

    constructor (page: TrainPage)
      ensures this.page == page
      ensures isCorrect == Answer(false, "") && userRes == "" && !loading && !noShowPrevAnswer
    {
      this.page := page;
      isCorrect := Answer(false, "");
      userRes := "";
      loading := false;
      noShowPrevAnswer := false;
    }

    /** `checkAnswer`: the session pauses; a successful reply scores the
        current puzzle and shows the message; a failed or thrown one, or a
        current index past the list, changes neither stats nor answer. */
    method CheckAnswer(reply: CheckReply)
      modifies this, page
      ensures page.pause && !loading && userRes == old(userRes)
      ensures page.settings == old(page.settings) && page.puzzles == old(page.puzzles)
      ensures page.currentPuzzle == old(page.currentPuzzle) && page.startSession == old(page.startSession)
      ensures page.end == old(page.end) && page.loading == old(page.loading)
      ensures reply.Body? && reply.success && 0 <= page.currentPuzzle < |page.puzzles| ==>
        && page.stats == Score(old(page.stats), page.puzzles[page.currentPuzzle].difficulty, reply.correct)
        && isCorrect == Answer(reply.correct == Some(true), reply.message)
        && noShowPrevAnswer
      ensures !(reply.Body? && reply.success && 0 <= page.currentPuzzle < |page.puzzles|) ==>
        page.stats == old(page.stats) && isCorrect == old(isCorrect) && noShowPrevAnswer == old(noShowPrevAnswer)
    {
      loading := true;
      page.pause := true;
      // Reading `puzzles[currentPuzzle].answer` past the end throws, and the
      // catch swallows it.
      if !(0 <= page.currentPuzzle < |page.puzzles|) || reply.Threw? {
        loading := false;
        return;
      }
      if reply.success {
        var d := page.puzzles[page.currentPuzzle].difficulty;
        if reply.correct == Some(true) {
          var points := AnswerPoints(d);
          page.stats := page.stats.(pointsEarned := page.stats.pointsEarned + points,
                                    puzzlesSolved := page.stats.puzzlesSolved + 1);
        }
        page.stats := page.stats.(puzzlesAttempted := page.stats.puzzlesAttempted + 1);
        isCorrect := Answer(reply.correct == Some(true), reply.message);
        noShowPrevAnswer := true;
      }
      loading := false;
    }

    /** `next`: on the last puzzle the session pauses and finishes with the
        index unchanged; otherwise the input is cleared, the index advances
        and the session resumes. */
    method Next()
      modifies this, page
      ensures !noShowPrevAnswer && isCorrect == old(isCorrect) && loading == old(loading)
      ensures page.settings == old(page.settings) && page.stats == old(page.stats)
      ensures page.puzzles == old(page.puzzles) && page.loading == old(page.loading)
      ensures old(page.currentPuzzle) + 1 == |page.puzzles| ==>
        && page.pause && page.end && !page.startSession
        && page.currentPuzzle == old(page.currentPuzzle) && userRes == old(userRes)
      ensures old(page.currentPuzzle) + 1 != |page.puzzles| ==>
        && !page.pause && page.end == old(page.end) && page.startSession == old(page.startSession)
        && page.currentPuzzle == old(page.currentPuzzle) + 1 && userRes == ""
      ensures 0 <= old(page.currentPuzzle) < |page.puzzles| ==> 0 <= page.currentPuzzle < |page.puzzles|
    {
      noShowPrevAnswer := false;
      var isDone := page.currentPuzzle + 1 == |page.puzzles|;
      if isDone {
        page.pause := true;
        page.Finish();
        return;
      }
      userRes := "";
      page.currentPuzzle := page.currentPuzzle + 1;
      page.pause := false;
    }
  }

  /** A check leaves consistent stats consistent. */
  method CheckKeepsConsistent(page: TrainPage, reply: CheckReply)
    requires Consistent(page.stats)
    modifies page
    ensures Consistent(page.stats)
  {
    var screen := new Screen(page);
    screen.CheckAnswer(reply);
    if reply.Body? && reply.success && 0 <= page.currentPuzzle < |page.puzzles| {
      ScoreKeepsConsistent(old(page.stats), page.puzzles[page.currentPuzzle].difficulty, reply.correct);
    }
  }
}
