/** The training page: the session settings, the running stats, starting a
    session, the one-second tick of the time limit, ending and resetting a
    session, and the time strings sent when it is saved. */
module Train {
  import opened Base
  import opened Documents
  import opened JsText

  /** The `string | number` of `settings.timeLimit`: a string before a
      session starts and for a session without a limit, the seconds left
      otherwise. */
  datatype TimeLimit = Text(text: string) | Seconds(seconds: int)

  datatype Settings = Settings(
    difficulties: seq<Difficulty>,
    categories: seq<Category>,
    answerAfterPuzzle: bool,
    hints: bool,
    timePerQuestion: string,
    timeLimit: TimeLimit)

  datatype TrainingStats = TrainingStats(pointsEarned: int, puzzlesSolved: int, puzzlesAttempted: int)

  /** The settings a page starts with and `reset` restores. */
  const InitialSettings: Settings := Settings([], [], true, true, "", Text(""))

  const ZeroStats: TrainingStats := TrainingStats(0, 0, 0)

  /** `Number(settings.timeLimit)`. */
  function LimitNumber(t: TimeLimit): (r: Option<int>)
    ensures t.Seconds? ==> r == Some(t.seconds)
  {
    match t
    case Text(s) => JsNumber(s)
    case Seconds(n) => Some(n)
  }

  /** A number of seconds as `mm:ss`; `NaN` renders as `NaN:NaN`. */
  function Render(x: Option<int>): string
  {
    match x
    case None => "NaN:NaN"
    case Some(n) => MmSs(n)
  }

  /** A non-negative count renders to a string that reads back as itself. */
  lemma RenderRoundTrip(x: Option<int>)
    requires x.Some? && x.value >= 0
    ensures ParseMmSs(Render(x)) == x
  {
    MmSsRoundTrip(x.value);
  }

  datatype Times = Times(timeLimit: string, timeTaken: string)

  /** `Number(settings.timePerQuestion) * puzzles.length`, `NaN` staying `NaN`. */
  function WholeLimit(perQ: Option<int>, count: nat): (r: Option<int>)
    ensures r.Some? <==> perQ.Some?
  {
    match perQ
    case None => None
    case Some(n) => Some(n * count)
  }

  /** `limit - Number(settings.timeLimit)`, `NaN` staying `NaN`. */
  function TimeUsed(limit: Option<int>, remaining: Option<int>): (r: Option<int>)
    ensures r.Some? <==> limit.Some? && remaining.Some?
    ensures r.Some? ==> r.value + remaining.value == limit.value
  {
    if limit.Some? && remaining.Some? then Some(limit.value - remaining.value) else None
  }

  lemma TimeUsedOfNumbers(limit: int, remaining: int)
    ensures TimeUsed(Some(limit), Some(remaining)) == Some(limit - remaining)
  {
  }

  /** `calcTimeTaken`: the whole limit and the time used, from the seconds per
      question, the number of puzzles and the seconds left. */
  function CalcTimeTaken(settings: Settings, count: nat): (r: Times)
    ensures settings.timeLimit == Text("None") ==> r == Times("None", "None Specified")
  {
    if settings.timeLimit == Text("None") then Times("None", "None Specified")
    else LimitedTimes(JsNumber(settings.timePerQuestion), LimitNumber(settings.timeLimit), count)
  }

  /** The two strings of a session with a limit, from the numbers read from
      the settings. */
  function LimitedTimes(perQ: Option<int>, remaining: Option<int>, count: nat): Times
  {
    var limit := WholeLimit(perQ, count);
    Times(Render(limit), Render(TimeUsed(limit, remaining)))
  }

  /** The time used of a non-negative limit reads back as itself. */
  lemma UsedReadsBack(limit: int, remaining: int)
    requires 0 <= remaining <= limit
    ensures ParseMmSs(Render(TimeUsed(Some(limit), Some(remaining)))) == Some(limit - remaining)
  {
    TimeUsedOfNumbers(limit, remaining);
    RenderRoundTrip(Some(limit - remaining));
  }

  lemma LimitedTimeLimit(perQ: int, remaining: int, count: nat)
    requires 0 <= perQ * count
    ensures ParseMmSs(LimitedTimes(Some(perQ), Some(remaining), count).timeLimit) == Some(perQ * count)
  {
    RenderRoundTrip(Some(perQ * count));
  }

  lemma LimitedTimeTaken(perQ: int, remaining: int, count: nat)
    requires 0 <= remaining <= perQ * count
    ensures ParseMmSs(LimitedTimes(Some(perQ), Some(remaining), count).timeTaken) == Some(perQ * count - remaining)
  {
    UsedReadsBack(perQ * count, remaining);
  }

  /** During a limited session with `remaining` seconds left of
      `perQ * count`, the strings read back as the whole limit and as the time
      used, and the time used never exceeds the limit. */
  lemma CalcTimeTakenMeaning(settings: Settings, count: nat, perQ: int, remaining: int)
    requires JsNumber(settings.timePerQuestion) == Some(perQ)
    requires settings.timeLimit == Seconds(remaining)
    requires 0 <= remaining <= perQ * count
    ensures ParseMmSs(CalcTimeTaken(settings, count).timeLimit) == Some(perQ * count)
    ensures ParseMmSs(CalcTimeTaken(settings, count).timeTaken) == Some(perQ * count - remaining)
    ensures 0 <= perQ * count - remaining <= perQ * count
  {
    assert CalcTimeTaken(settings, count) == LimitedTimes(Some(perQ), Some(remaining), count);
    LimitedTimeLimit(perQ, remaining, count);
    LimitedTimeTaken(perQ, remaining, count);
  }

  /** What `start` does with the per-question input and the fetch's answer. */
  datatype StartOutcome =
    | InvalidTime
    | NoPuzzles
    | Started(timeLimit: TimeLimit, puzzles: seq<Puzzle>)

  /** `!noLimit && !Number(settings.timePerQuestion)`: a non-blank input
      whose value is 0 or `NaN`. */
  predicate InvalidPerQuestion(timePerQuestion: string)
  {
    !IsBlank(timePerQuestion) && (JsNumber(timePerQuestion).None? || JsNumber(timePerQuestion) == Some(0))
  }

  /** `start`'s decision. `response` is the answer of `fetchPuzzles`, which is
      only asked for when the input is valid. */
  function StartOutcomeOf(timePerQuestion: string, response: Option<seq<Puzzle>>): (r: StartOutcome)
    ensures r.Started? ==> response.Some? && r.puzzles == response.value && |r.puzzles| > 0
  {
    var noLimit := Trim(timePerQuestion) == "";
    TrimEmptyIffBlank(timePerQuestion);
    if !noLimit && (JsNumber(timePerQuestion).None? || JsNumber(timePerQuestion) == Some(0)) then InvalidTime
    else if response.None? || |response.value| == 0 then NoPuzzles
    else
      var limit := if noLimit then Text("None") else Seconds(JsNumber(timePerQuestion).value * |response.value|);
      Started(limit, response.value)
  }

  /** A blank input starts a session without a limit; a non-blank one whose
      value is 0 or not a number is refused before anything is fetched; an
      empty or failed fetch starts nothing; otherwise the limit is the value
      times the number of puzzles. */
  lemma StartOutcomeMeaning(timePerQuestion: string, response: Option<seq<Puzzle>>)
    ensures var r := StartOutcomeOf(timePerQuestion, response);
      && (r == InvalidTime <==> InvalidPerQuestion(timePerQuestion))
      && (r == NoPuzzles <==> !InvalidPerQuestion(timePerQuestion) && (response.None? || response.value == []))
      && (r.Started? && IsBlank(timePerQuestion) ==> r.timeLimit == Text("None"))
      && (r.Started? && !IsBlank(timePerQuestion) ==>
        JsNumber(timePerQuestion).Some? && JsNumber(timePerQuestion).value != 0
        && r.timeLimit == Seconds(JsNumber(timePerQuestion).value * |r.puzzles|))
  {
    TrimEmptyIffBlank(timePerQuestion);
  }

  /** A started session with a limit counts down from a positive number of
      seconds exactly when the per-question input is positive. */
  lemma StartedLimitSign(timePerQuestion: string, response: Option<seq<Puzzle>>)
    requires StartOutcomeOf(timePerQuestion, response).Started? && !IsBlank(timePerQuestion)
    ensures var n := StartOutcomeOf(timePerQuestion, response).timeLimit.seconds;
      n > 0 <==> JsNumber(timePerQuestion).value > 0
  {
    var r := StartOutcomeOf(timePerQuestion, response);
    StartOutcomeMeaning(timePerQuestion, response);
    MulSign(JsNumber(timePerQuestion).value, |r.puzzles|);
  }

  lemma {:induction false} MulSign(a: int, b: nat)
    requires b > 0
    ensures a * b > 0 <==> a > 0
    decreases b
  {
    if b > 1 {
      MulSign(a, b - 1);
      assert a * b == a * (b - 1) + a;
    }
  }

  /** A negative input is accepted: `-5` seconds per question starts a session
      whose limit is already below zero, so the tick never reaches 0. */
  lemma NegativePerQuestionAccepted(p: Puzzle)
    ensures StartOutcomeOf("-5", Some([p])) == Started(Seconds(-5), [p])
  {
    var t := "-5";
    assert t[0] == '-' && t[1..] == "5";
    assert AllDigits(t[1..]) && ParseNat(t[1..]) == 5;
    assert !IsJsSpace(t[0]) && !IsJsSpace(t[|t| - 1]);
    TrimNoSpace(t);
    NumberOfSigned(t);
    NumberOfDef(t);
    assert JsNumber(t) == Some(-5);
    assert !IsBlank(t);
    TrimEmptyIffBlank(t);
    assert Trim(t) != "";
  }

  /** The page's state. */
  class TrainPage {
    var settings: Settings
    var stats: TrainingStats
    var startSession: bool
    var puzzles: seq<Puzzle>
    var loading: bool
    var currentPuzzle: int
    var pause: bool
    var end: bool

    constructor ()
      ensures settings == InitialSettings && stats == ZeroStats
      ensures !startSession && puzzles == [] && !loading && currentPuzzle == 0 && !pause && !end
    {
      settings := InitialSettings;
      stats := ZeroStats;
      startSession := false;
      puzzles := [];
      loading := false;
      currentPuzzle := 0;
      pause := false;
      end := false;
    }

    /** `start`: refused inputs and an empty fetch change nothing but the
        loading flag; otherwise the limit is set, the puzzles stored and the
        session started unpaused. */
    method Start(response: Option<seq<Puzzle>>)
      modifies this
      ensures !loading
      ensures stats == old(stats) && currentPuzzle == old(currentPuzzle) && end == old(end)
      ensures (settings, puzzles, startSession, pause) ==
        match StartOutcomeOf(old(settings).timePerQuestion, response)
        case Started(limit, ps) => (old(settings).(timeLimit := limit), ps, true, false)
        case _ => (old(settings), old(puzzles), old(startSession), old(pause))
    {
      loading := true;
      // The input check, then `fetchPuzzles`, then the limit.
      var outcome := StartOutcomeOf(settings.timePerQuestion, response);
      if outcome.Started? {
        settings := settings.(timeLimit := outcome.timeLimit);
        puzzles := outcome.puzzles;
        startSession := true;
        pause := false;
      }
      loading := false;
    }

    /** `finish`. */
    method Finish()
      modifies this
      ensures end && !startSession
      ensures settings == old(settings) && stats == old(stats) && puzzles == old(puzzles)
      ensures loading == old(loading) && currentPuzzle == old(currentPuzzle) && pause == old(pause)
    {
      end := true;
      startSession := false;
    }

    /** One firing of the timeout: nothing happens while the limit is a
        string or the session is paused; at 0 the session finishes; otherwise
        one second is taken off. */
    method Tick()
      modifies this
      ensures stats == old(stats) && puzzles == old(puzzles) && loading == old(loading)
      ensures currentPuzzle == old(currentPuzzle) && pause == old(pause)
      ensures old(settings).timeLimit.Text? || old(pause) ==>
        settings == old(settings) && startSession == old(startSession) && end == old(end)
      ensures !old(pause) && old(settings).timeLimit == Seconds(0) ==>
        settings == old(settings) && end && !startSession
      ensures !old(pause) && old(settings).timeLimit.Seconds? && old(settings).timeLimit.seconds != 0 ==>
        settings == old(settings).(timeLimit := Seconds(old(settings).timeLimit.seconds - 1))
        && startSession == old(startSession) && end == old(end)
    {
      if settings.timeLimit.Text? {
        return;
      }
      if pause {
        return;
      }
      if settings.timeLimit == Seconds(0) {
        Finish();
        return;
      }
      settings := settings.(timeLimit := Seconds(LimitNumber(settings.timeLimit).value - 1));
    }

    /** `reset`: settings, stats, puzzles, index and end flag go back to their
        first values; the session and pause flags stay as they are. */
    method Reset()
      modifies this
      ensures settings == InitialSettings && stats == ZeroStats && puzzles == [] && currentPuzzle == 0 && !end
      ensures startSession == old(startSession) && pause == old(pause) && loading == old(loading)
    {
      settings := InitialSettings;
      stats := ZeroStats;
      puzzles := [];
      currentPuzzle := 0;
      end := false;
    }
  }

  /** After `reset` the previous session's limit is gone, so the next
      `calcTimeTaken` no longer reads "None": `Number("")` is 0 and both
      strings become `00:00`. */
  lemma ResetTimes()
    ensures CalcTimeTaken(InitialSettings, 0) == Times(MmSs(0), MmSs(0))
  {
  }
}
