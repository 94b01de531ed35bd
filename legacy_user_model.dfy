/** The earlier revision of the user document, which the user controller
    still writes: scalar puzzle and point counters, one 7-bar template shared
    by both week fields, and a day count for the end of the week. */
module LegacyUserModel {
  import opened Base

  /** One bar of a week chart: a value and its weekday label. */
  datatype Bar = Bar(value: int, day: string)

  /** A week bucket `{from, to, data}`. */
  datatype Weekly = Weekly(from: int, to: int, data: seq<Bar>)

  /** One slice of the category pie. */
  datatype Piece = Piece(value: int, color: string, text: string, category: string, focused: bool)

  /** The user document of this revision. */
  datatype LegacyUser = LegacyUser(
    userId: string,
    name: string,
    enableNotifications: bool,
    enableLeaderboard: bool,
    puzzleGoal: int,
    pointsGoal: int,
    puzzles: int,
    points: int,
    badgesEarned: seq<string>,
    level: int,
    streak: int,
    todayPuzzles: int,
    todayPoints: int,
    lastLogged: int,
    weekPuzzles: seq<Weekly>,
    weekPoints: seq<Weekly>,
    puzzleCategoryData: seq<Piece>)

  /** `calcDaysTillSun()`: the whole days from the weekday `getDay` of
      `Date.now()` to the coming Sunday. */
  function CalcDaysTillSun(getDay: WeekdayNumber): (daysTill: int)
    ensures 0 <= daysTill <= 6
    ensures daysTill == 0 <==> getDay == 0
    ensures (getDay + daysTill) % 7 == 0
  {
    DaysUntilSunday(getDay)
  }

  /** `defaultData`: seven zero bars, Monday to Sunday. */
  function DefaultData(): (d: seq<Bar>)
    ensures |d| == 7
    ensures forall k :: 0 <= k < 7 ==> d[k] == Bar(0, WeekLabels[k])
  {
    [ Bar(0, "Mon"), Bar(0, "Tue"), Bar(0, "Wed"), Bar(0, "Thu"),
      Bar(0, "Fri"), Bar(0, "Sat"), Bar(0, "Sun") ]
  }

  const PieLabels: seq<string> := ["Logic", "Math", "Wordplay", "Lateral", "Patterns", "Classic", "Trivia"]

  /** `defaultData2`: the category pie with all seven categories at zero. */
  function DefaultData2(): (d: seq<Piece>)
    ensures |d| == 7
    ensures forall k :: 0 <= k < 7 ==>
      d[k].category == PieLabels[k] && d[k].value == 0 && d[k].text == "0%"
  {
    [ Piece(0, "#4F46E5", "0%", "Logic", true),
      Piece(0, "#10B981", "0%", "Math", false),
      Piece(0, "#F59E0B", "0%", "Wordplay", false),
      Piece(0, "#EF4444", "0%", "Lateral", false),
      Piece(0, "#3B82F6", "0%", "Patterns", false),
      Piece(0, "#8B5CF6", "0%", "Classic", false),
      Piece(0, "#06B6D4", "0%", "Trivia", false) ]
  }

  /** Exactly one slice of the default pie is focused, and it is Logic. */
  lemma DefaultData2OneFocused(k: int)
    requires 0 <= k < |DefaultData2()|
    ensures DefaultData2()[k].focused <==> k == 0
    ensures DefaultData2()[0].category == "Logic"
  {
    if k == 0 {} else if k == 1 {} else if k == 2 {} else if k == 3 {} else if k == 4 {} else if k == 5 {} else {}
  }

  /** The default bucket: it opens at `now` and closes `calcDaysTillSun()` whole
      days later. */
  function DefaultWeekly(now: int, getDay: WeekdayNumber): (w: Weekly)
    ensures w.from == now
    ensures w.from <= w.to <= w.from + 6 * MsPerDay
    ensures w.to - w.from == CalcDaysTillSun(getDay) * MsPerDay
    ensures w.data == DefaultData()
  {
    Weekly(now, now + CalcDaysTillSun(getDay) * 24 * 60 * 60 * 1000, DefaultData())
  }

  /** A user built from the schema defaults. The `lastLogged` default is
      `Date.now`, so the same instant `now` serves both. */
  function NewLegacyUser(userId: string, name: string, now: int, getDay: WeekdayNumber): (u: LegacyUser)
    ensures u.userId == userId && u.name == name
    ensures !u.enableNotifications && u.enableLeaderboard
    ensures u.puzzleGoal == 50 && u.pointsGoal == 500
    ensures u.puzzles == 0 && u.points == 0 && u.level == 1 && u.streak == 0
    ensures u.todayPuzzles == 0 && u.todayPoints == 0 && u.badgesEarned == []
    ensures u.lastLogged == now
    ensures |u.weekPuzzles| == 1 && |u.weekPoints| == 1
    ensures u.weekPuzzles[0].from <= u.weekPuzzles[0].to && u.weekPoints[0].from <= u.weekPoints[0].to
    ensures u.weekPuzzles[0].data == DefaultData() && u.weekPoints[0].data == DefaultData()
    ensures u.puzzleCategoryData == DefaultData2()
  {
    LegacyUser(userId, name, false, true, 50, 500, 0, 0, [], 1, 0, 0, 0, now,
               [DefaultWeekly(now, getDay)], [DefaultWeekly(now, getDay)], DefaultData2())
  }
}
