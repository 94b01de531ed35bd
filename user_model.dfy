/** The user document as the compiled backend model defines it: the zero
    templates for the statistics fields, the builders of a fresh week bucket,
    the end-of-week boundary, the `todayStats` reset and the schema defaults of
    a new user. */
module UserModel {
  import opened Base

  /** One bar of a week chart. Puzzle weeks alternate a "correct" bar, which
      carries the weekday in `label`, and an "incorrect" bar, which carries it
      in `day`; points and time weeks have one labelled bar per weekday. */
  datatype BarEntry = BarEntry(
    value: int,
    labelText: Option<string>,
    day: Option<string>,
    frontColor: string,
    gradientColor: string,
    spacing: Option<int>,
    labelWidth: Option<int>)

  /** A week bucket `{from, to, data}`. */
  datatype WeekBucket = WeekBucket(from: int, to: int, data: seq<BarEntry>)

  /** One slice of the category pie. */
  datatype CategoryPiece = CategoryPiece(
    value: int,
    color: string,
    text: string,
    labelText: string,
    focused: bool,
    correct: int,
    timeSpent: int)

  /** The per-category tallies of `todayStats.categories`. */
  datatype CategoryCounts = CategoryCounts(
    logic: Tally, math: Tally, wordplay: Tally, lateral: Tally,
    patterns: Tally, classic: Tally, trivia: Tally)
  {
    function Get(c: Category): Tally
    {
      match c
      case Logic => logic
      case Math => math
      case Wordplay => wordplay
      case Lateral => lateral
      case Patterns => patterns
      case Classic => classic
      case Trivia => trivia
    }

    function With(c: Category, t: Tally): (r: CategoryCounts)
      ensures r.Get(c) == t
      ensures forall d :: d != c ==> r.Get(d) == Get(d)
    {
      match c
      case Logic => this.(logic := t)
      case Math => this.(math := t)
      case Wordplay => this.(wordplay := t)
      case Lateral => this.(lateral := t)
      case Patterns => this.(patterns := t)
      case Classic => this.(classic := t)
      case Trivia => this.(trivia := t)
    }
  }

  /** `todayStats` as a value. */
  datatype TodayStats = TodayStats(puzzles: Tally, points: int, timeSpent: int, categories: CategoryCounts)

  /** The level tier stored on a user. */
  datatype Level = Level(level: int, title: string, pointsNeeded: int, puzzlesNeeded: int, icon: string, color: string)

  /** The user document. */
  datatype User = User(
    name: string,
    userId: string,
    enableNotifications: bool,
    enableLeaderboard: bool,
    puzzleGoal: int,
    pointsGoal: int,
    puzzles: Tally,
    points: int,
    timeSpent: int,
    badgesEarned: seq<string>,
    level: Level,
    streak: int,
    todayStats: TodayStats,
    lastLogged: int,
    weekPuzzles: seq<WeekBucket>,
    weekPoints: seq<WeekBucket>,
    weekTimeSpent: seq<WeekBucket>,
    puzzleCategoryData: seq<CategoryPiece>)

  /** One answered puzzle of a session: its category and whether it was right. */
  datatype Outcome = Outcome(category: Category, isCorrect: bool)

  // ---------------------------------------------------------------------
  // Zero templates

  function CorrectBar(day: string): BarEntry
  {
    BarEntry(0, Some(day), None, "#10b981", "#059669", Some(2), Some(50))
  }

  function IncorrectBar(day: string): BarEntry
  {
    BarEntry(0, None, Some(day), "#ef4444", "#dc2626", None, None)
  }

  function SingleBar(day: string): BarEntry
  {
    BarEntry(0, Some(day), None, "#10b981", "#059669", None, None)
  }

  /** `defaultData`: the 14-bar puzzles week, a correct/incorrect pair per day. */
  function DefaultData(): seq<BarEntry>
  {
    [ CorrectBar("Mon"), IncorrectBar("Mon"),
      CorrectBar("Tue"), IncorrectBar("Tue"),
      CorrectBar("Wed"), IncorrectBar("Wed"),
      CorrectBar("Thu"), IncorrectBar("Thu"),
      CorrectBar("Fri"), IncorrectBar("Fri"),
      CorrectBar("Sat"), IncorrectBar("Sat"),
      CorrectBar("Sun"), IncorrectBar("Sun") ]
  }

  /** `defaultData4`: the 7-bar points and time week. */
  function DefaultData4(): seq<BarEntry>
  {
    [ SingleBar("Mon"), SingleBar("Tue"), SingleBar("Wed"), SingleBar("Thu"),
      SingleBar("Fri"), SingleBar("Sat"), SingleBar("Sun") ]
  }

  /** `defaultData2`: the category pie, Logic focused. */
  function DefaultData2(): seq<CategoryPiece>
  {
    [ CategoryPiece(0, "#4F46E5", "0%", "Logic", true, 0, 0),
      CategoryPiece(0, "#10B981", "0%", "Math", false, 0, 0),
      CategoryPiece(0, "#F59E0B", "0%", "Wordplay", false, 0, 0),
      CategoryPiece(0, "#EF4444", "0%", "Lateral", false, 0, 0),
      CategoryPiece(0, "#3B82F6", "0%", "Patterns", false, 0, 0),
      CategoryPiece(0, "#8B5CF6", "0%", "Classic", false, 0, 0),
      CategoryPiece(0, "#06B6D4", "0%", "Trivia", false, 0, 0) ]
  }

  const CategoryLabels: seq<string> := ["Logic", "Math", "Wordplay", "Lateral", "Patterns", "Classic", "Trivia"]

  function ZeroCounts(): CategoryCounts
  {
    CategoryCounts(Tally(0, 0), Tally(0, 0), Tally(0, 0), Tally(0, 0), Tally(0, 0), Tally(0, 0), Tally(0, 0))
  }

  /** `defaultData3`: the zero `todayStats`. */
  function DefaultData3(): TodayStats
  {
    TodayStats(Tally(0, 0), 0, 0, ZeroCounts())
  }

  /** The puzzles week has a correct/incorrect pair per weekday, Monday first:
      bar `2k` is labelled with the k-th weekday, bar `2k+1` carries it in `day`,
      and every bar is zero. */
  lemma DefaultDataLayout()
    ensures |DefaultData()| == 14
    ensures forall k :: 0 <= k < 7 ==>
      DefaultData()[2 * k].labelText == Some(WeekLabels[k]) && DefaultData()[2 * k].day == None &&
      DefaultData()[2 * k + 1].day == Some(WeekLabels[k]) && DefaultData()[2 * k + 1].labelText == None
    ensures forall k :: 0 <= k < 14 ==> DefaultData()[k].value == 0
  {
    var d := DefaultData();
    forall k | 0 <= k < 7
      ensures d[2 * k].labelText == Some(WeekLabels[k]) && d[2 * k].day == None
      ensures d[2 * k + 1].day == Some(WeekLabels[k]) && d[2 * k + 1].labelText == None
    {
      if k == 0 {} else if k == 1 {} else if k == 2 {} else if k == 3 {} else if k == 4 {} else if k == 5 {} else {}
    }
  }

  // ---------------------------------------------------------------------
  // Weekday to array position

  /** `pendingDayOfWeek - 1 < 0 ? 12 : (pendingDayOfWeek - 1) * 2`: the bar that
      receives the correct count; the incorrect count goes to the next bar. Both
      bars are the ones the template tags with that weekday. */
  function PuzzlesIndex(getDay: WeekdayNumber): (i: int)
    ensures 0 <= i <= 12 && i % 2 == 0
    ensures DefaultData()[i].labelText == Some(ShortWeekday(getDay))
    ensures DefaultData()[i + 1].day == Some(ShortWeekday(getDay))
  {
    if getDay - 1 < 0 then 12 else (getDay - 1) * 2
  }

  /** `pendingDayOfWeek - 1 < 0 ? 6 : pendingDayOfWeek - 1`: the bar of the
      points and time weeks that the template labels with that weekday. */
  function WeekIndex(getDay: WeekdayNumber): (i: int)
    ensures 0 <= i <= 6
    ensures DefaultData4()[i].labelText == Some(ShortWeekday(getDay))
    ensures forall j :: 0 <= j < 7 && j != i ==> DefaultData4()[j].labelText != Some(ShortWeekday(getDay))
  {
    if getDay - 1 < 0 then 6 else getDay - 1
  }

  /** The puzzles bars tagged with a weekday are exactly the pair at `PuzzlesIndex`. */
  lemma PuzzlesIndexUnique(getDay: WeekdayNumber, j: int)
    requires 0 <= j < 14
    ensures DefaultData()[j].labelText == Some(ShortWeekday(getDay)) <==> j == PuzzlesIndex(getDay)
    ensures DefaultData()[j].day == Some(ShortWeekday(getDay)) <==> j == PuzzlesIndex(getDay) + 1
  {
    DefaultDataLayout();
    var k := j / 2;
    var p := PuzzlesIndex(getDay) / 2;
    assert j == 2 * k || j == 2 * k + 1;
    assert ShortWeekday(getDay) == WeekLabels[p];
    if WeekLabels[k] == WeekLabels[p] {
      WeekLabelsDistinct(k, p);
    }
  }

  // ---------------------------------------------------------------------
  // Week builders. The templates are module-level arrays in the source, so
  // they are arrays here; none of the builders may write to them.

  /** `createNewWeekPuzzles`: copies every template bar, then writes `correct`
      into the weekday's correct bar and `incorrect` into its incorrect bar. */
  method CreateNewWeekPuzzles(template: array<BarEntry>, getDay: WeekdayNumber, correct: int, incorrect: int)
    returns (week: array<BarEntry>)
    requires template[..] == DefaultData()
    ensures week.Length == 14
    ensures week[PuzzlesIndex(getDay)].labelText == Some(ShortWeekday(getDay))
    ensures week[PuzzlesIndex(getDay)].value == correct
    ensures week[PuzzlesIndex(getDay) + 1].day == Some(ShortWeekday(getDay))
    ensures week[PuzzlesIndex(getDay) + 1].value == incorrect
    ensures forall k :: 0 <= k < 14 && k != PuzzlesIndex(getDay) && k != PuzzlesIndex(getDay) + 1 ==>
      week[k].value == 0
    ensures forall k :: 0 <= k < 14 ==> week[k].(value := 0) == DefaultData()[k]
    ensures template[..] == DefaultData()
  {
    DefaultDataLayout();
    var dayOfWeek := PuzzlesIndex(getDay);
    week := new BarEntry[template.Length](k reads template requires 0 <= k < template.Length => template[k]);
    week[dayOfWeek] := week[dayOfWeek].(value := correct);
    week[dayOfWeek + 1] := week[dayOfWeek + 1].(value := incorrect);
  }

  /** `createNewWeekPoints`: copies the 7 template bars and writes `points`
      into the bar labelled with today's weekday. */
  method CreateNewWeekPoints(template: array<BarEntry>, getDay: WeekdayNumber, points: int)
    returns (week: array<BarEntry>)
    requires template[..] == DefaultData4()
    ensures week.Length == 7
    ensures week[WeekIndex(getDay)].labelText == Some(ShortWeekday(getDay))
    ensures forall k :: 0 <= k < 7 ==>
      week[k].value == (if week[k].labelText == Some(ShortWeekday(getDay)) then points else 0)
    ensures forall k :: 0 <= k < 7 ==> week[k].(value := 0) == DefaultData4()[k]
    ensures template[..] == DefaultData4()
  {
    var dayOfWeek := WeekIndex(getDay);
    week := new BarEntry[template.Length](k reads template requires 0 <= k < template.Length => template[k]);
    week[dayOfWeek] := week[dayOfWeek].(value := points);
  }

  /** `createNewWeekTimeSpent`: the same construction as the points week, for
      the time spent. */
  method CreateNewWeekTimeSpent(template: array<BarEntry>, getDay: WeekdayNumber, timeSpent: int)
    returns (week: array<BarEntry>)
    requires template[..] == DefaultData4()
    ensures week.Length == 7
    ensures week[WeekIndex(getDay)].labelText == Some(ShortWeekday(getDay))
    ensures forall k :: 0 <= k < 7 ==>
      week[k].value == (if week[k].labelText == Some(ShortWeekday(getDay)) then timeSpent else 0)
    ensures forall k :: 0 <= k < 7 ==> week[k].(value := 0) == DefaultData4()[k]
    ensures template[..] == DefaultData4()
  {
    var dayOfWeek := WeekIndex(getDay);
    week := new BarEntry[template.Length](k reads template requires 0 <= k < template.Length => template[k]);
    week[dayOfWeek] := week[dayOfWeek].(value := timeSpent);
  }

  // ---------------------------------------------------------------------
  // End of week

  /** Offset of 23:59:59.999 from local midnight. */
  const EndOfDayOffset: int := 86_399_999

  /** `calcDaysTillSun(d)`. `getDay` and `startOfDay` (local midnight) describe
      the date `d`; `now` is `Date.now()`. On a Sunday the result is the last
      millisecond of that same day; on any other day it is `now` plus the whole
      days until Sunday, not snapped to the end of a day. */
  function CalcDaysTillSun(getDay: WeekdayNumber, startOfDay: int, now: int): (to: int)
    ensures getDay == 0 ==> to == startOfDay + EndOfDayOffset
    ensures getDay != 0 ==> to - now == DaysUntilSunday(getDay) * MsPerDay
    ensures getDay != 0 ==> now + MsPerDay <= to <= now + 6 * MsPerDay
  {
    var daysTill := DaysUntilSunday(getDay);
    if daysTill == 0 then startOfDay + EndOfDayOffset
    else now + daysTill * MsPerDay
  }

  /** The schema default `to: calcDaysTillSun(Date.now())` never lies before
      `from: Date.now()`, and at most six days after it. */
  lemma DefaultBucketWindow(getDay: WeekdayNumber, startOfDay: int, now: int)
    requires startOfDay <= now < startOfDay + MsPerDay
    ensures now <= CalcDaysTillSun(getDay, startOfDay, now) <= now + 6 * MsPerDay
  {
  }

  // ---------------------------------------------------------------------
  // todayStats reset

  /** Adds one to the correct or incorrect count of the outcome's category. */
  function Record(counts: CategoryCounts, o: Outcome): (r: CategoryCounts)
    ensures o.isCorrect ==> r.Get(o.category) == Tally(counts.Get(o.category).correct + 1, counts.Get(o.category).incorrect)
    ensures !o.isCorrect ==> r.Get(o.category) == Tally(counts.Get(o.category).correct, counts.Get(o.category).incorrect + 1)
    ensures forall c :: c != o.category ==> r.Get(c) == counts.Get(c)
  {
    var t := counts.Get(o.category);
    counts.With(o.category, if o.isCorrect then Tally(t.correct + 1, t.incorrect) else Tally(t.correct, t.incorrect + 1))
  }

  /** The `forEach` over the outcomes, first to last. */
  function RecordAll(counts: CategoryCounts, outcomes: seq<Outcome>): CategoryCounts
  {
    if outcomes == [] then counts
    else Record(RecordAll(counts, outcomes[..|outcomes| - 1]), outcomes[|outcomes| - 1])
  }

  /** How many outcomes are of category `c` with result `isCorrect`. */
  function CountOutcomes(outcomes: seq<Outcome>, c: Category, isCorrect: bool): nat
  {
    if outcomes == [] then 0
    else
      var last := if outcomes[|outcomes| - 1] == Outcome(c, isCorrect) then 1 else 0;
      CountOutcomes(outcomes[..|outcomes| - 1], c, isCorrect) + last
  }

  /** Each outcome adds exactly one to its own category's correct or incorrect
      count and nothing else. */
  lemma {:induction false} RecordAllCounts(counts: CategoryCounts, outcomes: seq<Outcome>, c: Category)
    ensures RecordAll(counts, outcomes).Get(c).correct == counts.Get(c).correct + CountOutcomes(outcomes, c, true)
    ensures RecordAll(counts, outcomes).Get(c).incorrect == counts.Get(c).incorrect + CountOutcomes(outcomes, c, false)
  {
    if outcomes != [] {
      RecordAllCounts(counts, outcomes[..|outcomes| - 1], c);
    }
  }

  /** `resetDay` as the source intends it: the new `todayStats` is the zero
      template with the given totals and, per category, the number of correct
      and incorrect outcomes. */
  function ResetDayFresh(correct: int, incorrect: int, pointsEarned: int, timeSpent: int, outcomes: seq<Outcome>)
    : (r: TodayStats)
    ensures r.puzzles == Tally(correct, incorrect)
    ensures r.points == pointsEarned && r.timeSpent == timeSpent
    ensures forall c :: r.categories.Get(c) == Tally(CountOutcomes(outcomes, c, true), CountOutcomes(outcomes, c, false))
  {
    var r := TodayStats(Tally(correct, incorrect), pointsEarned, timeSpent, RecordAll(ZeroCounts(), outcomes));
    forall c ensures r.categories.Get(c) == Tally(CountOutcomes(outcomes, c, true), CountOutcomes(outcomes, c, false)) {
      RecordAllCounts(ZeroCounts(), outcomes, c);
    }
    r
  }

  /** The `categories` object of a `todayStats` object: shared by reference. */
  class CategoriesObject {
    var counts: CategoryCounts

    constructor (counts: CategoryCounts)
      ensures this.counts == counts
    {
      this.counts := counts;
    }
  }

  /** A `todayStats` object on the heap, as the module-level `defaultData3`. */
  class TodayStatsObject {
    var puzzles: Tally
    var points: int
    var timeSpent: int
    var categories: CategoriesObject

    constructor (puzzles: Tally, points: int, timeSpent: int, categories: CategoriesObject)
      ensures this.puzzles == puzzles && this.points == points && this.timeSpent == timeSpent
      ensures this.categories == categories
    {
      this.puzzles := puzzles;
      this.points := points;
      this.timeSpent := timeSpent;
      this.categories := categories;
    }
  }

  /** `resetDay` as written. `{ ...defaultData3 }` copies the top-level fields
      only, so the result shares its `categories` object with the template and
      the tallies are added to whatever the template holds, which the template
      keeps afterwards. */
  method ResetDay(template: TodayStatsObject, correct: int, incorrect: int, pointsEarned: int, timeSpent: int,
                  outcomes: seq<Outcome>)
    returns (r: TodayStatsObject)
    modifies template.categories
    ensures fresh(r)
    ensures r.categories == template.categories
    ensures r.puzzles == Tally(correct, incorrect) && r.points == pointsEarned && r.timeSpent == timeSpent
    ensures template.categories.counts == RecordAll(old(template.categories.counts), outcomes)
  {
    r := new TodayStatsObject(template.puzzles, template.points, template.timeSpent, template.categories);
    r.puzzles := Tally(correct, incorrect);
    r.points := pointsEarned;
    r.timeSpent := timeSpent;
    var i := 0;
    while i < |outcomes|
      invariant 0 <= i <= |outcomes|
      invariant r.categories == template.categories
      invariant r.puzzles == Tally(correct, incorrect) && r.points == pointsEarned && r.timeSpent == timeSpent
      invariant r.categories.counts == RecordAll(old(template.categories.counts), outcomes[..i])
    {
      assert outcomes[..i + 1][..i] == outcomes[..i];
      r.categories.counts := Record(r.categories.counts, outcomes[i]);
      i := i + 1;
    }
    assert outcomes[..i] == outcomes;
  }

  /** Two users each ending a session with one correct Logic puzzle: both
      results report two correct Logic puzzles, and so does the template that
      the next new user and the daily reset copy. */
  method ResetDayAliasingWitness() returns (first: int, second: int, template: int)
    ensures first == 2 && second == 2 && template == 2
  {
    var shared := new CategoriesObject(ZeroCounts());
    var defaults := new TodayStatsObject(Tally(0, 0), 0, 0, shared);
    var a := ResetDay(defaults, 1, 0, 15, 30, [Outcome(Logic, true)]);
    var b := ResetDay(defaults, 1, 0, 15, 30, [Outcome(Logic, true)]);
    assert [Outcome(Logic, true)][..0] == [];
    first := a.categories.counts.logic.correct;
    second := b.categories.counts.logic.correct;
    template := defaults.categories.counts.logic.correct;
  }

  // ---------------------------------------------------------------------
  // New user defaults

  /** The level a new user is given. */
  function NoviceLevel(): Level
  {
    Level(1, "Puzzle Novice", 0, 0, "egg", "#A0AEC0")
  }

  /** A user built from the schema defaults, with `todayStats` the zero
      template. `now` is `Date.now()`; `getDay` and `startOfDay` describe it. */
  function NewUser(name: string, userId: string, now: int, getDay: WeekdayNumber, startOfDay: int): (u: User)
    requires startOfDay <= now < startOfDay + MsPerDay
    ensures u.name == name && u.userId == userId
    ensures !u.enableNotifications && u.enableLeaderboard
    ensures u.puzzleGoal == 50 && u.pointsGoal == 500
    ensures u.puzzles == Tally(0, 0) && u.points == 0 && u.timeSpent == 0
    ensures u.level == Level(1, "Puzzle Novice", 0, 0, "egg", "#A0AEC0")
    ensures u.streak == 0 && u.badgesEarned == []
    ensures u.lastLogged == now - MsPerDay
    ensures u.todayStats.puzzles == Tally(0, 0) && u.todayStats.points == 0 && u.todayStats.timeSpent == 0
    ensures forall c :: u.todayStats.categories.Get(c) == Tally(0, 0)
    ensures |u.weekPuzzles| == 1 && |u.weekPoints| == 1 && |u.weekTimeSpent| == 1
    ensures u.weekPuzzles[0].from == now <= u.weekPuzzles[0].to
    ensures u.weekPoints[0].from == now <= u.weekPoints[0].to
    ensures u.weekTimeSpent[0].from == now <= u.weekTimeSpent[0].to
    ensures u.weekPuzzles[0].data == DefaultData() && u.weekPoints[0].data == DefaultData4()
      && u.weekTimeSpent[0].data == DefaultData4()
    ensures |u.weekPuzzles[0].data| == 14 && |u.weekPoints[0].data| == 7 && |u.weekTimeSpent[0].data| == 7
    ensures forall k :: 0 <= k < 14 ==> u.weekPuzzles[0].data[k].value == 0
    ensures forall k :: 0 <= k < 7 ==> u.weekPoints[0].data[k].value == 0 && u.weekTimeSpent[0].data[k].value == 0
    ensures |u.puzzleCategoryData| == 7
    ensures forall k :: 0 <= k < 7 ==>
      u.puzzleCategoryData[k].labelText == CategoryLabels[k] && u.puzzleCategoryData[k].value == 0 &&
      u.puzzleCategoryData[k].correct == 0 && u.puzzleCategoryData[k].timeSpent == 0 &&
      u.puzzleCategoryData[k].text == "0%" && (u.puzzleCategoryData[k].focused <==> k == 0)
  {
    var to := CalcDaysTillSun(getDay, startOfDay, now);
    User(name, userId, false, true, 50, 500, Tally(0, 0), 0, 0, [], NoviceLevel(), 0,
         DefaultData3(), now - MsPerDay,
         [WeekBucket(now, to, DefaultData())],
         [WeekBucket(now, to, DefaultData4())],
         [WeekBucket(now, to, DefaultData4())],
         DefaultData2())
  }
}
