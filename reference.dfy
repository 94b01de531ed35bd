/** The progress evaluators of the backend: awarding points into the current
    week, the badge rules, and the two daily-challenge evaluators with their
    update-or-insert of a user's progress entry. Every database update is one
    atomic step on the user table or the challenge list. */
module Reference {
  import opened Base
  import opened UserModel
  import opened Documents

  // ---------------------------------------------------------------------
  // addPoints

  /** Adds `n` to a bar if it is labelled `day`. */
  function BumpBar(b: BarEntry, day: string, n: int): BarEntry
  {
    if b.labelText == Some(day) then b.(value := b.value + n) else b
  }

  /** The `$[day]` filter `{ "day.label": day }` applied to one bucket's bars. */
  function BumpDay(data: seq<BarEntry>, day: string, n: int): (r: seq<BarEntry>)
    ensures |r| == |data|
    ensures forall k :: 0 <= k < |data| ==> r[k] == BumpBar(data[k], day, n)
  {
    if data == [] then [] else [BumpBar(data[0], day, n)] + BumpDay(data[1..], day, n)
  }

  /** The bucket filter `week.from <= now <= week.to`. */
  predicate InWindow(w: WeekBucket, now: int)
  {
    w.from <= now <= w.to
  }

  /** The `$[week]` filter applied to the list of week buckets. */
  function BumpWeeks(weeks: seq<WeekBucket>, now: int, day: string, n: int): (r: seq<WeekBucket>)
    ensures |r| == |weeks|
    ensures forall k :: 0 <= k < |weeks| ==>
      r[k] == (if InWindow(weeks[k], now) then weeks[k].(data := BumpDay(weeks[k].data, day, n)) else weeks[k])
  {
    if weeks == [] then []
    else
      var w := weeks[0];
      [if InWindow(w, now) then w.(data := BumpDay(w.data, day, n)) else w] + BumpWeeks(weeks[1..], now, day, n)
  }

  /** The `$inc` of `addPoints` on one user document. */
  function AddPointsTo(u: User, n: int, now: int, getDay: WeekdayNumber): User
  {
    u.(points := u.points + n,
       todayStats := u.todayStats.(points := u.todayStats.points + n),
       weekPoints := BumpWeeks(u.weekPoints, now, ShortWeekday(getDay), n))
  }

  /** `updateOne({ userId }, ...)`: only the user with that id, if any. */
  function AddPointsUsers(users: map<string, User>, userId: string, n: int, now: int, getDay: WeekdayNumber)
    : (r: map<string, User>)
    ensures r.Keys == users.Keys
    ensures forall id :: id in users && id != userId ==> r[id] == users[id]
  {
    if userId in users then users[userId := AddPointsTo(users[userId], n, now, getDay)] else users
  }

  function SumValues(data: seq<BarEntry>): int
  {
    if data == [] then 0 else data[0].value + SumValues(data[1..])
  }

  function CountLabel(data: seq<BarEntry>, day: string): nat
  {
    if data == [] then 0 else (if data[0].labelText == Some(day) then 1 else 0) + CountLabel(data[1..], day)
  }

  /** A bucket's total grows by `n` for every bar labelled `day`. */
  lemma {:induction false} BumpDaySum(data: seq<BarEntry>, day: string, n: int)
    ensures SumValues(BumpDay(data, day, n)) == SumValues(data) + n * CountLabel(data, day)
  {
    if data != [] {
      assert BumpDay(data, day, n)[1..] == BumpDay(data[1..], day, n);
      BumpDaySum(data[1..], day, n);
    }
  }

  lemma {:induction false} CountLabelNone(data: seq<BarEntry>, day: string)
    requires forall j :: 0 <= j < |data| ==> data[j].labelText != Some(day)
    ensures CountLabel(data, day) == 0
  {
    if data != [] {
      CountLabelNone(data[1..], day);
    }
  }

  lemma {:induction false} CountLabelOne(data: seq<BarEntry>, day: string, i: nat)
    requires i < |data| && data[i].labelText == Some(day)
    requires forall j :: 0 <= j < |data| && j != i ==> data[j].labelText != Some(day)
    ensures CountLabel(data, day) == 1
  {
    if i == 0 {
      CountLabelNone(data[1..], day);
    } else {
      CountLabelOne(data[1..], day, i - 1);
    }
  }

  /** The bars of a points week carry the seven weekday labels, Monday first. */
  predicate WellLabelled(data: seq<BarEntry>)
  {
    |data| == 7 && forall k :: 0 <= k < 7 ==> data[k].labelText == Some(WeekLabels[k])
  }

  /** A week of seven distinct labels has exactly one bar for any weekday. */
  lemma WellLabelledOneBar(data: seq<BarEntry>, getDay: WeekdayNumber)
    requires WellLabelled(data)
    ensures CountLabel(data, ShortWeekday(getDay)) == 1
  {
    var i := WeekIndex(getDay);
    assert ShortWeekday(getDay) == WeekLabels[i];
    forall j | 0 <= j < 7 && j != i
      ensures data[j].labelText != Some(ShortWeekday(getDay))
    {
      assert data[j].labelText == Some(WeekLabels[j]);
    }
    CountLabelOne(data, ShortWeekday(getDay), i);
  }

  /** `addPoints(userId, n)`: the user's `points` and `todayStats.points` grow
      by `n`; every bucket whose window contains `now` grows by `n` per bar
      labelled with today's weekday; every other bucket and every other field
      is unchanged. */
  lemma AddPointsEffect(u: User, n: int, now: int, getDay: WeekdayNumber, k: int)
    requires 0 <= k < |u.weekPoints|
    ensures AddPointsTo(u, n, now, getDay).points == u.points + n
    ensures AddPointsTo(u, n, now, getDay).todayStats.points == u.todayStats.points + n
    ensures |AddPointsTo(u, n, now, getDay).weekPoints| == |u.weekPoints|
    ensures SumValues(AddPointsTo(u, n, now, getDay).weekPoints[k].data)
      == SumValues(u.weekPoints[k].data)
         + (if InWindow(u.weekPoints[k], now) then n * CountLabel(u.weekPoints[k].data, ShortWeekday(getDay)) else 0)
    ensures !InWindow(u.weekPoints[k], now) ==> AddPointsTo(u, n, now, getDay).weekPoints[k] == u.weekPoints[k]
    ensures AddPointsTo(u, n, now, getDay).(points := u.points, todayStats := u.todayStats, weekPoints := u.weekPoints) == u
  {
    BumpDaySum(u.weekPoints[k].data, ShortWeekday(getDay), n);
  }

  /** A current week built from the seven-bar template gains exactly `n`. */
  lemma AddPointsCurrentWeek(u: User, n: int, now: int, getDay: WeekdayNumber, k: int)
    requires 0 <= k < |u.weekPoints| && InWindow(u.weekPoints[k], now) && WellLabelled(u.weekPoints[k].data)
    ensures SumValues(AddPointsTo(u, n, now, getDay).weekPoints[k].data) == SumValues(u.weekPoints[k].data) + n
  {
    AddPointsEffect(u, n, now, getDay, k);
    WellLabelledOneBar(u.weekPoints[k].data, getDay);
  }

  // ---------------------------------------------------------------------
  // Badges

  datatype Badge = BrainSpark | LogicMaster | EarlyBird | NightOwl | HotStreak | Braniac | Master

  /** The `logic_master` filter as written: one path test per condition, so the
      entry labelled "Logic" and the entry with `value >= 20` may differ. */
  predicate LogicMasterAsWritten(u: User)
  {
    (exists i :: 0 <= i < |u.puzzleCategoryData| && u.puzzleCategoryData[i].labelText == "Logic")
    && (exists j :: 0 <= j < |u.puzzleCategoryData| && u.puzzleCategoryData[j].value >= 20)
  }

  /** The `logic_master` condition as intended: the Logic entry itself has
      `value >= 20` (an `$elemMatch`). */
  predicate LogicMasterIntended(u: User)
  {
    exists i :: 0 <= i < |u.puzzleCategoryData|
      && u.puzzleCategoryData[i].labelText == "Logic" && u.puzzleCategoryData[i].value >= 20
  }

  /** Every user the intended rule admits, the filter as written admits too;
      but a user with Logic at 0 and Math at 20 passes the written filter only. */
  lemma LogicMasterFilterTooWide()
    ensures forall u :: LogicMasterIntended(u) ==> LogicMasterAsWritten(u)
    ensures exists u :: LogicMasterAsWritten(u) && !LogicMasterIntended(u)
  {
    var pieces := DefaultData2()[1 := DefaultData2()[1].(value := 20)];
    var u := NewUser("n", "id", 0, 3, 0).(puzzleCategoryData := pieces);
    assert u.puzzleCategoryData[0].labelText == "Logic";
    assert u.puzzleCategoryData[1].value >= 20;
    forall i | 0 <= i < |u.puzzleCategoryData| && u.puzzleCategoryData[i].labelText == "Logic"
      ensures u.puzzleCategoryData[i].value < 20
    {
      if i == 0 {} else if i == 1 {} else if i == 2 {} else if i == 3 {} else if i == 4 {} else if i == 5 {} else {}
    }
    assert LogicMasterAsWritten(u) && !LogicMasterIntended(u);
  }

  /** The condition each badge rule checks, `logic_master`'s filter as written.
      `hour` is the server's local hour of `new Date()`: before 09:00 for
      `early_bird`, from 23:00 for `night_owl`. */
  predicate Qualifies(b: Badge, u: User, hour: Hour)
  {
    match b
    case BrainSpark => u.puzzles.correct >= 1
    case LogicMaster => LogicMasterAsWritten(u)
    case EarlyBird => hour < 9
    case NightOwl => hour >= 23
    case HotStreak => u.streak >= 7
    case Braniac => u.todayStats.points >= 5000
    case Master => u.points >= 100000
  }

  /** A badge rule on one user: `$addToSet` of the badge id when the condition holds. */
  function GrantBadge(u: User, b: Badge, badgeId: string, hour: Hour): (r: User)
    ensures r.(badgesEarned := u.badgesEarned) == u
    ensures badgeId in r.badgesEarned <==> badgeId in u.badgesEarned || Qualifies(b, u, hour)
    ensures forall x :: x in u.badgesEarned ==> x in r.badgesEarned
    ensures forall x :: x in r.badgesEarned && x != badgeId ==> x in u.badgesEarned
    ensures !Qualifies(b, u, hour) ==> r == u
  {
    if Qualifies(b, u, hour) then u.(badgesEarned := AddToSet(u.badgesEarned, badgeId)) else u
  }

  /** As written, `logic_master` goes to a user who lacks it exactly when some
      slice is labelled "Logic" and some slice, not necessarily the same one,
      has `value >= 20`. */
  lemma LogicMasterGrantedAsWritten(u: User, badgeId: string, hour: Hour)
    requires badgeId !in u.badgesEarned
    ensures badgeId in GrantBadge(u, LogicMaster, badgeId, hour).badgesEarned <==>
      (exists i :: 0 <= i < |u.puzzleCategoryData| && u.puzzleCategoryData[i].labelText == "Logic")
      && (exists j :: 0 <= j < |u.puzzleCategoryData| && u.puzzleCategoryData[j].value >= 20)
  {
  }

  /** The rule set with `logic_master` corrected to an `$elemMatch`; every
      other rule is the one the handlers check. */
  predicate QualifiesIntended(b: Badge, u: User, hour: Hour)
  {
    if b == LogicMaster then LogicMasterIntended(u) else Qualifies(b, u, hour)
  }

  /** A badge rule with the corrected `logic_master` filter. */
  function GrantBadgeIntended(u: User, b: Badge, badgeId: string, hour: Hour): (r: User)
    ensures r.(badgesEarned := u.badgesEarned) == u
    ensures badgeId in r.badgesEarned <==> badgeId in u.badgesEarned || QualifiesIntended(b, u, hour)
    ensures forall x :: x in u.badgesEarned ==> x in r.badgesEarned
    ensures forall x :: x in r.badgesEarned && x != badgeId ==> x in u.badgesEarned
  {
    if QualifiesIntended(b, u, hour) then u.(badgesEarned := AddToSet(u.badgesEarned, badgeId)) else u
  }

  /** The corrected rules differ from the handlers' only for `logic_master`,
      and there they grant to a subset of the users. */
  lemma GrantBadgeIntendedAgrees(u: User, b: Badge, badgeId: string, hour: Hour)
    ensures b != LogicMaster ==> GrantBadgeIntended(u, b, badgeId, hour) == GrantBadge(u, b, badgeId, hour)
    ensures badgeId in GrantBadgeIntended(u, b, badgeId, hour).badgesEarned ==>
      badgeId in GrantBadge(u, b, badgeId, hour).badgesEarned
  {
    LogicMasterFilterTooWide();
  }

  /** With the filter corrected, `logic_master` goes to a user who lacks it
      exactly when the slice labelled "Logic" itself has `value >= 20`. */
  lemma LogicMasterGrantedIff(u: User, badgeId: string, hour: Hour)
    requires badgeId !in u.badgesEarned
    ensures badgeId in GrantBadgeIntended(u, LogicMaster, badgeId, hour).badgesEarned <==>
      exists i :: 0 <= i < |u.puzzleCategoryData|
        && u.puzzleCategoryData[i].labelText == "Logic" && u.puzzleCategoryData[i].value >= 20
  {
  }

  /** The handler grants `logic_master` to a user the corrected rule refuses:
      Logic at 0 and Math at 20. */
  lemma LogicMasterGrantWitness()
    ensures exists u: User ::
      && "logic_master" !in u.badgesEarned
      && "logic_master" in GrantBadge(u, LogicMaster, "logic_master", 12).badgesEarned
      && "logic_master" !in GrantBadgeIntended(u, LogicMaster, "logic_master", 12).badgesEarned
  {
    LogicMasterFilterTooWide();
    var u :| LogicMasterAsWritten(u) && !LogicMasterIntended(u);
    var v := u.(badgesEarned := []);
    assert v.puzzleCategoryData == u.puzzleCategoryData;
    assert LogicMasterAsWritten(v) && !LogicMasterIntended(v);
    assert "logic_master" in GrantBadge(v, LogicMaster, "logic_master", 12).badgesEarned;
    assert "logic_master" !in GrantBadgeIntended(v, LogicMaster, "logic_master", 12).badgesEarned;
  }

  /** Granting a badge twice is granting it once. */
  lemma GrantBadgeIdempotent(u: User, b: Badge, badgeId: string, hour: Hour)
    ensures GrantBadge(GrantBadge(u, b, badgeId, hour), b, badgeId, hour) == GrantBadge(u, b, badgeId, hour)
  {
    var r := GrantBadge(u, b, badgeId, hour);
    if Qualifies(b, u, hour) {
      assert r.(badgesEarned := u.badgesEarned) == u;
      assert Qualifies(b, r, hour);
    }
  }

  /** A badge list without repeats stays without repeats. */
  lemma GrantBadgeNoDuplicates(u: User, b: Badge, badgeId: string, hour: Hour)
    requires NoDuplicates(u.badgesEarned)
    ensures NoDuplicates(GrantBadge(u, b, badgeId, hour).badgesEarned)
  {
    var s := u.badgesEarned;
    if Qualifies(b, u, hour) && badgeId !in s {
      var t := s + [badgeId];
      forall i, j | 0 <= i < j < |t|
        ensures t[i] != t[j]
      {
        if j == |s| {
          assert t[i] == s[i];
        }
      }
    }
  }

  /** The badge rule on the user table: `updateOne({ userId, ... })`. */
  function GrantBadgeUsers(users: map<string, User>, userId: string, b: Badge, badgeId: string, hour: Hour)
    : (r: map<string, User>)
    ensures r.Keys == users.Keys
    ensures forall id :: id in users && id != userId ==> r[id] == users[id]
    ensures userId in users ==> r[userId] == GrantBadge(users[userId], b, badgeId, hour)
  {
    if userId in users then users[userId := GrantBadge(users[userId], b, badgeId, hour)] else users
  }

  // ---------------------------------------------------------------------
  // Challenge progress

  const ThinkCondition: string := "think_outside_the_box"
  const PowerCondition: string := "power_session"

  /** `checkUserPrevComplete`: `isCompleted` of the user's first entry in the
      first challenge with the condition; false when either is missing. */
  function CheckUserPrevComplete(cs: seq<Challenge>, condition: string, userId: string): (r: bool)
    ensures r ==> FindChallenge(cs, condition).Some?
    ensures r ==> FindEntry(cs[FindChallenge(cs, condition).value].usersComplete, userId).Some?
    ensures FindChallenge(cs, condition).None? ==> !r
  {
    match FindChallenge(cs, condition)
    case None => false
    case Some(i) =>
      match FindEntry(cs[i].usersComplete, userId)
      case None => false
      case Some(j) => cs[i].usersComplete[j].isCompleted
  }

  lemma {:induction false} EntriesOfTwo(entries: seq<UserProgress>, userId: string, i: nat, j: nat)
    requires i < j < |entries| && entries[i].user == userId && entries[j].user == userId
    ensures EntriesOf(entries, userId) >= 2
  {
    if i == 0 {
      EntriesOfZero(entries[1..], userId);
      assert entries[1..][j - 1].user == userId;
    } else {
      EntriesOfTwo(entries[1..], userId, i - 1, j - 1);
    }
  }

  /** With unique conditions and one entry per user, `checkUserPrevComplete`
      holds exactly when the challenge has a completed entry of the user. */
  lemma PrevCompleteIff(cs: seq<Challenge>, condition: string, userId: string)
    requires UniqueConditions(cs) && OneEntryPerUser(cs)
    ensures CheckUserPrevComplete(cs, condition, userId) <==>
      exists i, j :: 0 <= i < |cs| && 0 <= j < |cs[i].usersComplete| && cs[i].condition == condition
        && cs[i].usersComplete[j].user == userId && cs[i].usersComplete[j].isCompleted
  {
    if exists i, j :: 0 <= i < |cs| && 0 <= j < |cs[i].usersComplete| && cs[i].condition == condition
        && cs[i].usersComplete[j].user == userId && cs[i].usersComplete[j].isCompleted
    {
      var i, j :| 0 <= i < |cs| && 0 <= j < |cs[i].usersComplete| && cs[i].condition == condition
        && cs[i].usersComplete[j].user == userId && cs[i].usersComplete[j].isCompleted;
      var fi := FindChallenge(cs, condition);
      assert fi == Some(i);
      var fj := FindEntry(cs[i].usersComplete, userId);
      assert fj.Some?;
      if fj.value < j {
        EntriesOfTwo(cs[i].usersComplete, userId, fj.value, j);
      }
      assert fj == Some(j);
    }
  }

  /** The first challenge with the condition whose entries do (`withEntry`)
      or do not contain the user: the filters `"usersComplete.user": userId`
      and `"usersComplete.user": { $ne: userId }`. */
  function FirstMatching(cs: seq<Challenge>, condition: string, userId: string, withEntry: bool): (r: Option<nat>)
    ensures r.Some? ==> r.value < |cs| && cs[r.value].condition == condition && HasEntry(cs[r.value], userId) == withEntry
    ensures r.Some? ==> forall k :: 0 <= k < r.value ==> !(cs[k].condition == condition && HasEntry(cs[k], userId) == withEntry)
    ensures r.None? ==> forall k :: 0 <= k < |cs| ==> !(cs[k].condition == condition && HasEntry(cs[k], userId) == withEntry)
  {
    if cs == [] then None
    else if cs[0].condition == condition && HasEntry(cs[0], userId) == withEntry then Some(0)
    else match FirstMatching(cs[1..], condition, userId, withEntry)
      case None => None
      case Some(k) => Some(k + 1)
  }

  /** The result of an `updateOne`: the new list and `modifiedCount`. */
  datatype UpdateResult = UpdateResult(challenges: seq<Challenge>, modifiedCount: nat)

  /** The positional update `usersComplete.$.progress` / `usersComplete.$.isCompleted`:
      the first entry of the user in the first matching challenge gets the new
      values; `modifiedCount` is 0 when nothing matched or the values were
      already there. */
  function SetProgress(cs: seq<Challenge>, condition: string, userId: string, progress: int, isCompleted: bool)
    : (r: UpdateResult)
    ensures |r.challenges| == |cs|
    ensures forall k :: 0 <= k < |cs| ==> r.challenges[k].condition == cs[k].condition
    ensures r.modifiedCount <= 1
    ensures r.modifiedCount == 0 ==> r.challenges == cs
  {
    match FirstMatching(cs, condition, userId, true)
    case None => UpdateResult(cs, 0)
    case Some(i) =>
      var j := FindEntry(cs[i].usersComplete, userId).value;
      var e := cs[i].usersComplete[j];
      var e' := e.(progress := progress, isCompleted := isCompleted);
      if e' == e then UpdateResult(cs, 0)
      else UpdateResult(cs[i := cs[i].(usersComplete := cs[i].usersComplete[j := e'])], 1)
  }

  /** The guarded insert: `$addToSet` of `{user, progress, isCompleted}` into the
      first challenge with the condition that has no entry of the user. */
  function InsertProgress(cs: seq<Challenge>, condition: string, userId: string, progress: int, isCompleted: bool)
    : (r: seq<Challenge>)
    ensures |r| == |cs|
    ensures forall k :: 0 <= k < |cs| ==> r[k].condition == cs[k].condition
  {
    match FirstMatching(cs, condition, userId, false)
    case None => cs
    case Some(i) =>
      var e := UserProgress(userId, progress, isCompleted, None);
      var entries := cs[i].usersComplete;
      cs[i := cs[i].(usersComplete := if e in entries then entries else entries + [e])]
  }

  /** Update, and insert when the update modified nothing. */
  function RecordProgress(cs: seq<Challenge>, condition: string, userId: string, progress: int, isCompleted: bool)
    : (r: seq<Challenge>)
    ensures |r| == |cs|
    ensures forall k :: 0 <= k < |cs| ==> r[k].condition == cs[k].condition
  {
    var u := SetProgress(cs, condition, userId, progress, isCompleted);
    if u.modifiedCount == 0 then InsertProgress(u.challenges, condition, userId, progress, isCompleted)
    else u.challenges
  }

  lemma NoEntryNoCount(c: Challenge, userId: string)
    requires !HasEntry(c, userId)
    ensures EntriesOf(c.usersComplete, userId) == 0
  {
    EntriesOfZero(c.usersComplete, userId);
  }

  /** Neither step gives a user a second entry in any challenge. */
  lemma RecordProgressOneEntry(cs: seq<Challenge>, condition: string, userId: string, progress: int, isCompleted: bool)
    requires OneEntryPerUser(cs)
    ensures OneEntryPerUser(RecordProgress(cs, condition, userId, progress, isCompleted))
  {
    var s := SetProgress(cs, condition, userId, progress, isCompleted);
    assert OneEntryPerUser(s.challenges) by {
      match FirstMatching(cs, condition, userId, true)
      case None =>
      case Some(i) =>
        var j := FindEntry(cs[i].usersComplete, userId).value;
        var e' := cs[i].usersComplete[j].(progress := progress, isCompleted := isCompleted);
        forall k, u | 0 <= k < |s.challenges|
          ensures EntriesOf(s.challenges[k].usersComplete, u) <= 1
        {
          if k == i && s.modifiedCount == 1 {
            EntriesOfUpdate(cs[i].usersComplete, j, e', u);
          }
        }
    }
    if s.modifiedCount == 0 {
      var t := s.challenges;
      match FirstMatching(t, condition, userId, false)
      case None =>
      case Some(i) =>
        var e := UserProgress(userId, progress, isCompleted, None);
        NoEntryNoCount(t[i], userId);
        forall u ensures EntriesOf(t[i].usersComplete + [e], u) <= 1 {
          EntriesOfAppend(t[i].usersComplete, e, u);
        }
    }
  }

  /** With unique conditions, the only challenge with the condition is the one
      either filter can pick. */
  lemma FirstMatchingUnique(cs: seq<Challenge>, condition: string, userId: string, i: nat)
    requires UniqueConditions(cs) && i < |cs| && cs[i].condition == condition
    ensures FirstMatching(cs, condition, userId, HasEntry(cs[i], userId)) == Some(i)
    ensures FirstMatching(cs, condition, userId, !HasEntry(cs[i], userId)).None?
  {
  }

  lemma FindChallengeAt(cs: seq<Challenge>, condition: string, i: nat)
    requires UniqueConditions(cs) && i < |cs| && cs[i].condition == condition
    ensures FindChallenge(cs, condition) == Some(i)
  {
  }

  lemma FindEntryAfterUpdate(entries: seq<UserProgress>, userId: string, j: nat, e: UserProgress)
    requires FindEntry(entries, userId) == Some(j) && e.user == userId
    ensures FindEntry(entries[j := e], userId) == Some(j)
  {
    assert entries[j := e][j].user == userId;
  }

  lemma FindEntryAfterAppend(entries: seq<UserProgress>, userId: string, e: UserProgress)
    requires FindEntry(entries, userId).None? && e.user == userId
    ensures FindEntry(entries + [e], userId) == Some(|entries|)
  {
    var t := entries + [e];
    assert forall k :: 0 <= k < |entries| ==> t[k] == entries[k];
    assert t[|entries|].user == userId;
  }

  /** With unique conditions, once the challenge exists the user's first entry
      holds the new progress and completion, no other challenge changes, and
      `checkUserPrevComplete` then reports the new completion. */
  lemma RecordProgressSetsEntry(cs: seq<Challenge>, condition: string, userId: string, progress: int,
                                isCompleted: bool, i: nat)
    requires UniqueConditions(cs) && i < |cs| && cs[i].condition == condition
    ensures UniqueConditions(RecordProgress(cs, condition, userId, progress, isCompleted))
    ensures forall k :: 0 <= k < |cs| && k != i ==> RecordProgress(cs, condition, userId, progress, isCompleted)[k] == cs[k]
    ensures FindEntry(RecordProgress(cs, condition, userId, progress, isCompleted)[i].usersComplete, userId).Some?
    ensures var r := RecordProgress(cs, condition, userId, progress, isCompleted)[i].usersComplete;
      r[FindEntry(r, userId).value].progress == progress && r[FindEntry(r, userId).value].isCompleted == isCompleted
    ensures CheckUserPrevComplete(RecordProgress(cs, condition, userId, progress, isCompleted), condition, userId)
      == isCompleted
  {
    var r := RecordProgress(cs, condition, userId, progress, isCompleted);
    var entries := cs[i].usersComplete;
    FirstMatchingUnique(cs, condition, userId, i);
    if HasEntry(cs[i], userId) {
      var j := FindEntry(entries, userId).value;
      var e' := entries[j].(progress := progress, isCompleted := isCompleted);
      if e' == entries[j] {
        assert SetProgress(cs, condition, userId, progress, isCompleted) == UpdateResult(cs, 0);
        assert r == cs;
      } else {
        assert r == cs[i := cs[i].(usersComplete := entries[j := e'])];
        FindEntryAfterUpdate(entries, userId, j, e');
      }
    } else {
      assert SetProgress(cs, condition, userId, progress, isCompleted) == UpdateResult(cs, 0);
      var e := UserProgress(userId, progress, isCompleted, None);
      assert FindEntry(entries, userId).None?;
      assert e !in entries;
      assert r == cs[i := cs[i].(usersComplete := entries + [e])];
      FindEntryAfterAppend(entries, userId, e);
    }
    FindChallengeAt(r, condition, i);
  }

  // ---------------------------------------------------------------------
  // The two daily-challenge evaluators

  /** The effect of an evaluator on the user table and the challenge list. */
  datatype Effect = Effect(users: map<string, User>, challenges: seq<Challenge>)

  /** `think_outside_the_box`: nothing when previously completed, when the user
      is missing or when today's lateral correct count is 0; otherwise progress
      is the count capped at 3, completion is reaching 3, and completion earns
      200 points. */
  function ThinkOutsideTheBoxEffect(users: map<string, User>, cs: seq<Challenge>, userId: string,
                                    now: int, getDay: WeekdayNumber): (r: Effect)
    ensures CheckUserPrevComplete(cs, ThinkCondition, userId) ==> r == Effect(users, cs)
    ensures userId in users && users[userId].todayStats.categories.lateral.correct == 0 ==> r == Effect(users, cs)
    ensures r.users.Keys == users.Keys
    ensures forall id :: id in users && id != userId ==> r.users[id] == users[id]
  {
    if CheckUserPrevComplete(cs, ThinkCondition, userId) || userId !in users then Effect(users, cs)
    else
      var lateral := users[userId].todayStats.categories.lateral.correct;
      if lateral == 0 then Effect(users, cs)
      else
        var isCompleted := lateral >= 3;
        var users' := if isCompleted then AddPointsUsers(users, userId, 200, now, getDay) else users;
        var progress := if isCompleted then 3 else lateral;
        Effect(users', RecordProgress(cs, ThinkCondition, userId, progress, isCompleted))
  }

  /** On a fresh evaluation, the user's progress entry ends at
      `min(lateral, 3)`, completed exactly when the count reached 3, and the
      user's points grow by 200 exactly then. */
  lemma ThinkOutsideTheBoxOutcome(users: map<string, User>, cs: seq<Challenge>, userId: string,
                                  now: int, getDay: WeekdayNumber, i: nat)
    requires UniqueConditions(cs) && i < |cs| && cs[i].condition == ThinkCondition
    requires !CheckUserPrevComplete(cs, ThinkCondition, userId)
    requires userId in users && users[userId].todayStats.categories.lateral.correct != 0
    ensures var lateral := users[userId].todayStats.categories.lateral.correct;
      var r := ThinkOutsideTheBoxEffect(users, cs, userId, now, getDay);
      && CheckUserPrevComplete(r.challenges, ThinkCondition, userId) == (lateral >= 3)
      && var entries := r.challenges[i].usersComplete;
      && FindEntry(entries, userId).Some?
      && entries[FindEntry(entries, userId).value].progress == (if lateral >= 3 then 3 else lateral)
      && r.users[userId].points == users[userId].points + (if lateral >= 3 then 200 else 0)
  {
    var lateral := users[userId].todayStats.categories.lateral.correct;
    RecordProgressSetsEntry(cs, ThinkCondition, userId, if lateral >= 3 then 3 else lateral, lateral >= 3, i);
  }

  /** Once completed, a second evaluation changes nothing: the bonus is paid
      once. */
  lemma ThinkOutsideTheBoxBonusOnce(users: map<string, User>, cs: seq<Challenge>, userId: string,
                                    now: int, getDay: WeekdayNumber, i: nat)
    requires UniqueConditions(cs) && i < |cs| && cs[i].condition == ThinkCondition
    requires userId in users && users[userId].todayStats.categories.lateral.correct >= 3
    ensures var r := ThinkOutsideTheBoxEffect(users, cs, userId, now, getDay);
      ThinkOutsideTheBoxEffect(r.users, r.challenges, userId, now, getDay) == r
  {
    if !CheckUserPrevComplete(cs, ThinkCondition, userId) {
      ThinkOutsideTheBoxOutcome(users, cs, userId, now, getDay, i);
    }
  }

  /** The evaluator keeps at most one entry per user in every challenge. */
  lemma ThinkOutsideTheBoxOneEntry(users: map<string, User>, cs: seq<Challenge>, userId: string,
                                   now: int, getDay: WeekdayNumber)
    requires OneEntryPerUser(cs)
    ensures OneEntryPerUser(ThinkOutsideTheBoxEffect(users, cs, userId, now, getDay).challenges)
  {
    if !CheckUserPrevComplete(cs, ThinkCondition, userId) && userId in users {
      var lateral := users[userId].todayStats.categories.lateral.correct;
      RecordProgressOneEntry(cs, ThinkCondition, userId, if lateral >= 3 then 3 else lateral, lateral >= 3);
    }
  }

  /** The largest `pointsEarned` among the user's sessions: the head of
      `find({ user }).sort({ pointsEarned: -1 })`. */
  function BestSession(sessions: seq<TrainingSession>, userId: string): (r: Option<int>)
    ensures r.None? <==> forall k :: 0 <= k < |sessions| ==> sessions[k].user != userId
    ensures r.Some? ==> exists k :: 0 <= k < |sessions| && sessions[k].user == userId && sessions[k].pointsEarned == r.value
    ensures r.Some? ==> forall k :: 0 <= k < |sessions| && sessions[k].user == userId ==> sessions[k].pointsEarned <= r.value
  {
    if sessions == [] then None
    else
      var rest := BestSession(sessions[1..], userId);
      if sessions[0].user != userId then
        assert forall k :: 1 <= k < |sessions| ==> sessions[k] == sessions[1..][k - 1];
        rest
      else if rest.Some? && rest.value > sessions[0].pointsEarned then
        assert forall k :: 1 <= k < |sessions| ==> sessions[k] == sessions[1..][k - 1];
        rest
      else
        assert forall k :: 1 <= k < |sessions| ==> sessions[k] == sessions[1..][k - 1];
        Some(sessions[0].pointsEarned)
  }

  /** `power_session`: nothing when previously completed or when the user has
      no session; otherwise progress is the best session capped at 1000,
      completion is reaching 1000, and completion earns 200 points. */
  function PowerSessionEffect(users: map<string, User>, cs: seq<Challenge>, sessions: seq<TrainingSession>,
                              userId: string, now: int, getDay: WeekdayNumber): (r: Effect)
    ensures CheckUserPrevComplete(cs, PowerCondition, userId) ==> r == Effect(users, cs)
    ensures BestSession(sessions, userId).None? ==> r == Effect(users, cs)
    ensures r.users.Keys == users.Keys
    ensures forall id :: id in users && id != userId ==> r.users[id] == users[id]
  {
    if CheckUserPrevComplete(cs, PowerCondition, userId) then Effect(users, cs)
    else match BestSession(sessions, userId)
      case None => Effect(users, cs)
      case Some(best) =>
        var isCompleted := best >= 1000;
        var progress := if isCompleted then 1000 else best;
        var users' := if isCompleted then AddPointsUsers(users, userId, 200, now, getDay) else users;
        Effect(users', RecordProgress(cs, PowerCondition, userId, progress, isCompleted))
  }

  /** On a fresh evaluation, the entry ends at the best session capped at
      1000, completed exactly when the best reached 1000, with the 200 bonus
      exactly then. */
  lemma PowerSessionOutcome(users: map<string, User>, cs: seq<Challenge>, sessions: seq<TrainingSession>,
                            userId: string, now: int, getDay: WeekdayNumber, i: nat)
    requires UniqueConditions(cs) && i < |cs| && cs[i].condition == PowerCondition
    requires !CheckUserPrevComplete(cs, PowerCondition, userId)
    requires BestSession(sessions, userId).Some?
    ensures var best := BestSession(sessions, userId).value;
      var r := PowerSessionEffect(users, cs, sessions, userId, now, getDay);
      && CheckUserPrevComplete(r.challenges, PowerCondition, userId) == (best >= 1000)
      && var entries := r.challenges[i].usersComplete;
      && FindEntry(entries, userId).Some?
      && entries[FindEntry(entries, userId).value].progress == (if best >= 1000 then 1000 else best)
      && (userId in users ==> r.users[userId].points == users[userId].points + (if best >= 1000 then 200 else 0))
  {
    var best := BestSession(sessions, userId).value;
    RecordProgressSetsEntry(cs, PowerCondition, userId, if best >= 1000 then 1000 else best, best >= 1000, i);
  }

  /** Once completed, a second evaluation changes nothing. */
  lemma PowerSessionBonusOnce(users: map<string, User>, cs: seq<Challenge>, sessions: seq<TrainingSession>,
                              userId: string, now: int, getDay: WeekdayNumber, i: nat)
    requires UniqueConditions(cs) && i < |cs| && cs[i].condition == PowerCondition
    requires BestSession(sessions, userId).Some? && BestSession(sessions, userId).value >= 1000
    ensures var r := PowerSessionEffect(users, cs, sessions, userId, now, getDay);
      PowerSessionEffect(r.users, r.challenges, sessions, userId, now, getDay) == r
  {
    if !CheckUserPrevComplete(cs, PowerCondition, userId) {
      PowerSessionOutcome(users, cs, sessions, userId, now, getDay, i);
    }
  }

  /** The evaluator keeps at most one entry per user in every challenge. */
  lemma PowerSessionOneEntry(users: map<string, User>, cs: seq<Challenge>, sessions: seq<TrainingSession>,
                             userId: string, now: int, getDay: WeekdayNumber)
    requires OneEntryPerUser(cs)
    ensures OneEntryPerUser(PowerSessionEffect(users, cs, sessions, userId, now, getDay).challenges)
  {
    if !CheckUserPrevComplete(cs, PowerCondition, userId) && BestSession(sessions, userId).Some? {
      var best := BestSession(sessions, userId).value;
      RecordProgressOneEntry(cs, PowerCondition, userId, if best >= 1000 then 1000 else best, best >= 1000);
    }
  }

  // ---------------------------------------------------------------------
  // The collections, updated step by step as the handlers do

  class Store {
    var users: map<string, User>
    var challenges: seq<Challenge>
    var sessions: seq<TrainingSession>

    constructor (users: map<string, User>, challenges: seq<Challenge>, sessions: seq<TrainingSession>)
      ensures this.users == users && this.challenges == challenges && this.sessions == sessions
    {
      this.users := users;
      this.challenges := challenges;
      this.sessions := sessions;
    }

    /** `addPoints(userId, points)` at time `now`, whose local weekday is `getDay`. */
    method AddPoints(userId: string, points: int, now: int, getDay: WeekdayNumber)
      modifies this
      ensures users == AddPointsUsers(old(users), userId, points, now, getDay)
      ensures challenges == old(challenges) && sessions == old(sessions)
    {
      if userId in users {
        users := users[userId := AddPointsTo(users[userId], points, now, getDay)];
      }
    }

    /** One `BadgeReference` rule at local hour `hour`. */
    method AwardBadge(userId: string, b: Badge, badgeId: string, hour: Hour)
      modifies this
      ensures users == GrantBadgeUsers(old(users), userId, b, badgeId, hour)
      ensures challenges == old(challenges) && sessions == old(sessions)
    {
      if userId in users && Qualifies(b, users[userId], hour) {
        users := users[userId := users[userId].(badgesEarned := AddToSet(users[userId].badgesEarned, badgeId))];
      }
    }

    /** The positional `updateOne`, returning `modifiedCount`. */
    method UpdateProgress(condition: string, userId: string, progress: int, isCompleted: bool)
      returns (modifiedCount: nat)
      modifies this
      ensures UpdateResult(challenges, modifiedCount) == SetProgress(old(challenges), condition, userId, progress, isCompleted)
      ensures users == old(users) && sessions == old(sessions)
    {
      var r := SetProgress(challenges, condition, userId, progress, isCompleted);
      challenges := r.challenges;
      modifiedCount := r.modifiedCount;
    }

    /** The guarded `$addToSet` of a new entry. */
    method AddProgress(condition: string, userId: string, progress: int, isCompleted: bool)
      modifies this
      ensures challenges == InsertProgress(old(challenges), condition, userId, progress, isCompleted)
      ensures users == old(users) && sessions == old(sessions)
    {
      challenges := InsertProgress(challenges, condition, userId, progress, isCompleted);
    }

    /** `ChallengeReference.think_outside_the_box(userId)`. */
    method ThinkOutsideTheBox(userId: string, now: int, getDay: WeekdayNumber)
      modifies this
      ensures Effect(users, challenges) == ThinkOutsideTheBoxEffect(old(users), old(challenges), userId, now, getDay)
      ensures sessions == old(sessions)
    {
      var prevComplete := CheckUserPrevComplete(challenges, ThinkCondition, userId);
      if prevComplete {
        return;
      }
      if userId !in users {
        return;
      }
      var lateralThinkingPuzzles := users[userId].todayStats.categories.lateral.correct;
      if lateralThinkingPuzzles != 0 {
        var isCompleted := lateralThinkingPuzzles >= 3;
        if isCompleted {
          AddPoints(userId, 200, now, getDay);
        }
        var progress := if isCompleted then 3 else lateralThinkingPuzzles;
        var modifiedCount := UpdateProgress(ThinkCondition, userId, progress, isCompleted);
        if modifiedCount == 0 {
          AddProgress(ThinkCondition, userId, progress, isCompleted);
        }
      }
    }

    /** `ChallengeReference.power_session(userId)`. */
    method PowerSession(userId: string, now: int, getDay: WeekdayNumber)
      modifies this
      ensures Effect(users, challenges) == PowerSessionEffect(old(users), old(challenges), old(sessions), userId, now, getDay)
      ensures sessions == old(sessions)
    {
      var prevComplete := CheckUserPrevComplete(challenges, PowerCondition, userId);
      if prevComplete {
        return;
      }
      var best := BestSession(sessions, userId);
      if best.Some? {
        var isCompleted := best.value >= 1000;
        var progress := if isCompleted then 1000 else best.value;
        if isCompleted {
          AddPoints(userId, 200, now, getDay);
        }
        var modifiedCount := UpdateProgress(PowerCondition, userId, progress, isCompleted);
        if modifiedCount == 0 {
          AddProgress(PowerCondition, userId, progress, isCompleted);
        }
      }
    }
  }
}
