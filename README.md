# BrainQuest core, modelled in Dafny

BrainQuest is a puzzle-training app with an Express/Mongo backend and a
React Native client. This project models the rules of both halves that can
be stated precisely and proves properties about them:

- **User documents:** the weekly bar-chart buckets and the "today" stats, in
  both user revisions.
  - The current one, `backend/dist/models/user.model.js`, has a 14-bar puzzles
    week, 7-bar points and time weeks, `resetDay` and an end-of-week timestamp.
  - The earlier one, `backend/src/models/user.model.ts`, has 7-bar weeks and a
    day count to Sunday.
- **Progress evaluators** (`backend/src/utils/reference.ts`):
  - `addPoints`;
  - the seven badge rules;
  - `checkUserPrevComplete`;
  - the two daily-challenge evaluators, which update or insert into a
    challenge's `usersComplete`.
- **Controllers:**
  - the deterministic and the flag-based daily puzzle;
  - the query filters of `getPuzzles` and `getScrollPuzzles`;
  - the page clamp of `getUserPuzzles`;
  - like, dislike and comment posting;
  - the per-timezone challenge reset;
  - the user table: sign-up, flag toggles, goal setters, leaderboard order.
- **Client state machines:**
  - the challenge countdown and its h:m:s split;
  - the training session (start validation, timer tick, `mm:ss` times, reset);
  - per-puzzle scoring;
  - optimistic like/dislike on a puzzle card;
  - the challenge card's status;
  - infinite scroll on the discover page;
  - page buttons on "my puzzles";
  - the settings updater `changeUserSettingState`;
  - the focus toggle of the stats page's category pie.

Each Mongo update is one atomic transition. The collections are modelled as
follows:
- Users are a `map` keyed by `userId`, the schema's unique index.
- Puzzles, challenges and training sessions are `seq`s in storage order, so
  `findOne` and `updateOne` act on the first match.

Code that changes state step by step is modelled in that form:
- React state and the stored documents are `class` fields, changed by
  methods with `modifies` clauses.
- The week templates are `array`s copied before being written.
- `resetDay`'s shared template is a pair of objects.

Pure code is modelled as functions and lemmas.

The following are parameters, not computed, because the model does not
compute them:
- clocks: `Date.now`, the local weekday (`getDay`), the hour, the start of the
  local day;
- the `$sample` pick;
- the answers of the server and of the answer checker.

## Model

| member | source | states |
|---|---|---|
| UserModel.CategoryCounts.With | backend/dist/models/user.model.js:7-10 | replacing one category's tally changes that category only |
| UserModel.DefaultDataLayout | backend/dist/models/user.model.js:48-147 | the puzzles template has 14 zero bars; bar 2k is labelled with the k-th weekday (Monday first) and bar 2k+1 carries it as its `day` |
| UserModel.PuzzlesIndex | backend/dist/models/user.model.js:15-16 | the puzzles-week index is even, lies in 0..12, and points at the bar labelled with today's short weekday, the next bar carrying that weekday as `day` |
| UserModel.PuzzlesIndexUnique | backend/dist/models/user.model.js:15-16 | a puzzles-template bar is labelled with today's weekday exactly when it is at the index, and carries it as `day` exactly when it is the bar after |
| UserModel.WeekIndex | backend/dist/models/user.model.js:24-25 | the points/time index lies in 0..6, its bar is labelled with today's weekday and no other bar is |
| UserModel.CreateNewWeekPuzzles | backend/dist/models/user.model.js:13-21 | 14 bars: `correct` at today's labelled bar, `incorrect` at the next, every other value 0, every other field as in the template, and the template unchanged |
| UserModel.CreateNewWeekPoints | backend/dist/models/user.model.js:22-29 | 7 bars: `points` on the bar labelled today, 0 elsewhere, other fields as in the template, and the template unchanged |
| UserModel.CreateNewWeekTimeSpent | backend/dist/models/user.model.js:30-37 | 7 bars: `timeSpent` on the bar labelled today, 0 elsewhere, other fields as in the template, and the template unchanged |
| UserModel.CalcDaysTillSun | backend/dist/models/user.model.js:38-47 | on Sunday the end is 23:59:59.999 of the same day; otherwise it is now plus `(7 - getDay) % 7` whole days, between one and six days ahead |
| UserModel.DefaultBucketWindow | backend/dist/models/user.model.js:38-47 | a new bucket's window starts now and ends no earlier than now and at most six days later |
| UserModel.Record | backend/dist/models/user.model.js:7-10 | one outcome adds exactly 1 to its category's `correct` or `incorrect` and changes no other category |
| UserModel.RecordAllCounts | backend/dist/models/user.model.js:7-10 | after the loop each category's counters are the start values plus the number of that category's correct (incorrect) outcomes |
| UserModel.ResetDayFresh | backend/dist/models/user.model.js:2-12 | the intended `resetDay`: the given puzzles, points and time spent, and per-category counts equal to the outcome counts |
| UserModel.CategoriesObject.constructor | backend/dist/models/user.model.js:213-250 | the shared `categories` object holds the given counts |
| UserModel.TodayStatsObject.constructor | backend/dist/models/user.model.js:213-250 | the template object holds the given fields and refers to the given `categories` object |
| UserModel.ResetDay | backend/dist/models/user.model.js:2-12 | as written: a fresh stats object that shares the template's `categories`, whose counts become the template's old counts plus the outcomes |
| UserModel.ResetDayAliasingWitness | backend/dist/models/user.model.js:3 | two resets of one correct Logic outcome each yield Logic counts of 2 in both results and in the template |
| UserModel.NewUser | backend/dist/models/user.model.js:348-413 | schema defaults: goals 50/500, zero counters, the level `{1, "Puzzle Novice", 0, 0, "egg", "#A0AEC0"}`, streak 0, no badges, `lastLogged` a day ago, zero `todayStats` (time spent included), one bucket per week starting now whose data is the 14-bar or 7-bar template with every bar 0, seven zero category slices with only Logic focused |
| LegacyUserModel.CalcDaysTillSun | backend/src/models/user.model.ts:3-8 | the day count lies in 0..6, is 0 exactly on Sunday, and lands on a Sunday |
| LegacyUserModel.DefaultData | backend/src/models/user.model.ts:59-96 | seven zero bars labelled Mon..Sun in order |
| LegacyUserModel.DefaultData2 | backend/src/models/user.model.ts:98-148 | seven zero categories Logic..Trivia in order with text "0%" |
| LegacyUserModel.DefaultData2OneFocused | backend/src/models/user.model.ts:98-148 | exactly one category is focused, the first, which is Logic |
| LegacyUserModel.DefaultWeekly | backend/src/models/user.model.ts:190-209 | a default bucket has `to = from + days * 86400000` with `from <= to <= from + 6 days` and the zero template as data |
| LegacyUserModel.NewLegacyUser | backend/src/models/user.model.ts:175-214 | scalar defaults: goals 50/500, zero counters, level 1, streak 0, no badges; one bucket per week with `from <= to`, and the default categories |
| Documents.FindChallenge | backend/src/utils/reference.ts:31-37 | the first challenge with the condition, or none when no challenge has it |
| Documents.FindEntry | backend/src/utils/reference.ts:39 | the first entry of the user, or none when the user has no entry |
| Documents.EntriesOfZero | backend/src/utils/reference.ts:39-40 | a user has no entries exactly when the lookup finds none |
| Documents.EntriesOfAppend | backend/src/utils/reference.ts:159 | appending an entry adds one to its user's count and nothing to the others' |
| Documents.EntriesOfUpdate | backend/src/utils/reference.ts:144-145 | rewriting an entry in place with the same user keeps every user's count |
| Documents.FindChallengeSameConditions | backend/src/controllers/challenge.controller.ts:6-15 | lists with the same conditions in the same places give the same lookup |
| Documents.FindEntrySameUsers | backend/src/controllers/challenge.controller.ts:10-14 | entry lists with the same users in the same places give the same lookup |
| Base.ShortWeekday | backend/src/utils/reference.ts:8 | the short weekday name has three letters |
| Base.DaysUntilSunday | backend/dist/models/user.model.js:41 | `(7 - day) % 7` lies in 0..6, is 0 exactly on Sunday, and lands on a Sunday |
| Base.JsRem | mobile/components/puzzling/train.tsx:183 | JavaScript's `%` for a positive divisor: the Euclidean remainder for a non-negative dividend, a value in (-b, 0] for a negative one |
| Base.RemoveAll | backend/src/controllers/puzzle.controller.ts:346-353 | `$pull`/`filter`: the value is gone, every other value keeps its membership, and the list does not grow |
| Base.AddToSet | backend/src/utils/reference.ts:55-60 | `$addToSet`: the value is present, nothing is lost, nothing else is added, and a present value leaves the list as it was |
| Reference.BumpDay | backend/src/utils/reference.ts:14-21 | each bar of the bucket gains `n` exactly when it is labelled with today's weekday |
| Reference.BumpWeeks | backend/src/utils/reference.ts:14-20 | exactly the buckets whose window contains now have their day bars bumped |
| Reference.AddPointsUsers | backend/src/utils/reference.ts:9-11 | only the user with that id is changed and the table keeps its keys |
| Reference.BumpDaySum | backend/src/utils/reference.ts:14-21 | a bucket's total grows by `n` times the number of bars labelled today |
| Reference.WellLabelledOneBar | backend/src/utils/reference.ts:21 | a week labelled Mon..Sun has exactly one bar for any weekday |
| Reference.AddPointsEffect | backend/src/utils/reference.ts:5-25 | `points` and `todayStats.points` grow by `n`, each current bucket's total by `n` per bar labelled today, buckets outside the window are unchanged, and nothing else changes |
| Reference.AddPointsCurrentWeek | backend/src/utils/reference.ts:14-21 | a current week built from the seven-label template gains exactly `n` |
| Reference.LogicMasterFilterTooWide | backend/src/utils/reference.ts:62-67 | the filter as written admits every user the intended rule admits, and also a user whose Logic slice is below 20 while another slice has 20 |
| Reference.GrantBadge | backend/src/utils/reference.ts:55-119 | the rules as written, `logic_master`'s filter included: only `badgesEarned` changes; the badge is held afterwards exactly when it was held or the rule's threshold is met; no badge is removed and no other one added |
| Reference.LogicMasterGrantedAsWritten | backend/src/utils/reference.ts:61-70 | as written: a user without the badge gets it exactly when some slice is labelled Logic and some slice, possibly another, has value 20 or more |
| Reference.GrantBadgeIntended | backend/src/utils/reference.ts:55-119 | the rules with `logic_master` corrected to an `$elemMatch`: only `badgesEarned` changes, and the badge is held afterwards exactly when it was held or the corrected rule holds |
| Reference.GrantBadgeIntendedAgrees | backend/src/utils/reference.ts:55-119 | the corrected rules equal the handlers' for every badge but `logic_master`, and grant a badge only where the handlers grant it |
| Reference.LogicMasterGrantWitness | backend/src/utils/reference.ts:61-70 | a user exists whom the handler gives `logic_master` and the corrected rule does not |
| Reference.LogicMasterGrantedIff | backend/src/utils/reference.ts:61-67 | corrected rule (`GrantBadgeIntended`): a user without the badge gets it exactly when the Logic slice itself has value 20 or more |
| Reference.GrantBadgeIdempotent | backend/src/utils/reference.ts:55-119 | applying a badge rule twice is applying it once |
| Reference.GrantBadgeNoDuplicates | backend/src/utils/reference.ts:55-119 | a badge list without repeats stays without repeats |
| Reference.GrantBadgeUsers | backend/src/utils/reference.ts:56-58 | the rule applies to the user with that id only |
| Reference.CheckUserPrevComplete | backend/src/utils/reference.ts:27-42 | true only when the challenge exists and the user has an entry; false without the challenge |
| Reference.PrevCompleteIff | backend/src/utils/reference.ts:27-42 | with unique conditions and one entry per user: true exactly when the user's entry in that challenge is completed |
| Reference.FirstMatching | backend/src/utils/reference.ts:142-157 | the first challenge with the condition whose entries do (or do not) include the user |
| Reference.SetProgress | backend/src/utils/reference.ts:141-147 | the positional update keeps lengths and conditions, modifies at most one document, and changes nothing when it modifies none |
| Reference.InsertProgress | backend/src/utils/reference.ts:154-160 | the guarded insert keeps lengths and conditions |
| Reference.RecordProgress | backend/src/utils/reference.ts:141-161 | the update-or-insert keeps lengths and conditions |
| Reference.RecordProgressOneEntry | backend/src/utils/reference.ts:141-161 | neither step gives a user a second entry in any challenge |
| Reference.FirstMatchingUnique | backend/src/utils/reference.ts:142-157 | with unique conditions, the one challenge with the condition is found by exactly one of the update and the insert |
| Reference.RecordProgressSetsEntry | backend/src/utils/reference.ts:141-161 | with unique conditions, only the challenge with the condition changes; the user's first entry there holds the given progress and completion, and `checkUserPrevComplete` then returns that completion |
| Reference.ThinkOutsideTheBoxEffect | backend/src/utils/reference.ts:123-163 | no change when previously completed or when the lateral count is 0; only the evaluated user changes |
| Reference.ThinkOutsideTheBoxOutcome | backend/src/utils/reference.ts:133-161 | completed exactly when the lateral count is at least 3, progress 3 if so and the count otherwise, and 200 points paid exactly when completed |
| Reference.ThinkOutsideTheBoxBonusOnce | backend/src/utils/reference.ts:124-128 | once completed, a second evaluation changes nothing, so the bonus is paid once |
| Reference.ThinkOutsideTheBoxOneEntry | backend/src/utils/reference.ts:141-161 | the evaluator keeps at most one entry per user in every challenge |
| Reference.BestSession | backend/src/utils/reference.ts:167-171 | the largest `pointsEarned` among the user's sessions, none for a user without sessions |
| Reference.PowerSessionEffect | backend/src/utils/reference.ts:164-170 | no change when previously completed or without sessions; only the evaluated user changes |
| Reference.PowerSessionOutcome | backend/src/utils/reference.ts:171-196 | completed exactly when the best session reaches 1000, progress 1000 if so and the best otherwise, and 200 points paid exactly when completed |
| Reference.PowerSessionBonusOnce | backend/src/utils/reference.ts:165-166 | once completed, a second evaluation changes nothing |
| Reference.PowerSessionOneEntry | backend/src/utils/reference.ts:176-196 | the evaluator keeps at most one entry per user in every challenge |
| Reference.Store.constructor | backend/src/utils/reference.ts:1-3 | the store holds the given users, challenges and sessions |
| Reference.Store.AddPoints | backend/src/utils/reference.ts:5-25 | the user table becomes the `$inc` of `addPoints`; challenges and sessions are unchanged |
| Reference.Store.AwardBadge | backend/src/utils/reference.ts:55-119 | the user table becomes the badge rule's result; nothing else changes |
| Reference.Store.UpdateProgress | backend/src/utils/reference.ts:141-147 | the challenges and `modifiedCount` are those of the positional update |
| Reference.Store.AddProgress | backend/src/utils/reference.ts:154-160 | the challenges are those of the guarded insert |
| Reference.Store.ThinkOutsideTheBox | backend/src/utils/reference.ts:123-163 | the run of lookups and updates has the effect of the evaluator |
| Reference.Store.PowerSession | backend/src/utils/reference.ts:164-198 | the run of lookups and updates has the effect of the evaluator |
| PuzzleController.DaysSinceEpoch | backend/src/controllers/puzzle.controller.ts:31-42 | the whole days since 2025-01-01: now lies in that day |
| PuzzleController.DailyIndex | backend/src/controllers/puzzle.controller.ts:31-42 | for a non-empty list and a time after the epoch, the index lies in the list |
| PuzzleController.GlobalDailyPuzzle | backend/src/controllers/puzzle.controller.ts:31-42 | after the epoch the daily puzzle is the one at the daily index, and always a member of the list |
| PuzzleController.DailyIndexSameDay | backend/src/controllers/puzzle.controller.ts:31-42 | two times within one UTC day give the same index |
| PuzzleController.DailyIndexNextDay | backend/src/controllers/puzzle.controller.ts:31-42 | one day later the index advances by one modulo the length |
| PuzzleController.GetDailyPuzzle | backend/src/controllers/puzzle.controller.ts:271-288 | failure exactly on an empty collection; otherwise the puzzle at the daily index |
| PuzzleController.Find | backend/src/controllers/puzzle.controller.ts:82-90 | the result holds exactly the stored puzzles the query matches |
| PuzzleController.Window | backend/src/controllers/puzzle.controller.ts:132-137 | `skip`/`limit`: a contiguous run starting at `skip`, at most `limit` long, full when enough remain, empty past the end |
| PuzzleController.GetPuzzlesQuery | backend/src/controllers/puzzle.controller.ts:80-90 | a query exists exactly when both filter lists are given |
| PuzzleController.GetPuzzlesQueryMeaning | backend/src/controllers/puzzle.controller.ts:82-90 | a puzzle matches exactly when it is the caller's and lies in every non-empty filter list |
| PuzzleController.GetPuzzles | backend/src/controllers/puzzle.controller.ts:71-102 | failure exactly without the lists; otherwise exactly the caller's puzzles in the non-empty filters |
| PuzzleController.ScrollQuery | backend/src/controllers/puzzle.controller.ts:242-252 | always excludes the caller; category and difficulty filters only for non-empty lists; the search filter only for a non-blank search |
| PuzzleController.ScrollQueryMeaning | backend/src/controllers/puzzle.controller.ts:242-252 | a puzzle matches exactly when it is not the caller's, lies in the non-empty lists, and contains a non-blank search |
| PuzzleController.ScrollPuzzles | backend/src/controllers/puzzle.controller.ts:240-258 | at most 4 by default; every puzzle served is stored, not the caller's, and passes the category, difficulty and search filters |
| PuzzleController.ScrollPuzzlesServed | backend/src/controllers/puzzle.controller.ts:241-258 | the feed is the slice of the matching stored puzzles, in stored order, from `skip` (default 0) of at most `limit` (default 4, 0 meaning all) |
| PuzzleController.ScrollPuzzlesFirstPage | backend/src/controllers/puzzle.controller.ts:241-258 | without skip and limit the feed is the first four matches in stored order, or all of them when fewer match |
| PuzzleController.PageCount | backend/src/controllers/puzzle.controller.ts:113-114 | the ceiling of total over limit: zero exactly for no puzzles, enough pages, no page to spare |
| PuzzleController.ServedPage | backend/src/controllers/puzzle.controller.ts:115-117 | a request for page `pages` is served as `max(pages - 1, 0)`; any other page unchanged |
| PuzzleController.UserPuzzles | backend/src/controllers/puzzle.controller.ts:104-151 | failure exactly when the served page is negative; otherwise the page count, the served page and at most `limit` puzzles |
| PuzzleController.UserPuzzlesInRange | backend/src/controllers/puzzle.controller.ts:113-137 | a page in range is served as asked with between 1 and `limit` puzzles, the slice starting at `limit * page` |
| PuzzleController.UserPuzzlesOnePastEnd | backend/src/controllers/puzzle.controller.ts:115-117 | a request one past the last page is served the last page |
| PuzzleController.LikePuzzle | backend/src/controllers/puzzle.controller.ts:346-353 | already liked: every copy of the user leaves `likes` only; otherwise the user is appended to `likes` and leaves `dislikes`; no other field changes |
| PuzzleController.DislikePuzzle | backend/src/controllers/puzzle.controller.ts:368-375 | the mirror image of like with the two lists swapped |
| PuzzleController.LikeThenUnlike | backend/src/controllers/puzzle.controller.ts:346-353 | liking and then unliking gives back the original `likes` |
| PuzzleController.FindPuzzle | backend/src/controllers/puzzle.controller.ts:346 | the first puzzle with the id, or none when no puzzle has it |
| PuzzleController.PuzzleStore.constructor | backend/src/controllers/puzzle.controller.ts:339-384 | the store holds the given puzzles |
| PuzzleController.PuzzleStore.Like | backend/src/controllers/puzzle.controller.ts:339-359 | the puzzle with the id becomes its liked version, nothing else changes, and the answer is success |
| PuzzleController.PuzzleStore.Dislike | backend/src/controllers/puzzle.controller.ts:361-381 | the puzzle with the id becomes its disliked version, nothing else changes, and the answer is success |
| PuzzleController.PuzzleStore.PostComment | backend/src/controllers/puzzle.controller.ts:296-311 | success exactly when all five fields are present; then exactly one comment is appended to the puzzle with the id; otherwise nothing changes |
| DailySelection.FindDaily | backend/dist/controllers/puzzle.controller.js:211 | the first flagged puzzle, or none when none is flagged |
| DailySelection.FlaggedCountNone | backend/dist/controllers/puzzle.controller.js:5 | with every flag cleared, no puzzle is flagged |
| DailySelection.FlaggedCountOne | backend/dist/controllers/puzzle.controller.js:13 | with one flag set, exactly one puzzle is flagged |
| DailySelection.GetFlaggedDailyPuzzle | backend/dist/controllers/puzzle.controller.js:209-218 | failure exactly when no puzzle is flagged; otherwise a flagged stored puzzle |
| DailySelection.SelectedIsServed | backend/dist/controllers/puzzle.controller.js:4-14 | after a selection, the handler serves the selected puzzle, the only one flagged |
| DailySelection.ClearDaily | backend/dist/controllers/puzzle.controller.js:5 | every flag cleared, every other field unchanged, the list the same length |
| DailySelection.ChooseDailyPuzzle | backend/dist/controllers/puzzle.controller.js:4-14 | no flag on an empty collection, otherwise only the picked puzzle flagged; no other field changes |
| ChallengeController.ResetEntry | backend/src/controllers/challenge.controller.ts:10-14 | an entry of timezone `tz` gets progress 0 and not completed; any other entry is unchanged |
| ChallengeController.ResetEntries | backend/src/controllers/challenge.controller.ts:10-14 | every entry of a list is reset in place, length and order kept |
| ChallengeController.ResetChallenges | backend/src/controllers/challenge.controller.ts:6-15 | every challenge, daily or not, has its entries reset; nothing else changes |
| ChallengeController.ResetChallengesEffect | backend/src/controllers/challenge.controller.ts:6-15 | an entry of timezone `tz` ends at progress 0, not completed; the others keep their values |
| ChallengeController.ResetChallengesIdempotent | backend/src/controllers/challenge.controller.ts:6-15 | a second reset with the same timezone changes nothing |
| ChallengeController.ResetEntriesCounts | backend/src/controllers/challenge.controller.ts:14 | the reset keeps every user's number of entries |
| ChallengeController.ResetChallengesOneEntry | backend/src/controllers/challenge.controller.ts:6-15 | the reset keeps at most one entry per user |
| ChallengeController.ResetClearsPrevComplete | backend/src/controllers/challenge.controller.ts:6-15 | after the reset, a user whose first entry has timezone `tz` is not previously complete |
| ChallengeController.ResetDailyChallenges | backend/src/controllers/challenge.controller.ts:4-19 | the stored challenges become the reset list; users and sessions are unchanged |
| ChallengeController.NoTimezoneNeverReset | backend/src/controllers/challenge.controller.ts:14 | an entry without a timezone is never reset |
| ChallengeController.GetDailyChallenges | backend/src/controllers/challenge.controller.ts:21-28 | succeeds with exactly the stored challenges, daily or not |
| UserController.AddUser | backend/src/controllers/user.controller.ts:12-22 | refused without a user id or for an existing one, with no change; rejected by the schema without a name; otherwise exactly one user with the defaults is added |
| UserController.AddUserKeepsKeyed | backend/src/controllers/user.controller.ts:14-21 | every user stays stored under its own id |
| UserController.AddUserTwice | backend/src/controllers/user.controller.ts:14-16 | a second sign-up with the same id is refused and changes nothing |
| UserController.ToggleNotifications | backend/src/controllers/user.controller.ts:35-37 | the user's notification flag is negated; no other field and no other user changes |
| UserController.ToggleLeaderboard | backend/src/controllers/user.controller.ts:54-56 | the user's leaderboard flag is negated; no other field and no other user changes |
| UserController.TogglesAreInvolutions | backend/src/controllers/user.controller.ts:35-37 | toggling either flag twice restores the table |
| UserController.UserTable.constructor | backend/src/controllers/user.controller.ts:5-131 | the table holds the given users |
| UserController.UserTable.AddUserToDB | backend/src/controllers/user.controller.ts:5-30 | the table becomes the sign-up's result; success exactly when a user was added |
| UserController.UserTable.EnableNotifications | backend/src/controllers/user.controller.ts:32-49 | the table becomes the notification toggle's result |
| UserController.UserTable.EnableLeaderboard | backend/src/controllers/user.controller.ts:51-68 | the table becomes the leaderboard toggle's result |
| UserController.UserTable.UpdatePuzzleGoal | backend/src/controllers/user.controller.ts:77 | only the user's `puzzleGoal` becomes `newValue` |
| UserController.UserTable.UpdatePointsGoal | backend/src/controllers/user.controller.ts:94 | only the user's `pointsGoal` becomes `newValue` |
| UserController.Insert | backend/src/controllers/user.controller.ts:123-125 | inserting into a ranked list gives a ranked permutation of the list plus the row |
| UserController.FetchUsers | backend/src/controllers/user.controller.ts:123-125 | the leaderboard is a ranked permutation of the users |
| UserController.FetchUsersOrder | backend/src/controllers/user.controller.ts:125 | points never increase down the list, and puzzles never increase among equal points |
| ChallengeCountdown.CalcMins | mobile/components/puzzling/challenge.tsx:18-20 | the minutes lie in 0..59 |
| ChallengeCountdown.CalcSeconds | mobile/components/puzzling/challenge.tsx:22-24 | the seconds lie in 0..59 |
| ChallengeCountdown.SplitRoundTrip | mobile/components/puzzling/challenge.tsx:18-24 | hours * 3600 + minutes * 60 + seconds gives back the time |
| ChallengeCountdown.SplitBelowOneHour | mobile/components/puzzling/challenge.tsx:120 | below an hour: no hours, and minutes and seconds are quotient and remainder by 60 |
| ChallengeCountdown.InitialTimer | mobile/components/puzzling/challenge.tsx:39-44 | the whole seconds to the next local midnight, in 0..86400 |
| ChallengeCountdown.WrittenTicksNeverRestart | mobile/components/puzzling/challenge.tsx:33-52 | as written: with the captured value 86400, k ticks only subtract k |
| ChallengeCountdown.Countdown.constructor | mobile/components/puzzling/challenge.tsx:33 | the timer starts at 86400 and nothing has been refetched |
| ChallengeCountdown.Countdown.Mount | mobile/components/puzzling/challenge.tsx:39-45 | the interval captures the timer as it was, then the timer is set to the seconds to midnight |
| ChallengeCountdown.Countdown.Tick | mobile/components/puzzling/challenge.tsx:45-52 | the tick tests the captured value: refetch and restart only when it is 0, otherwise subtract 1 |
| ChallengeCountdown.CountdownGoesNegative | mobile/components/puzzling/challenge.tsx:45-52 | one second before midnight, two ticks give 0 and then -1 without a refetch |
| ChallengeCountdown.NextTimer | mobile/components/puzzling/challenge.tsx:45-52 | the intended tick: restart at 86400 from 0, otherwise subtract 1 |
| ChallengeCountdown.NextTimerInRange | mobile/components/puzzling/challenge.tsx:45-52 | the intended tick keeps the timer in 0..86400 |
| ChallengeCountdown.NextTimersCountDown | mobile/components/puzzling/challenge.tsx:45-52 | up to the timer's value, k intended ticks subtract k |
| ChallengeCountdown.NextTimersRestart | mobile/components/puzzling/challenge.tsx:48-50 | one tick after reaching 0 the intended countdown restarts at 86400 |
| ChallengeCountdown.NextTimersAfter | mobile/components/puzzling/challenge.tsx:45-52 | j + k ticks are j ticks followed by k ticks |
| ChallengeCountdown.NextTimersInRange | mobile/components/puzzling/challenge.tsx:45-52 | any number of intended ticks keeps the timer in 0..86400 |
| ChallengeCountdown.WrittenDiffersOnlyAtZero | mobile/components/puzzling/challenge.tsx:45-52 | the written and the intended tick agree exactly when the timer is not 0 |
| JsText.TrimStart | mobile/components/puzzling/train.tsx:126 | drops the leading JavaScript white space (tab, vertical tab, form feed, space, no-break space, byte-order mark, the Unicode space separators and the line terminators) and only that |
| JsText.TrimEnd | mobile/components/puzzling/train.tsx:126 | drops the trailing JavaScript white space, the same set as for `TrimStart`, and only that |
| JsText.TrimEmptyIffBlank | mobile/components/puzzling/train.tsx:126-141 | the trimmed string is empty exactly when every character is JavaScript white space (U+3000 and the other space separators included) |
| JsText.DigitValue | mobile/components/puzzling/train.tsx:127 | a digit's value lies in 0..9 and names the digit back |
| JsText.NatStr | mobile/components/puzzling/train.tsx:182-183 | a decimal numeral: digits only, without a leading zero |
| JsText.IntStr | mobile/components/puzzling/train.tsx:182-183 | `String(i)`: digits, with a minus sign for a negative value |
| JsText.NatStrRoundTrip | mobile/components/puzzling/train.tsx:182-183 | parsing the numeral of n gives n |
| JsText.NatStrInjective | mobile/components/puzzling/train.tsx:182-183 | different numbers have different numerals |
| JsText.LeadingZeroIgnored | mobile/components/puzzling/train.tsx:182-183 | a leading zero does not change the value read |
| JsText.PadStart2 | mobile/components/puzzling/train.tsx:182-183 | `padStart(2, "0")` yields at least two characters |
| JsText.PadStart2Shape | mobile/components/puzzling/train.tsx:182-183 | short strings get zeros on the left, longer ones are kept |
| JsText.PadStart2Value | mobile/components/puzzling/train.tsx:182-183 | a padded numeral is all digits and reads as the same number |
| JsText.JsNumber | mobile/components/puzzling/train.tsx:127 | `Number` of a blank string is 0 |
| JsText.NumberOfNatStr | mobile/components/puzzling/train.tsx:127 | `Number` reads a non-negative numeral back as its value |
| JsText.NumberOfNegativeStr | mobile/components/puzzling/train.tsx:127 | `Number` reads a negative numeral back as its value |
| JsText.NumberOfIntStr | mobile/components/puzzling/train.tsx:127 | `Number(String(i)) == i` for every integer |
| JsText.IndexOf | mobile/components/puzzling/train.tsx:182-183 | the first position of a character, none when absent |
| JsText.MmSsShape | mobile/components/puzzling/train.tsx:182-183 | the minutes are padded to at least two digits, the seconds to exactly two, joined by a colon |
| JsText.MmSsRoundTrip | mobile/components/puzzling/train.tsx:182-183 | reading an `mm:ss` string back gives the seconds it was written from |
| Train.LimitNumber | mobile/components/puzzling/train.tsx:178-179 | a numeric limit is read as its own value |
| Train.RenderRoundTrip | mobile/components/puzzling/train.tsx:182-183 | a rendered non-negative time reads back as itself |
| Train.WholeLimit | mobile/components/puzzling/train.tsx:178 | the session limit is a number exactly when the per-question time is |
| Train.TimeUsed | mobile/components/puzzling/train.tsx:179 | the time used is a number exactly when both operands are, and adds up with the remaining time to the limit |
| Train.CalcTimeTaken | mobile/components/puzzling/train.tsx:176-177 | with the limit "None" the times are "None" and "None Specified" |
| Train.CalcTimeTakenMeaning | mobile/components/puzzling/train.tsx:178-183 | otherwise the limit reads back as per-question time times count and the time taken as that limit minus the remaining time, which is at most the limit |
| Train.StartOutcomeOf | mobile/components/puzzling/train.tsx:126-147 | a started session's puzzles are the fetched, non-empty list |
| Train.StartOutcomeMeaning | mobile/components/puzzling/train.tsx:126-147 | refused exactly for a non-blank per-question time that is 0 or not a number; no start exactly for no puzzles; a blank time gives the limit "None", otherwise per-question time times count |
| Train.StartedLimitSign | mobile/components/puzzling/train.tsx:141-147 | a started numeric limit is non-zero and has the per-question time's sign |
| Train.NegativePerQuestionAccepted | mobile/components/puzzling/train.tsx:126-140 | "-5" passes the check and starts a session with limit -5 |
| Train.TrainPage.constructor | mobile/components/puzzling/train.tsx:51-69 | the initial settings and zero stats, no session |
| Train.TrainPage.Start | mobile/components/puzzling/train.tsx:124-147 | a started session installs the limit and the puzzles, starts and unpauses; a refused one changes neither; loading ends either way |
| Train.TrainPage.Finish | mobile/components/puzzling/train.tsx:170-173 | the session ends and the start flag clears; nothing else changes |
| Train.TrainPage.Tick | mobile/components/puzzling/train.tsx:71-86 | a text limit or a pause changes nothing; limit 0 finishes the session; otherwise the limit drops by exactly 1 |
| Train.TrainPage.Reset | mobile/components/puzzling/train.tsx:151-168 | settings, stats, puzzles, index and end flag return to their initial values |
| Train.ResetTimes | mobile/components/puzzling/train.tsx:25-37 | the initial settings give "00:00" for both times |
| PuzzleScreen.AnswerPoints | mobile/components/puzzling/puzzle-screen.tsx:72-73 | `PointsReference[difficulty] * 15`: exactly 15, 30 and 45 for easy, medium and hard |
| PuzzleScreen.Score | mobile/components/puzzling/puzzle-screen.tsx:70-83 | one more attempt; one more solved and the difficulty's points only for a correct answer |
| PuzzleScreen.ScoreKeepsConsistent | mobile/components/puzzling/puzzle-screen.tsx:71-83 | solved never exceeds attempted |
| PuzzleScreen.ZeroStatsConsistent | mobile/components/puzzling/train.tsx:59-63 | the zero stats satisfy the invariant |
| PuzzleScreen.Screen.constructor | mobile/components/puzzling/puzzle-screen.tsx:51-57 | empty answer and input, not loading |
| PuzzleScreen.Screen.CheckAnswer | mobile/components/puzzling/puzzle-screen.tsx:59-96 | on success the stats are scored and the answer shown; a failed or thrown check leaves the stats unchanged; the session pauses either way |
| PuzzleScreen.Screen.Next | mobile/components/puzzling/puzzle-screen.tsx:98-109 | on the last puzzle: pause and finish with the index kept; otherwise clear the input, advance the index inside the list and unpause |
| PuzzleScreen.CheckKeepsConsistent | mobile/components/puzzling/puzzle-screen.tsx:59-96 | a check keeps solved at most attempted |
| PuzzleCard.ToggleLike | mobile/components/puzzling/puzzle-card.tsx:88-94 | the user's membership in `likes` flips; a new like leaves `dislikes`; an unlike keeps `dislikes`; other users are unaffected |
| PuzzleCard.ToggleDislike | mobile/components/puzzling/puzzle-card.tsx:113-125 | the mirror image with the lists swapped |
| PuzzleCard.ToggleMatchesServer | mobile/components/puzzling/puzzle-card.tsx:88-100 | the card's toggle and the server's update agree on every user's membership |
| PuzzleCard.VotesKeepAtMostOne | mobile/components/puzzling/puzzle-card.tsx:84-132 | a user in at most one list stays in at most one after any run of votes |
| PuzzleCard.VotesKeepOthers | mobile/components/puzzling/puzzle-card.tsx:84-132 | no run of one user's votes changes another user's memberships |
| PuzzleCard.Card.constructor | mobile/components/puzzling/puzzle-card.tsx:34-45 | the lists start as the puzzle's; empty input, no result shown |
| PuzzleCard.Card.Like | mobile/components/puzzling/puzzle-card.tsx:84-107 | signed out: nothing changes and nothing is sent; signed in: the flag sent is the prior membership and the lists toggle |
| PuzzleCard.Card.Dislike | mobile/components/puzzling/puzzle-card.tsx:109-132 | the mirror image for dislikes |
| PuzzleCard.Card.CheckAnswer | mobile/components/puzzling/puzzle-card.tsx:146-168 | the result is set only on success with `correct` defined; loading ends either way |
| PuzzleCard.Card.Close | mobile/components/puzzling/puzzle-card.tsx:170-174 | the modal closes and the input and result reset |
| ChallengeCard.PendingEntry | mobile/components/puzzling/challenge-card.tsx:22-23 | the first entry of the signed-in user; none exactly without a user or an entry |
| ChallengeCard.StatusOf | mobile/components/puzzling/challenge-card.tsx:42-54 | "Not started" exactly when progress is 0; otherwise "Completed" exactly when the entry is completed, else "In progress" |
| ChallengeCard.Counter | mobile/components/puzzling/challenge-card.tsx:81 | the entry's progress, or 0 without one, over `final` |
| ChallengeCard.NoEntryView | mobile/components/puzzling/challenge-card.tsx:22-25 | without an entry: "Not started", 0 and an enabled button |
| ChallengeCard.CompletedAtZeroShowsNotStarted | mobile/components/puzzling/challenge-card.tsx:42-85 | a completed entry with progress 0 shows "Not started" beside a disabled button |
| ChallengeCard.GoDisabledAgreesWithServer | mobile/components/puzzling/challenge-card.tsx:85-98 | the button is disabled exactly when `checkUserPrevComplete` would report the challenge done |
| Discover.RequestFor | mobile/components/puzzling/discover.tsx:151-152 | page p requests `skip = 4p`, `limit = 4` |
| Discover.DiscoverPage.constructor | mobile/components/puzzling/discover.tsx:36-52 | empty list, loading, nothing in flight, more pages assumed, page 0 |
| Discover.DiscoverPage.FinishLoading | mobile/components/puzzling/discover.tsx:75-89 | the first load ends and nothing else changes |
| Discover.DiscoverPage.BeginFetch | mobile/components/puzzling/discover.tsx:141-152 | nothing is requested exactly while a request is in flight or past the end without a refresh; otherwise page p is requested |
| Discover.DiscoverPage.CompleteFetch | mobile/components/puzzling/discover.tsx:153-180 | a refresh replaces the list, other answers append in order; `hasMore` exactly for a whole page; `page` becomes the requested page; the in-flight flag clears whatever the answer |
| Discover.DiscoverPage.LoadMore | mobile/components/puzzling/discover.tsx:184-188 | requests page + 1 exactly when not loading, more pages exist and nothing is in flight |
| Discover.DiscoverPage.Refresh | mobile/components/puzzling/discover.tsx:190-194 | page 0 and more pages assumed, then page 0 requested unless a request is in flight |
| Discover.WholePageKeepsAligned | mobile/components/puzzling/discover.tsx:151-164 | while whole pages arrive, the next request starts right after the last item shown |
| Discover.SecondRequestRefused | mobile/components/puzzling/discover.tsx:142 | a second request before the first answer is refused |
| MyPuzzles.MaxPageOf | mobile/components/user-stats/my-puzzles.tsx:38-41 | the page count is at least 1: 0 pages count as 1 |
| MyPuzzles.Pager.constructor | mobile/components/user-stats/my-puzzles.tsx:18-23 | page 0 of 1, no puzzles, loading |
| MyPuzzles.Pager.ApplyReply | mobile/components/user-stats/my-puzzles.tsx:29-45 | an answer replaces the puzzles and the page count; a failed one changes neither; loading ends |
| MyPuzzles.Pager.PaginateUp | mobile/components/user-stats/my-puzzles.tsx:50-54 | nothing on the last page; otherwise the next page is shown and requested with limit 5 |
| MyPuzzles.Pager.PaginateDown | mobile/components/user-stats/my-puzzles.tsx:56-60 | nothing on page 0; otherwise the previous page is shown and requested with limit 5 |
| MyPuzzles.MoveUp | mobile/components/user-stats/my-puzzles.tsx:51-53 | inside the range the up button stays inside it |
| MyPuzzles.MoveDown | mobile/components/user-stats/my-puzzles.tsx:57-59 | the down button never goes below 0 |
| MyPuzzles.MovesStayInRange | mobile/components/user-stats/my-puzzles.tsx:51-57 | with a fixed page count, any run of presses keeps the page inside it |
| MyPuzzles.PastLastPageKeepsGoing | mobile/components/user-stats/my-puzzles.tsx:51 | past the last page, every press of up goes one further |
| MyPuzzles.ShrunkCountWitness | mobile/components/user-stats/my-puzzles.tsx:38-54 | on page 1 of 2, an answer of one page and a press of up request page 2 |
| AppUser.Get | mobile/hooks/useAppUser.tsx:90 | a missing property reads as undefined |
| AppUser.ChangeUserSettingState | mobile/hooks/useAppUser.tsx:84-94 | null stays null; a boolean property is negated and the new value ignored; any other property is set; the rest is unchanged |
| AppUser.ToggleTwiceRestores | mobile/hooks/useAppUser.tsx:90-91 | two updates of a boolean property restore the state, whatever values are passed |
| AppUser.SetThenRestore | mobile/hooks/useAppUser.tsx:92 | setting a non-boolean property and setting back its old value restores the state |
| StatsPage.CategoryData | mobile/components/user-stats/stats.tsx:41 | the slices stored in the settings, none without settings |
| StatsPage.InitialSelection | mobile/components/user-stats/stats.tsx:25-27 | the first slice, none exactly when there are no slices |
| StatsPage.SyncSelection | mobile/components/user-stats/stats.tsx:29-37 | a selection is kept; without one, the first slice is selected |
| StatsPage.InitialSelectionIsStable | mobile/components/user-stats/stats.tsx:25-37 | the effect leaves the initial selection as it is |
| StatsPage.Refocus | mobile/components/user-stats/stats.tsx:41-43 | same slices in the same order, focused exactly when labelled with the chosen label, every other field unchanged |
| StatsPage.ToggleSelectedPiece | mobile/components/user-stats/stats.tsx:39-48 | the selected label changes nothing; another selects the slice and stores the refocused data through the settings updater |
| StatsPage.ToggleRefocuses | mobile/components/user-stats/stats.tsx:39-48 | after a selection the stored slices are refocused on the label, other settings are unchanged, and the slice is selected |
| StatsPage.ToggleIdempotent | mobile/components/user-stats/stats.tsx:40 | choosing a slice twice is choosing it once |
| StatsPage.ToggleWithoutSettings | mobile/components/user-stats/stats.tsx:39-48 | without settings the highlight moves and the settings stay null |

## Left out

- The answer check of `backend/src/controllers/train.controller.ts` calls an external language model. Its answer is the `CheckReply` parameter.
- `checkResetStreak`, `saveTrainingSession`, streak and level recomputation are not part of this model. They are not defined in the files modelled.
- The cron glue, routes, authentication and the server are not part of this model, and neither is network, database or file-system I/O. Each handler's database effect is one atomic step over the modelled collections.
- Concurrency is not modelled: the order of separate `updateOne` calls and of interleaved React updates. React setter callbacks are applied as direct updates of the previous state.
- Clocks, time zones and locales are not modelled.
  - `Date.now`, `getDay`, `setHours`, `toLocaleDateString` and the server's hour are parameters.
  - Daylight-saving days are not modelled: a local day is 86400000 ms.
- The `$sample` pick of `chooseDailyPuzzle` is a parameter, and so is the category pick of the discover page.
- Floating point is not modelled.
  - This covers the progress ratio on the challenge card, goal circles and the session card.
  - Integer times and counts are assumed throughout.
  - `StatusOf` treats the ratio as zero exactly when the progress is 0 and `final` is not.
- `JsNumber`: integers only. Decimals, exponents, hexadecimal and `Infinity` read as not-a-number.
- `PuzzleController.UserPuzzles`: requires `limit > 0`. A zero, negative or non-numeric `limit` (which gives `NaN` or `Infinity` pages) is not modelled.
- `PuzzleController.Find`: the search is an exact, case-sensitive substring test, not Mongo's regular-expression match with the `i` option.
- `UserController.FetchUsers`: Mongo's order among rows equal in points and puzzles is unspecified. The model uses a stable order.
- `PuzzleController.ScrollPuzzles`: the caller supplies the sort by creation order.
- The popular, category and comment fetches are not part of this model. They are plain reads.
- The countdown's display formatting (`padStart` on hours, minutes and seconds) is not part of this model.
- UI rendering and styling are not part of this model.
- `mobile/utils/types.ts` is not part of this model. The shapes of `Piece` and `Value` in `AppUser` are chosen to carry the properties the updater and the pie chart use.
- `userId` is a plain string. A `null` id matches no stored user, so the evaluators change nothing for it.
- `Train.TrainPage.Start`: the fetch's answer is the `response` parameter. The contract is stated through `StartOutcomeOf`, whose meaning is `StartOutcomeMeaning`.

## Findings

| source | as written | input that shows it | evidently intended | confidence | as-written member | corrected member |
|---|---|---|---|---|---|---|
| backend/dist/models/user.model.js:3-10 | `resetDay` spreads the template shallowly, so the new stats share `defaultData3.categories` and the loop increments the shared counters | two resets, each with one correct Logic outcome: both results and the template report 2 correct Logic puzzles | each reset starts from zero category counts | not executed | UserModel.ResetDayAliasingWitness | UserModel.ResetDayFresh |
| backend/src/utils/reference.ts:62-67 | the `logic_master` filter tests `label` and `value` on the array separately, without `$elemMatch` | a user whose Logic slice has value 0 and whose Math slice has value 20 gets the badge | earned only when the Logic slice itself has value 20 or more | not executed | Reference.LogicMasterGrantWitness | Reference.LogicMasterGrantedIff |
| mobile/components/puzzling/challenge.tsx:33-52 | the interval's zero test reads the `timer` captured when the effect ran (86400), so it never fires | one second before midnight: two ticks give 0 and then -1, with no refetch | refetch and restart at 86400 when the countdown reaches 0 | not executed | ChallengeCountdown.CountdownGoesNegative | ChallengeCountdown.NextTimer |
