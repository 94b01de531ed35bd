/** A daily-challenge card: the signed-in user's progress entry, the status
    label, the progress counter and the rule that disables the Go button. */
module ChallengeCard {
  import opened Base
  import opened Documents
  import Reference

  /** `item.usersComplete.filter(e => e.user === userId)[0]`; a missing
      `userId` matches no entry. */
  function PendingEntry(c: Challenge, userId: Option<string>): (r: Option<UserProgress>)
    ensures r.Some? ==> userId.Some? && r.value in c.usersComplete && r.value.user == userId.value
    ensures r.Some? ==> exists j :: (0 <= j < |c.usersComplete| && c.usersComplete[j] == r.value
      && forall k :: 0 <= k < j ==> c.usersComplete[k].user != userId.value)
    ensures r.None? <==> userId.None? || forall k :: 0 <= k < |c.usersComplete| ==> c.usersComplete[k].user != userId.value
  {
    if userId.None? then None
    else match FindEntry(c.usersComplete, userId.value)
      case None => None
      case Some(j) => Some(c.usersComplete[j])
  }

  /** `progress === 0`, where `progress` is 0 without an entry and
      `entry.progress / item.final` with one: a quotient is zero exactly when
      its dividend is zero and its divisor is not (`0 / 0` is `NaN`). */
  predicate ProgressIsZero(c: Challenge, userId: Option<string>)
  {
    var e := PendingEntry(c, userId);
    e.None? || (e.value.progress == 0 && c.final != 0)
  }

  datatype Status = NotStarted | Completed | InProgress

  /** The status label. */
  function StatusOf(c: Challenge, userId: Option<string>): (r: Status)
    ensures r == NotStarted <==> ProgressIsZero(c, userId)
    ensures r == Completed <==> !ProgressIsZero(c, userId) && PendingEntry(c, userId).value.isCompleted
    ensures r == InProgress <==> !ProgressIsZero(c, userId) && !PendingEntry(c, userId).value.isCompleted
  {
    if ProgressIsZero(c, userId) then NotStarted
    else if PendingEntry(c, userId).value.isCompleted then Completed
    else InProgress
  }

  /** `disabled={user.isCompleted}`: `undefined` without an entry. */
  predicate GoDisabled(c: Challenge, userId: Option<string>)
  {
    var e := PendingEntry(c, userId);
    e.Some? && e.value.isCompleted
  }

  /** The counter `{user.progress ? user.progress : 0}/{item.final}`. */
  function Counter(c: Challenge, userId: Option<string>): (r: (int, int))
    ensures r.1 == c.final
    ensures PendingEntry(c, userId).None? ==> r.0 == 0
    ensures PendingEntry(c, userId).Some? ==> r.0 == PendingEntry(c, userId).value.progress
  {
    var e := PendingEntry(c, userId);
    (if e.Some? && e.value.progress != 0 then e.value.progress else 0, c.final)
  }

  /** A user without an entry sees "Not started", `0/final` and an enabled
      button. */
  lemma NoEntryView(c: Challenge, userId: Option<string>)
    requires PendingEntry(c, userId).None?
    ensures StatusOf(c, userId) == NotStarted && Counter(c, userId).0 == 0 && !GoDisabled(c, userId)
  {
  }

  /** "Not started" takes precedence: an entry marked completed with
      progress 0 shows "Not started" while the button is disabled. */
  lemma CompletedAtZeroShowsNotStarted(c: Challenge, u: string)
    requires c.usersComplete == [UserProgress(u, 0, true, None)] && c.final == 1
    ensures StatusOf(c, Some(u)) == NotStarted && GoDisabled(c, Some(u))
  {
  }

  /** The button is disabled exactly when the challenge evaluators would find
      the user already done with the challenge of that condition, as long as
      the card is the first challenge with its condition. */
  lemma GoDisabledAgreesWithServer(cs: seq<Challenge>, i: nat, u: string)
    requires i < |cs| && FindChallenge(cs, cs[i].condition) == Some(i)
    ensures GoDisabled(cs[i], Some(u)) <==> Reference.CheckUserPrevComplete(cs, cs[i].condition, u)
  {
  }
}
