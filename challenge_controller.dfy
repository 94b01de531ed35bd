/** The challenge handlers: the per-timezone reset of progress entries, and
    the listing of the challenges. */
module ChallengeController {
  import opened Base
  import opened Documents
  import Reference

  /** The `$[elem]` rewrite on one entry: an entry whose timezone is `tz`
      goes back to progress 0, not completed. */
  function ResetEntry(e: UserProgress, tz: string): (r: UserProgress)
    ensures r.user == e.user && r.timezone == e.timezone
    ensures e.timezone == Some(tz) ==> r.progress == 0 && !r.isCompleted
    ensures e.timezone != Some(tz) ==> r == e
  {
    if e.timezone == Some(tz) then e.(progress := 0, isCompleted := false) else e
  }

  function ResetEntries(entries: seq<UserProgress>, tz: string): (r: seq<UserProgress>)
    ensures |r| == |entries|
    ensures forall k :: 0 <= k < |entries| ==> r[k] == ResetEntry(entries[k], tz)
  {
    if entries == [] then [] else [ResetEntry(entries[0], tz)] + ResetEntries(entries[1..], tz)
  }

  /** `updateMany({}, ...)`: every challenge, daily or not. */
  function ResetChallenges(cs: seq<Challenge>, tz: string): (r: seq<Challenge>)
    ensures |r| == |cs|
    ensures forall k :: 0 <= k < |cs| ==> r[k] == cs[k].(usersComplete := ResetEntries(cs[k].usersComplete, tz))
  {
    if cs == [] then []
    else [cs[0].(usersComplete := ResetEntries(cs[0].usersComplete, tz))] + ResetChallenges(cs[1..], tz)
  }

  /** Entries of other timezones, and every field but progress and completion,
      keep their values; entries of `tz` are cleared; length and order stay. */
  lemma ResetChallengesEffect(cs: seq<Challenge>, tz: string, k: int, j: int)
    requires 0 <= k < |cs| && 0 <= j < |cs[k].usersComplete|
    ensures var r := ResetChallenges(cs, tz);
      && r[k].(usersComplete := cs[k].usersComplete) == cs[k]
      && |r[k].usersComplete| == |cs[k].usersComplete|
      && r[k].usersComplete[j].user == cs[k].usersComplete[j].user
      && (cs[k].usersComplete[j].timezone == Some(tz) ==>
            r[k].usersComplete[j].progress == 0 && !r[k].usersComplete[j].isCompleted)
      && (cs[k].usersComplete[j].timezone != Some(tz) ==> r[k].usersComplete[j] == cs[k].usersComplete[j])
  {
  }

  /** A second reset with the same timezone changes nothing. */
  lemma ResetChallengesIdempotent(cs: seq<Challenge>, tz: string)
    ensures ResetChallenges(ResetChallenges(cs, tz), tz) == ResetChallenges(cs, tz)
  {
    var r := ResetChallenges(cs, tz);
    var rr := ResetChallenges(r, tz);
    forall k | 0 <= k < |cs|
      ensures rr[k] == r[k]
    {
      assert ResetEntries(r[k].usersComplete, tz) == r[k].usersComplete;
    }
  }

  lemma {:induction false} ResetEntriesCounts(entries: seq<UserProgress>, tz: string, u: string)
    ensures EntriesOf(ResetEntries(entries, tz), u) == EntriesOf(entries, u)
  {
    if entries != [] {
      assert ResetEntries(entries, tz)[1..] == ResetEntries(entries[1..], tz);
      ResetEntriesCounts(entries[1..], tz, u);
    }
  }

  /** The reset never adds or removes an entry of any user. */
  lemma ResetChallengesOneEntry(cs: seq<Challenge>, tz: string)
    requires OneEntryPerUser(cs)
    ensures OneEntryPerUser(ResetChallenges(cs, tz))
  {
    var r := ResetChallenges(cs, tz);
    forall k, u | 0 <= k < |r|
      ensures EntriesOf(r[k].usersComplete, u) <= 1
    {
      ResetEntriesCounts(cs[k].usersComplete, tz, u);
    }
  }

  /** After the reset of a user's timezone, `checkUserPrevComplete` is false
      for that user in every challenge whose first entry of the user carries it. */
  lemma ResetClearsPrevComplete(cs: seq<Challenge>, tz: string, condition: string, userId: string)
    requires var i := FindChallenge(cs, condition);
      i.Some? && var j := FindEntry(cs[i.value].usersComplete, userId);
      j.Some? && cs[i.value].usersComplete[j.value].timezone == Some(tz)
    ensures !Reference.CheckUserPrevComplete(ResetChallenges(cs, tz), condition, userId)
  {
    var r := ResetChallenges(cs, tz);
    var i := FindChallenge(cs, condition).value;
    var j := FindEntry(cs[i].usersComplete, userId).value;
    FindChallengeSameConditions(cs, r, condition);
    FindEntrySameUsers(cs[i].usersComplete, r[i].usersComplete, userId);
  }

  /** `resetDailyChallenges(tz)` on the stored challenges. Entries inserted by
      the challenge evaluators carry no timezone, so no reset ever reaches them. */
  method ResetDailyChallenges(store: Reference.Store, tz: string)
    modifies store
    ensures store.challenges == ResetChallenges(old(store.challenges), tz)
    ensures store.users == old(store.users) && store.sessions == old(store.sessions)
  {
    store.challenges := ResetChallenges(store.challenges, tz);
  }

  /** An entry without a timezone is never reset. */
  lemma NoTimezoneNeverReset(cs: seq<Challenge>, tz: string, k: int, j: int)
    requires 0 <= k < |cs| && 0 <= j < |cs[k].usersComplete| && cs[k].usersComplete[j].timezone.None?
    ensures ResetChallenges(cs, tz)[k].usersComplete[j] == cs[k].usersComplete[j]
  {
    ResetChallengesEffect(cs, tz, k, j);
  }

  /** `getDailyChallenges`: `find()` with no filter, so every challenge is
      listed whatever its `isDaily`. */
  function GetDailyChallenges(cs: seq<Challenge>): (r: Reply<seq<Challenge>>)
    ensures r.Ok? && forall c :: c in cs ==> c in r.value
    ensures r.Ok? ==> forall c :: c in r.value ==> c in cs
  {
    Ok(cs)
  }
}
