/** The stored documents besides the user: challenges with their per-user
    progress entries, training sessions, and puzzles with their comments. */
module Documents {
  import opened Base

  /** An entry of `usersComplete`. The schema has no timezone; entries may
      carry one, which the per-timezone reset matches on. */
  datatype UserProgress = UserProgress(user: string, progress: int, isCompleted: bool, timezone: Option<string>)

  datatype Challenge = Challenge(
    title: string,
    task: string,
    reward: int,
    final: int,
    isDaily: bool,
    condition: string,
    usersComplete: seq<UserProgress>)

  datatype TrainingSession = TrainingSession(
    user: string,
    pointsEarned: int,
    puzzlesAttempted: int,
    puzzlesSolved: int,
    timeLimit: string,
    timeTaken: string)

  datatype Creator = Creator(id: string, name: string, profileImage: string)

  datatype Comment = Comment(creator: Creator, content: string)

  /** A puzzle document; `id` stands for its `_id`. */
  datatype Puzzle = Puzzle(
    id: string,
    question: string,
    answer: string,
    category: Category,
    difficulty: Difficulty,
    creator: Creator,
    likes: seq<string>,
    dislikes: seq<string>,
    comments: seq<Comment>,
    attempts: seq<string>,
    successes: seq<string>,
    isDaily: bool)

  /** `findOne({ condition })`: the position of the first challenge with that
      condition. */
  function FindChallenge(cs: seq<Challenge>, condition: string): (r: Option<nat>)
    ensures r.Some? ==> r.value < |cs| && cs[r.value].condition == condition
    ensures r.Some? ==> forall k :: 0 <= k < r.value ==> cs[k].condition != condition
    ensures r.None? ==> forall k :: 0 <= k < |cs| ==> cs[k].condition != condition
  {
    if cs == [] then None
    else if cs[0].condition == condition then Some(0)
    else match FindChallenge(cs[1..], condition)
      case None => None
      case Some(k) => Some(k + 1)
  }

  /** The position of the first progress entry of `userId`. */
  function FindEntry(entries: seq<UserProgress>, userId: string): (r: Option<nat>)
    ensures r.Some? ==> r.value < |entries| && entries[r.value].user == userId
    ensures r.Some? ==> forall k :: 0 <= k < r.value ==> entries[k].user != userId
    ensures r.None? ==> forall k :: 0 <= k < |entries| ==> entries[k].user != userId
  {
    if entries == [] then None
    else if entries[0].user == userId then Some(0)
    else match FindEntry(entries[1..], userId)
      case None => None
      case Some(k) => Some(k + 1)
  }

  /** Whether some entry belongs to `userId`: the filter `"usersComplete.user": userId`. */
  predicate HasEntry(c: Challenge, userId: string)
  {
    exists k :: 0 <= k < |c.usersComplete| && c.usersComplete[k].user == userId
  }

  /** How many entries of the list belong to `userId`. */
  function EntriesOf(entries: seq<UserProgress>, userId: string): nat
  {
    if entries == [] then 0
    else (if entries[0].user == userId then 1 else 0) + EntriesOf(entries[1..], userId)
  }

  /** No user has two entries in any challenge. */
  ghost predicate OneEntryPerUser(cs: seq<Challenge>)
  {
    forall k, u :: 0 <= k < |cs| ==> EntriesOf(cs[k].usersComplete, u) <= 1
  }

  /** The unique index on `condition`. */
  predicate UniqueConditions(cs: seq<Challenge>)
  {
    forall i, j :: 0 <= i < j < |cs| ==> cs[i].condition != cs[j].condition
  }

  lemma {:induction false} EntriesOfZero(entries: seq<UserProgress>, userId: string)
    ensures EntriesOf(entries, userId) == 0 <==> FindEntry(entries, userId).None?
  {
    if entries != [] {
      EntriesOfZero(entries[1..], userId);
    }
  }

  lemma {:induction false} EntriesOfAppend(entries: seq<UserProgress>, e: UserProgress, userId: string)
    ensures EntriesOf(entries + [e], userId) == EntriesOf(entries, userId) + (if e.user == userId then 1 else 0)
  {
    if entries == [] {
      assert [e][1..] == [];
    } else {
      assert (entries + [e])[1..] == entries[1..] + [e];
      EntriesOfAppend(entries[1..], e, userId);
    }
  }

  /** Replacing an entry by one of the same user changes no count. */
  lemma {:induction false} EntriesOfUpdate(entries: seq<UserProgress>, i: nat, e: UserProgress, userId: string)
    requires i < |entries| && e.user == entries[i].user
    ensures EntriesOf(entries[i := e], userId) == EntriesOf(entries, userId)
  {
    if i > 0 {
      assert entries[i := e][1..] == entries[1..][i - 1 := e];
      EntriesOfUpdate(entries[1..], i - 1, e, userId);
    }
  }

  /** The lookup depends only on the conditions. */
  lemma {:induction false} FindChallengeSameConditions(a: seq<Challenge>, b: seq<Challenge>, condition: string)
    requires |a| == |b| && forall k :: 0 <= k < |a| ==> a[k].condition == b[k].condition
    ensures FindChallenge(a, condition) == FindChallenge(b, condition)
  {
    if a != [] {
      FindChallengeSameConditions(a[1..], b[1..], condition);
    }
  }

  /** The lookup depends only on the users of the entries. */
  lemma {:induction false} FindEntrySameUsers(a: seq<UserProgress>, b: seq<UserProgress>, userId: string)
    requires |a| == |b| && forall k :: 0 <= k < |a| ==> a[k].user == b[k].user
    ensures FindEntry(a, userId) == FindEntry(b, userId)
  {
    if a != [] {
      FindEntrySameUsers(a[1..], b[1..], userId);
    }
  }
}
