/** The flag-based daily puzzle of the compiled backend: a scheduled job
    clears every `isDaily` flag and sets it on one sampled puzzle, and the
    handler returns the flagged puzzle. */
module DailySelection {
  import opened Base
  import opened Documents
  import opened PuzzleController

  /** How many puzzles carry the flag. */
  function FlaggedCount(ps: seq<Puzzle>): nat
  {
    if ps == [] then 0 else (if ps[0].isDaily then 1 else 0) + FlaggedCount(ps[1..])
  }

  /** `findOne({ isDaily: true })`: the first flagged puzzle. */
  function FindDaily(ps: seq<Puzzle>): (r: Option<nat>)
    ensures r.Some? ==> r.value < |ps| && ps[r.value].isDaily
    ensures r.Some? ==> forall k :: 0 <= k < r.value ==> !ps[k].isDaily
    ensures r.None? ==> forall k :: 0 <= k < |ps| ==> !ps[k].isDaily
  {
    if ps == [] then None
    else if ps[0].isDaily then Some(0)
    else match FindDaily(ps[1..])
      case None => None
      case Some(k) => Some(k + 1)
  }

  /** The flagged puzzles are exactly the position `i`. */
  predicate OnlyFlagged(ps: seq<Puzzle>, i: nat)
  {
    i < |ps| && ps[i].isDaily && forall k :: 0 <= k < |ps| && k != i ==> !ps[k].isDaily
  }

  lemma {:induction false} FlaggedCountNone(ps: seq<Puzzle>)
    requires forall k :: 0 <= k < |ps| ==> !ps[k].isDaily
    ensures FlaggedCount(ps) == 0
  {
    if ps != [] {
      FlaggedCountNone(ps[1..]);
    }
  }

  lemma {:induction false} FlaggedCountOne(ps: seq<Puzzle>, i: nat)
    requires OnlyFlagged(ps, i)
    ensures FlaggedCount(ps) == 1
  {
    if i == 0 {
      FlaggedCountNone(ps[1..]);
    } else {
      assert OnlyFlagged(ps[1..], i - 1);
      FlaggedCountOne(ps[1..], i - 1);
    }
  }

  /** `getDailyPuzzle`: the flagged puzzle, or failure when there is none. */
  function GetFlaggedDailyPuzzle(ps: seq<Puzzle>): (r: Reply<Puzzle>)
    ensures r.Fail? <==> forall k :: 0 <= k < |ps| ==> !ps[k].isDaily
    ensures r.Ok? ==> r.value in ps && r.value.isDaily
  {
    match FindDaily(ps)
    case None => Fail
    case Some(i) => Ok(ps[i])
  }

  /** After the job the flag sits on the sampled puzzle alone, the handler
      returns it, and the collection holds exactly one flagged puzzle. */
  lemma SelectedIsServed(ps: seq<Puzzle>, i: nat)
    requires OnlyFlagged(ps, i)
    ensures GetFlaggedDailyPuzzle(ps) == Ok(ps[i])
    ensures FlaggedCount(ps) == 1
  {
    FlaggedCountOne(ps, i);
  }

  /** `updateMany({}, { $set: { isDaily: false } })`. */
  function ClearDaily(ps: seq<Puzzle>): (r: seq<Puzzle>)
    ensures |r| == |ps|
    ensures forall k :: 0 <= k < |ps| ==> !r[k].isDaily && r[k].(isDaily := ps[k].isDaily) == ps[k]
  {
    if ps == [] then [] else [ps[0].(isDaily := false)] + ClearDaily(ps[1..])
  }

  /** `chooseDailyPuzzle`. `pick` stands for the `$sample` of one document:
      absent exactly when the collection is empty. */
  method ChooseDailyPuzzle(store: PuzzleStore, pick: Option<nat>)
    requires pick.None? <==> |store.puzzles| == 0
    requires pick.Some? ==> pick.value < |store.puzzles|
    modifies store
    ensures |store.puzzles| == |old(store.puzzles)|
    ensures forall k :: 0 <= k < |store.puzzles| ==> store.puzzles[k].(isDaily := old(store.puzzles)[k].isDaily) == old(store.puzzles)[k]
    ensures pick.None? ==> FlaggedCount(store.puzzles) == 0
    ensures pick.Some? ==> OnlyFlagged(store.puzzles, pick.value)
  {
    store.puzzles := ClearDaily(store.puzzles);
    if pick.None? {
      FlaggedCountNone(store.puzzles);
      return;
    }
    // updateOne({ _id: puzzleId }, { $set: { isDaily: true } })
    store.puzzles := store.puzzles[pick.value := store.puzzles[pick.value].(isDaily := true)];
  }
}
