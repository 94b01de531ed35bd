/** A puzzle card of the discover list: the optimistic like and dislike
    lists, the answer check in the card's modal, and closing the modal. */
module PuzzleCard {
  import opened Base
  import opened Documents
  import PuzzleController
  import PuzzleScreen

  /** The card's copies of `likes` and `dislikes`. */
  datatype Lists = Lists(likes: seq<string>, dislikes: seq<string>)

  /** The lists after `like` by `u`. */
  function ToggleLike(l: Lists, u: string): (r: Lists)
    ensures u in r.likes <==> u !in l.likes
    ensures u !in l.likes ==> u !in r.dislikes
    ensures u in l.likes ==> r.dislikes == l.dislikes
    ensures forall v :: v != u ==> (v in r.likes <==> v in l.likes) && (v in r.dislikes <==> v in l.dislikes)
  {
    if u in l.likes then Lists(RemoveAll(l.likes, u), l.dislikes)
    else Lists(l.likes + [u], RemoveAll(l.dislikes, u))
  }

  /** The lists after `dislike` by `u`. */
  function ToggleDislike(l: Lists, u: string): (r: Lists)
    ensures u in r.dislikes <==> u !in l.dislikes
    ensures u !in l.dislikes ==> u !in r.likes
    ensures u in l.dislikes ==> r.likes == l.likes
    ensures forall v :: v != u ==> (v in r.likes <==> v in l.likes) && (v in r.dislikes <==> v in l.dislikes)
  {
    if u in l.dislikes then Lists(l.likes, RemoveAll(l.dislikes, u))
    else Lists(RemoveAll(l.likes, u), l.dislikes + [u])
  }

  /** The card's optimistic lists match what the server makes of the stored
      puzzle when it receives the flag the card sends. */
  lemma ToggleMatchesServer(p: Puzzle, u: string)
    ensures var r := PuzzleController.LikePuzzle(p, u, u in p.likes);
      ToggleLike(Lists(p.likes, p.dislikes), u) == Lists(r.likes, r.dislikes)
    ensures var r := PuzzleController.DislikePuzzle(p, u, u in p.dislikes);
      ToggleDislike(Lists(p.likes, p.dislikes), u) == Lists(r.likes, r.dislikes)
  {
  }

  /** The user is in at most one of the two lists. */
  predicate AtMostOne(l: Lists, u: string)
  {
    !(u in l.likes && u in l.dislikes)
  }

  datatype Vote = LikeVote | DislikeVote

  /** The lists after a run of presses of the two buttons. */
  function ApplyVotes(l: Lists, u: string, votes: seq<Vote>): Lists
    decreases |votes|
  {
    if votes == [] then l
    else
      var next := if votes[0] == LikeVote then ToggleLike(l, u) else ToggleDislike(l, u);
      ApplyVotes(next, u, votes[1..])
  }

  /** A user in at most one list stays in at most one whatever the presses. */
  lemma {:induction false} VotesKeepAtMostOne(l: Lists, u: string, votes: seq<Vote>)
    requires AtMostOne(l, u)
    ensures AtMostOne(ApplyVotes(l, u, votes), u)
    decreases |votes|
  {
    if votes != [] {
      var next := if votes[0] == LikeVote then ToggleLike(l, u) else ToggleDislike(l, u);
      VotesKeepAtMostOne(next, u, votes[1..]);
    }
  }

  /** Presses by one user never change another user's membership. */
  lemma {:induction false} VotesKeepOthers(l: Lists, u: string, votes: seq<Vote>, v: string)
    requires v != u
    ensures (v in ApplyVotes(l, u, votes).likes <==> v in l.likes)
    ensures (v in ApplyVotes(l, u, votes).dislikes <==> v in l.dislikes)
    decreases |votes|
  {
    if votes != [] {
      var next := if votes[0] == LikeVote then ToggleLike(l, u) else ToggleDislike(l, u);
      VotesKeepOthers(next, u, votes[1..], v);
    }
  }

  /** `{ isCorrect, text }` shown in the modal; no text means no verdict. */
  datatype Result = Result(isCorrect: bool, text: Option<string>)

  /** `!user?.id`: no signed-in user, or an empty id. */
  predicate SignedIn(user: Option<string>)
  {
    user.Some? && user.value != ""
  }

  class Card {
    var lists: Lists
    var userRes: string
    var result: Result
    var showPuzzleModal: bool
    var loading: bool

    constructor (item: Puzzle)
      ensures lists == Lists(item.likes, item.dislikes)
      ensures userRes == "" && result == Result(true, None) && !showPuzzleModal && !loading
    {
      lists := Lists(item.likes, item.dislikes);
      userRes := "";
      result := Result(true, None);
      showPuzzleModal := false;
      loading := false;
    }

    /** `like`. `sent` is the `alreadyLiked` of the request, absent when no
        request is made. */
    method Like(user: Option<string>) returns (sent: Option<bool>)
      modifies this
      ensures userRes == old(userRes) && result == old(result)
      ensures showPuzzleModal == old(showPuzzleModal) && loading == old(loading)
      ensures !SignedIn(user) ==> sent.None? && lists == old(lists)
      ensures SignedIn(user) ==> sent == Some(user.value in old(lists).likes)
      ensures SignedIn(user) ==> lists == ToggleLike(old(lists), user.value)
    {
      if !SignedIn(user) {
        return None;
      }
      var id := user.value;
      if id in lists.likes {
        lists := lists.(likes := RemoveAll(lists.likes, id));
        sent := Some(true);
      } else {
        lists := Lists(lists.likes + [id], RemoveAll(lists.dislikes, id));
        sent := Some(false);
      }
    }

    /** `dislike`. `sent` is the `alreadyDisliked` of the request. */
    method Dislike(user: Option<string>) returns (sent: Option<bool>)
      modifies this
      ensures userRes == old(userRes) && result == old(result)
      ensures showPuzzleModal == old(showPuzzleModal) && loading == old(loading)
      ensures !SignedIn(user) ==> sent.None? && lists == old(lists)
      ensures SignedIn(user) ==> sent == Some(user.value in old(lists).dislikes)
      ensures SignedIn(user) ==> lists == ToggleDislike(old(lists), user.value)
    {
      if !SignedIn(user) {
        return None;
      }
      var id := user.value;
      if id in lists.dislikes {
        lists := lists.(dislikes := RemoveAll(lists.dislikes, id));
        sent := Some(true);
      } else {
        lists := Lists(RemoveAll(lists.likes, id), lists.dislikes + [id]);
        sent := Some(false);
      }
    }

    /** `checkAnswer`: the verdict is cleared, then set from a successful
        reply that says whether the answer is correct. */
    method CheckAnswer(reply: PuzzleScreen.CheckReply)
      modifies this
      ensures lists == old(lists) && userRes == old(userRes) && showPuzzleModal == old(showPuzzleModal)
      ensures !loading
      ensures reply.Body? && reply.success && reply.correct.Some? ==>
        result == Result(reply.correct.value, Some(reply.message))
      ensures !(reply.Body? && reply.success && reply.correct.Some?) ==>
        result == old(result).(text := None)
    {
      loading := true;
      result := result.(text := None);
      if reply.Body? && reply.success && reply.correct.Some? {
        result := Result(reply.correct.value, Some(reply.message));
      }
      loading := false;
    }

    /** `close`: the modal hides, the input and the verdict are cleared. */
    method Close()
      modifies this
      ensures !showPuzzleModal && userRes == "" && result == Result(true, None)
      ensures lists == old(lists) && loading == old(loading)
    {
      showPuzzleModal := false;
      userRes := "";
      result := Result(true, None);
    }
  }
}
