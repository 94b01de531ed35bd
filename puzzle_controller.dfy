/** The puzzle handlers: the date-derived daily puzzle, the owner's puzzle
    list and its pages, the discover feed query, comments, likes and
    dislikes. */
module PuzzleController {
  import opened Base
  import opened Documents

  // ---------------------------------------------------------------------
  // Daily puzzle by date

  /** `new Date("2025-01-01T00:00:00Z").getTime()`. */
  const Epoch: int := 1_735_689_600_000

  /** `Math.floor((now - epoch) / millisecondsPerDay)`; Dafny's division by a
      positive divisor rounds toward negative infinity, as `Math.floor` does. */
  function DaysSinceEpoch(now: int): (d: int)
    ensures Epoch + d * MsPerDay <= now < Epoch + (d + 1) * MsPerDay
  {
    (now - Epoch) / MsPerDay
  }

  /** `daysSinceEpoch % puzzles.length`, with JavaScript's remainder. */
  function DailyIndex(now: int, len: int): (i: int)
    requires len > 0
    ensures now >= Epoch ==> 0 <= i < len
  {
    JsRem(DaysSinceEpoch(now), len)
  }

  /** `getGlobalDailyPuzzle`: `puzzles[puzzleIndex]`, which is `undefined`
      before the epoch, where the index is negative. */
  function GlobalDailyPuzzle(puzzles: seq<Puzzle>, now: int): (r: Option<Puzzle>)
    requires |puzzles| > 0
    ensures now >= Epoch ==> r == Some(puzzles[DailyIndex(now, |puzzles|)])
    ensures r.Some? ==> r.value in puzzles
  {
    var i := DailyIndex(now, |puzzles|);
    if 0 <= i < |puzzles| then Some(puzzles[i]) else None
  }

  /** Every instant of the same UTC day gets the same puzzle. */
  lemma DailyIndexSameDay(now: int, later: int, len: int)
    requires len > 0 && Epoch <= now <= later
    requires later - Epoch < (DaysSinceEpoch(now) + 1) * MsPerDay
    ensures DailyIndex(now, len) == DailyIndex(later, len)
  {
    var d := DaysSinceEpoch(now);
    var e := DaysSinceEpoch(later);
    assert d <= e <= d;
  }

  lemma {:induction false} MulAtLeast(k: int, len: int)
    requires k >= 1 && len > 0
    ensures k * len >= len
  {
    if k > 1 {
      MulAtLeast(k - 1, len);
      assert k * len == (k - 1) * len + len;
    }
  }

  /** Division with a positive divisor has one quotient and one remainder. */
  lemma DivModUnique(x: int, len: int, q: int, r: int)
    requires len > 0 && 0 <= r < len && x == q * len + r
    ensures x / len == q && x % len == r
  {
    var q', r' := x / len, x % len;
    assert x == q' * len + r';
    if q' > q {
      MulAtLeast(q' - q, len);
    } else if q' < q {
      MulAtLeast(q - q', len);
    }
  }

  lemma ModSucc(d: nat, len: int)
    requires len > 0
    ensures (d + 1) % len == (d % len + 1) % len
  {
    var q, r := d / len, d % len;
    if r + 1 < len {
      DivModUnique(d + 1, len, q, r + 1);
      DivModUnique(r + 1, len, 0, r + 1);
    } else {
      assert d + 1 == (q + 1) * len + 0;
      DivModUnique(d + 1, len, q + 1, 0);
      DivModUnique(r + 1, len, 1, 0);
    }
  }

  /** One day later the index advances by one, wrapping at the end. */
  lemma DailyIndexNextDay(now: int, len: int)
    requires len > 0 && now >= Epoch
    ensures DailyIndex(now + MsPerDay, len) == (DailyIndex(now, len) + 1) % len
  {
    var d := DaysSinceEpoch(now);
    assert DaysSinceEpoch(now + MsPerDay) == d + 1;
    ModSucc(d, len);
  }

  /** `getDailyPuzzle`: failure on an empty collection (sorted by creation);
      otherwise the date-derived puzzle. */
  function GetDailyPuzzle(puzzles: seq<Puzzle>, now: int): (r: Reply<Option<Puzzle>>)
    ensures r.Fail? <==> |puzzles| == 0
    ensures r.Ok? && now >= Epoch ==> r.value == Some(puzzles[DailyIndex(now, |puzzles|)])
  {
    if |puzzles| == 0 then Fail else Ok(GlobalDailyPuzzle(puzzles, now))
  }

  // ---------------------------------------------------------------------
  // Queries

  datatype CreatorTest = CreatorIs(id: string) | CreatorIsNot(id: string)

  /** A Mongo filter over puzzles: the creator test and the optional `$in`
      and `$regex` clauses. */
  datatype PuzzleQuery = PuzzleQuery(
    creator: CreatorTest,
    categories: Option<seq<Category>>,
    difficulties: Option<seq<Difficulty>>,
    question: Option<string>)

  predicate OccursAt(text: string, pattern: string, i: int)
  {
    0 <= i <= |text| - |pattern| && text[i..i + |pattern|] == pattern
  }

  /** `pattern` occurs in `text`. */
  predicate Contains(text: string, pattern: string)
  {
    exists i :: 0 <= i <= |text| && OccursAt(text, pattern, i)
  }

  predicate Matches(q: PuzzleQuery, p: Puzzle)
  {
    (match q.creator
     case CreatorIs(id) => p.creator.id == id
     case CreatorIsNot(id) => p.creator.id != id)
    && (q.categories.None? || p.category in q.categories.value)
    && (q.difficulties.None? || p.difficulty in q.difficulties.value)
    && (q.question.None? || Contains(p.question, q.question.value))
  }

  /** `puzzleModel.find(query)`, keeping the collection's order. */
  function Find(puzzles: seq<Puzzle>, q: PuzzleQuery): (r: seq<Puzzle>)
    ensures forall p :: p in r <==> p in puzzles && Matches(q, p)
    ensures |r| <= |puzzles|
  {
    if puzzles == [] then []
    else if Matches(q, puzzles[0]) then [puzzles[0]] + Find(puzzles[1..], q)
    else Find(puzzles[1..], q)
  }

  /** `.skip(skip).limit(limit)`, where a limit of 0 means no limit. */
  function Window(s: seq<Puzzle>, skip: nat, limit: nat): (r: seq<Puzzle>)
    ensures limit > 0 ==> |r| <= limit
    ensures skip <= |s| ==> skip + |r| <= |s| && r == s[skip..skip + |r|]
    ensures skip >= |s| ==> r == []
    ensures limit == 0 ==> r == s[if skip <= |s| then skip else |s|..]
    ensures limit > 0 && skip + limit <= |s| ==> |r| == limit
  {
    var rest := if skip <= |s| then s[skip..] else [];
    if limit == 0 || |rest| <= limit then rest else rest[..limit]
  }

  /** The filter of `getPuzzles`. `categories.length` on a missing list
      throws, which the handler reports as failure. */
  function GetPuzzlesQuery(userId: string, categories: Option<seq<Category>>, difficulties: Option<seq<Difficulty>>)
    : (r: Option<PuzzleQuery>)
    ensures r.None? <==> categories.None? || difficulties.None?
  {
    if categories.None? || difficulties.None? then None
    else
      var filter := PuzzleQuery(CreatorIs(userId), None, None, None);
      var filter := if |categories.value| != 0 then filter.(categories := categories) else filter;
      var filter := if |difficulties.value| != 0 then filter.(difficulties := difficulties) else filter;
      Some(filter)
  }

  /** `getPuzzles` selects the caller's own puzzles, narrowed by each
      non-empty list. */
  lemma GetPuzzlesQueryMeaning(userId: string, categories: seq<Category>, difficulties: seq<Difficulty>, p: Puzzle)
    ensures GetPuzzlesQuery(userId, Some(categories), Some(difficulties)).Some?
    ensures Matches(GetPuzzlesQuery(userId, Some(categories), Some(difficulties)).value, p) <==>
      p.creator.id == userId
      && (categories == [] || p.category in categories)
      && (difficulties == [] || p.difficulty in difficulties)
  {
  }

  /** `getPuzzles`. */
  function GetPuzzles(puzzles: seq<Puzzle>, userId: string, categories: Option<seq<Category>>,
                      difficulties: Option<seq<Difficulty>>): (r: Reply<seq<Puzzle>>)
    ensures r.Fail? <==> categories.None? || difficulties.None?
    ensures r.Ok? ==> forall p :: p in r.value <==> (p in puzzles && p.creator.id == userId
      && (categories.value == [] || p.category in categories.value)
      && (difficulties.value == [] || p.difficulty in difficulties.value))
  {
    match GetPuzzlesQuery(userId, categories, difficulties)
    case None => Fail
    case Some(q) =>
      forall p ensures Matches(q, p) <==> (p.creator.id == userId
        && (categories.value == [] || p.category in categories.value)
        && (difficulties.value == [] || p.difficulty in difficulties.value))
      {
        GetPuzzlesQueryMeaning(userId, categories.value, difficulties.value, p);
      }
      Ok(Find(puzzles, q))
  }

  /** The query of `getScrollPuzzles`. A missing list and an empty list both
      add nothing; a missing or blank search adds nothing. */
  function ScrollQuery(userId: string, search: Option<string>, categories: Option<seq<Category>>,
                       difficulties: Option<seq<Difficulty>>): (q: PuzzleQuery)
    ensures q.creator == CreatorIsNot(userId)
    ensures q.categories.Some? <==> categories.Some? && |categories.value| != 0
    ensures q.difficulties.Some? <==> difficulties.Some? && |difficulties.value| != 0
    ensures q.question.Some? <==> search.Some? && search.value != "" && !IsBlank(search.value)
  {
    var query := PuzzleQuery(CreatorIsNot(userId), None, None, None);
    var query := if categories.Some? && |categories.value| != 0 then query.(categories := categories) else query;
    var query := if difficulties.Some? && |difficulties.value| != 0 then query.(difficulties := difficulties) else query;
    var query := if search.Some? && search.value != "" && !IsBlank(search.value) then query.(question := search) else query;
    query
  }

  /** The discover feed never shows the caller's own puzzles, and every shown
      puzzle passes each filter the caller gave. */
  lemma ScrollQueryMeaning(userId: string, search: Option<string>, categories: Option<seq<Category>>,
                           difficulties: Option<seq<Difficulty>>, p: Puzzle)
    ensures Matches(ScrollQuery(userId, search, categories, difficulties), p) <==>
      p.creator.id != userId
      && (categories.None? || categories.value == [] || p.category in categories.value)
      && (difficulties.None? || difficulties.value == [] || p.difficulty in difficulties.value)
      && (search.None? || IsBlank(search.value) || Contains(p.question, search.value))
  {
    var q := ScrollQuery(userId, search, categories, difficulties);
    if search.Some? && search.value == "" {
      assert IsBlank(search.value);
    }
    if categories.Some? && categories.value != [] {
      assert q.categories == categories;
    }
    if difficulties.Some? && difficulties.value != [] {
      assert q.difficulties == difficulties;
    }
  }

  /** `getScrollPuzzles` over the collection sorted newest first; skip
      defaults to 0 and limit to 4. */
  function ScrollPuzzles(sorted: seq<Puzzle>, userId: string, search: Option<string>,
                         categories: Option<seq<Category>>, difficulties: Option<seq<Difficulty>>,
                         skip: Option<nat>, limit: Option<nat>): (r: seq<Puzzle>)
    ensures limit.None? ==> |r| <= 4
    ensures forall p :: p in r ==> p in sorted && p.creator.id != userId
    ensures forall p :: p in r ==> Matches(ScrollQuery(userId, search, categories, difficulties), p)
  {
    var q := ScrollQuery(userId, search, categories, difficulties);
    var found := Find(sorted, q);
    var w := Window(found, if skip.Some? then skip.value else 0, if limit.Some? then limit.value else 4);
    assert forall p :: p in w ==> p in found;
    w
  }

  /** The feed serves the matching stored puzzles in stored order, from
      position `skip` (0 when absent) and at most `limit` of them (4 when
      absent, all when 0). */
  lemma ScrollPuzzlesServed(sorted: seq<Puzzle>, userId: string, search: Option<string>,
                            categories: Option<seq<Category>>, difficulties: Option<seq<Difficulty>>,
                            skip: Option<nat>, limit: Option<nat>)
    ensures var found := Find(sorted, ScrollQuery(userId, search, categories, difficulties));
      var s := if skip.Some? then skip.value else 0;
      var l := if limit.Some? then limit.value else 4;
      var start := if s <= |found| then s else |found|;
      var end := if l == 0 || start + l > |found| then |found| else start + l;
      ScrollPuzzles(sorted, userId, search, categories, difficulties, skip, limit) == found[start..end]
  {
  }

  /** Without `skip` and `limit` the feed is the first four matches, or all of
      them when fewer match. */
  lemma ScrollPuzzlesFirstPage(sorted: seq<Puzzle>, userId: string, search: Option<string>,
                               categories: Option<seq<Category>>, difficulties: Option<seq<Difficulty>>)
    ensures var found := Find(sorted, ScrollQuery(userId, search, categories, difficulties));
      ScrollPuzzles(sorted, userId, search, categories, difficulties, None, None)
        == found[..if |found| < 4 then |found| else 4]
  {
    ScrollPuzzlesServed(sorted, userId, search, categories, difficulties, None, None);
  }

  // ---------------------------------------------------------------------
  // The owner's pages

  /** `Math.ceil(total / limit)` for a positive limit. */
  function PageCount(total: nat, limit: int): (pages: nat)
    requires limit > 0
    ensures (pages == 0) == (total == 0)
    ensures pages * limit >= total
    ensures pages > 0 ==> (pages - 1) * limit < total
  {
    (total + limit - 1) / limit
  }

  /** The page served: a request for page `pages` is moved back one, but not
      below 0; every other page is served as asked. */
  function ServedPage(page: int, pages: int): (served: int)
    ensures page != pages ==> served == page
    ensures page == pages ==> served == (if pages - 1 < 0 then 0 else pages - 1)
  {
    if page == pages then (var newCurrentPage := page - 1; if newCurrentPage < 0 then 0 else newCurrentPage)
    else page
  }

  datatype Page = Page(puzzles: seq<Puzzle>, pages: int, page: int)

  /** `getUserPuzzles` over the caller's puzzles sorted newest first. A
      negative page gives a negative skip, which the driver rejects. */
  function UserPuzzles(owned: seq<Puzzle>, limit: int, page: int): (r: Reply<Page>)
    requires limit > 0
    ensures r.Fail? <==> ServedPage(page, PageCount(|owned|, limit)) < 0
    ensures r.Ok? ==> r.value.pages == PageCount(|owned|, limit)
    ensures r.Ok? ==> r.value.page == ServedPage(page, PageCount(|owned|, limit))
    ensures r.Ok? ==> |r.value.puzzles| <= limit
  {
    var pages := PageCount(|owned|, limit);
    var served := ServedPage(page, pages);
    if served < 0 then Fail
    else Ok(Page(Window(owned, limit * served, limit), pages, served))
  }

  /** A page inside the range is served as asked and holds between one and
      `limit` puzzles, starting at puzzle `limit * page`. */
  lemma UserPuzzlesInRange(owned: seq<Puzzle>, limit: int, page: int)
    requires limit > 0 && 0 <= page < PageCount(|owned|, limit)
    ensures UserPuzzles(owned, limit, page).Ok?
    ensures UserPuzzles(owned, limit, page).value.page == page
    ensures 0 < |UserPuzzles(owned, limit, page).value.puzzles| <= limit
    ensures UserPuzzles(owned, limit, page).value.puzzles
      == owned[limit * page..limit * page + |UserPuzzles(owned, limit, page).value.puzzles|]
  {
    var pages := PageCount(|owned|, limit);
    assert limit * page <= limit * (pages - 1) by {
      assert page <= pages - 1;
    }
  }

  /** A request one past the last page is served the last page, which is
      not empty; with no puzzles at all, page 0 is served empty. */
  lemma UserPuzzlesOnePastEnd(owned: seq<Puzzle>, limit: int)
    requires limit > 0
    ensures var pages := PageCount(|owned|, limit);
      && UserPuzzles(owned, limit, pages).Ok?
      && UserPuzzles(owned, limit, pages).value.page == (if pages == 0 then 0 else pages - 1)
      && (pages > 0 <==> |UserPuzzles(owned, limit, pages).value.puzzles| > 0)
  {
    var pages := PageCount(|owned|, limit);
    if pages > 0 {
      UserPuzzlesInRange(owned, limit, pages - 1);
    }
  }

  // ---------------------------------------------------------------------
  // Comments, likes and dislikes

  /** `like` on one puzzle: with `alreadyLiked`, `$pull` the user from
      `likes`; otherwise `$push` to `likes` and `$pull` from `dislikes`. */
  function LikePuzzle(p: Puzzle, userId: string, alreadyLiked: bool): (r: Puzzle)
    ensures r.(likes := p.likes, dislikes := p.dislikes) == p
    ensures alreadyLiked ==> userId !in r.likes && r.dislikes == p.dislikes
    ensures alreadyLiked ==> forall u :: u != userId ==> (u in r.likes <==> u in p.likes)
    ensures !alreadyLiked ==> r.likes == p.likes + [userId]
    ensures !alreadyLiked ==> userId !in r.dislikes && forall u :: u != userId ==> (u in r.dislikes <==> u in p.dislikes)
  {
    if alreadyLiked then p.(likes := RemoveAll(p.likes, userId))
    else p.(likes := p.likes + [userId], dislikes := RemoveAll(p.dislikes, userId))
  }

  /** `dislike`: the mirror image of `like`. */
  function DislikePuzzle(p: Puzzle, userId: string, alreadyDisliked: bool): (r: Puzzle)
    ensures r.(likes := p.likes, dislikes := p.dislikes) == p
    ensures alreadyDisliked ==> userId !in r.dislikes && r.likes == p.likes
    ensures alreadyDisliked ==> forall u :: u != userId ==> (u in r.dislikes <==> u in p.dislikes)
    ensures !alreadyDisliked ==> r.dislikes == p.dislikes + [userId]
    ensures !alreadyDisliked ==> userId !in r.likes && forall u :: u != userId ==> (u in r.likes <==> u in p.likes)
  {
    if alreadyDisliked then p.(dislikes := RemoveAll(p.dislikes, userId))
    else p.(dislikes := p.dislikes + [userId], likes := RemoveAll(p.likes, userId))
  }

  lemma {:induction false} RemoveAbsent(s: seq<string>, x: string)
    requires x !in s
    ensures RemoveAll(s, x) == s
  {
    if s != [] {
      RemoveAbsent(s[1..], x);
    }
  }

  lemma {:induction false} RemoveAppended(s: seq<string>, x: string)
    ensures RemoveAll(s + [x], x) == RemoveAll(s, x)
  {
    if s == [] {
      assert [x][1..] == [];
    } else {
      assert (s + [x])[1..] == s[1..] + [x];
      RemoveAppended(s[1..], x);
    }
  }

  /** Like then unlike restores the likes of a user who had not liked. */
  lemma LikeThenUnlike(p: Puzzle, userId: string)
    requires userId !in p.likes
    ensures LikePuzzle(LikePuzzle(p, userId, false), userId, true).likes == p.likes
  {
    RemoveAppended(p.likes, userId);
    RemoveAbsent(p.likes, userId);
  }

  /** The required comment fields: each must be present and non-empty. */
  datatype CommentRequest = CommentRequest(
    id: Option<string>, userId: Option<string>, name: Option<string>,
    profileImage: Option<string>, content: Option<string>)

  /** A JavaScript truthiness test on an optional string. */
  predicate Present(s: Option<string>)
  {
    s.Some? && s.value != ""
  }

  predicate CommentComplete(req: CommentRequest)
  {
    Present(req.id) && Present(req.userId) && Present(req.name) && Present(req.profileImage) && Present(req.content)
  }

  /** The position of the puzzle with the given `_id`. */
  function FindPuzzle(puzzles: seq<Puzzle>, id: string): (r: Option<nat>)
    ensures r.Some? ==> r.value < |puzzles| && puzzles[r.value].id == id
    ensures r.Some? ==> forall k :: 0 <= k < r.value ==> puzzles[k].id != id
    ensures r.None? ==> forall k :: 0 <= k < |puzzles| ==> puzzles[k].id != id
  {
    if puzzles == [] then None
    else if puzzles[0].id == id then Some(0)
    else match FindPuzzle(puzzles[1..], id)
      case None => None
      case Some(k) => Some(k + 1)
  }

  /** The stored puzzles, updated by `findByIdAndUpdate`. */
  class PuzzleStore {
    var puzzles: seq<Puzzle>

    constructor (puzzles: seq<Puzzle>)
      ensures this.puzzles == puzzles
    {
      this.puzzles := puzzles;
    }

    /** `like`: changes only the puzzle with that id; an unknown id changes nothing. */
    method Like(id: string, userId: string, alreadyLiked: bool) returns (success: bool)
      modifies this
      ensures success
      ensures |puzzles| == |old(puzzles)|
      ensures FindPuzzle(old(puzzles), id).None? ==> puzzles == old(puzzles)
      ensures FindPuzzle(old(puzzles), id).Some? ==>
        puzzles == old(puzzles)[FindPuzzle(old(puzzles), id).value :=
          LikePuzzle(old(puzzles)[FindPuzzle(old(puzzles), id).value], userId, alreadyLiked)]
    {
      var i := FindPuzzle(puzzles, id);
      if i.Some? {
        puzzles := puzzles[i.value := LikePuzzle(puzzles[i.value], userId, alreadyLiked)];
      }
      success := true;
    }

    /** `dislike`. */
    method Dislike(id: string, userId: string, alreadyDisliked: bool) returns (success: bool)
      modifies this
      ensures success
      ensures |puzzles| == |old(puzzles)|
      ensures FindPuzzle(old(puzzles), id).None? ==> puzzles == old(puzzles)
      ensures FindPuzzle(old(puzzles), id).Some? ==>
        puzzles == old(puzzles)[FindPuzzle(old(puzzles), id).value :=
          DislikePuzzle(old(puzzles)[FindPuzzle(old(puzzles), id).value], userId, alreadyDisliked)]
    {
      var i := FindPuzzle(puzzles, id);
      if i.Some? {
        puzzles := puzzles[i.value := DislikePuzzle(puzzles[i.value], userId, alreadyDisliked)];
      }
      success := true;
    }

    /** `postComment`: any missing or empty field fails with no change;
      otherwise the comment is appended to the puzzle with that id, and the
      answer is success even when no puzzle has it. */
    method PostComment(req: CommentRequest) returns (success: bool)
      modifies this
      ensures success <==> CommentComplete(req)
      ensures !success ==> puzzles == old(puzzles)
      ensures success && FindPuzzle(old(puzzles), req.id.value).None? ==> puzzles == old(puzzles)
      ensures success && FindPuzzle(old(puzzles), req.id.value).Some? ==>
        var i := FindPuzzle(old(puzzles), req.id.value).value;
        puzzles == old(puzzles)[i := old(puzzles)[i].(comments := old(puzzles)[i].comments
          + [Comment(Creator(req.userId.value, req.name.value, req.profileImage.value), req.content.value)])]
    {
      if !CommentComplete(req) {
        return false;
      }
      var newComment := Comment(Creator(req.userId.value, req.name.value, req.profileImage.value), req.content.value);
      var i := FindPuzzle(puzzles, req.id.value);
      if i.Some? {
        puzzles := puzzles[i.value := puzzles[i.value].(comments := puzzles[i.value].comments + [newComment])];
      }
      success := true;
    }
  }
}
