/** The "my puzzles" list on the stats page: five puzzles a page, with
    buttons that move one page up or down and a page count taken from each
    answer. */
module MyPuzzles {
  import opened Base
  import opened Documents

  /** The `limit` of every request. */
  const Limit: int := 5

  /** `get-user-puzzles?limit=5&page=...`. */
  datatype PageRequest = PageRequest(limit: int, page: int)

  /** A successful answer: the page's puzzles and the number of pages. */
  datatype PageReply = PageReply(puzzles: seq<Puzzle>, pages: nat)

  /** `response.data.pages === 0 ? 1 : response.data.pages`. */
  function MaxPageOf(pages: nat): (r: int)
    ensures r >= 1
    ensures pages > 0 ==> r == pages
    ensures pages == 0 ==> r == 1
  {
    if pages == 0 then 1 else pages
  }

  class Pager {
    var puzzles: seq<Puzzle>
    var currentPage: int
    var maxPage: int
    var loading: bool

    constructor ()
      ensures puzzles == [] && currentPage == 0 && maxPage == 1 && loading
    {
      puzzles := [];
      currentPage := 0;
      maxPage := 1;
      loading := true;
    }

    /** The end of `fetchUserPuzzles`: a successful answer replaces the list
        and the page count, 0 pages counting as one; a failed answer changes
        neither. */
    method ApplyReply(reply: Option<PageReply>)
      modifies this
      ensures !loading && currentPage == old(currentPage)
      ensures reply.None? ==> puzzles == old(puzzles) && maxPage == old(maxPage)
      ensures reply.Some? ==> puzzles == reply.value.puzzles && maxPage == MaxPageOf(reply.value.pages)
      ensures old(maxPage) >= 1 ==> maxPage >= 1
    {
      if reply.Some? {
        puzzles := reply.value.puzzles;
        maxPage := MaxPageOf(reply.value.pages);
      }
      loading := false;
    }

    /** `paginateUp`: nothing on the last page; otherwise the next page is
        shown and requested. */
    method PaginateUp() returns (req: Option<PageRequest>)
      modifies this
      ensures puzzles == old(puzzles) && maxPage == old(maxPage)
      ensures currentPage == MoveUp(old(currentPage), maxPage)
      ensures old(currentPage) + 1 == maxPage ==>
        req.None? && currentPage == old(currentPage) && loading == old(loading)
      ensures old(currentPage) + 1 != maxPage ==>
        currentPage == old(currentPage) + 1 && req == Some(PageRequest(Limit, currentPage)) && loading
    {
      if currentPage + 1 == maxPage {
        return None;
      }
      currentPage := currentPage + 1;
      loading := true;
      req := Some(PageRequest(Limit, currentPage));
    }

    /** `paginateDown`: nothing on the first page; otherwise the previous page
        is shown and requested. */
    method PaginateDown() returns (req: Option<PageRequest>)
      modifies this
      ensures puzzles == old(puzzles) && maxPage == old(maxPage)
      ensures currentPage == MoveDown(old(currentPage))
      ensures old(currentPage) - 1 < 0 ==>
        req.None? && currentPage == old(currentPage) && loading == old(loading)
      ensures old(currentPage) - 1 >= 0 ==>
        currentPage == old(currentPage) - 1 && req == Some(PageRequest(Limit, currentPage)) && loading
    {
      if currentPage - 1 < 0 {
        return None;
      }
      currentPage := currentPage - 1;
      loading := true;
      req := Some(PageRequest(Limit, currentPage));
    }
  }

  /** The page a press of the up button leads to. */
  function MoveUp(currentPage: int, maxPage: int): (r: int)
    ensures 0 <= currentPage < maxPage ==> 0 <= r < maxPage
    ensures currentPage + 1 < maxPage ==> r == currentPage + 1
  {
    if currentPage + 1 == maxPage then currentPage else currentPage + 1
  }

  /** The page a press of the down button leads to. */
  function MoveDown(currentPage: int): (r: int)
    ensures currentPage >= 0 ==> r >= 0
    ensures currentPage > 0 ==> r == currentPage - 1
  {
    if currentPage - 1 < 0 then currentPage else currentPage - 1
  }

  /** The page after a run of presses, `true` for up and `false` for down. */
  function Moves(currentPage: int, maxPage: int, ups: seq<bool>): int
    decreases |ups|
  {
    if ups == [] then currentPage
    else Moves(if ups[0] then MoveUp(currentPage, maxPage) else MoveDown(currentPage), maxPage, ups[1..])
  }

  /** Any run of presses with a fixed page count keeps the page inside the
      count. */
  lemma {:induction false} MovesStayInRange(currentPage: int, maxPage: int, ups: seq<bool>)
    requires 0 <= currentPage < maxPage
    ensures 0 <= Moves(currentPage, maxPage, ups) < maxPage
    decreases |ups|
  {
    if ups != [] {
      var next := if ups[0] then MoveUp(currentPage, maxPage) else MoveDown(currentPage);
      MovesStayInRange(next, maxPage, ups[1..]);
    }
  }

  /** The up guard tests equality only: once the shown page is past the last
      one (an answer with fewer pages arrived), every press goes one further. */
  lemma PastLastPageKeepsGoing(currentPage: int, maxPage: int)
    requires currentPage + 1 > maxPage
    ensures MoveUp(currentPage, maxPage) == currentPage + 1
  {
  }

  /** Shown on page 1 of 2, an answer saying there is one page leaves the
      pager past its end, and pressing up requests page 2. */
  method ShrunkCountWitness() returns (req: Option<PageRequest>)
    ensures req == Some(PageRequest(Limit, 2))
  {
    var p := new Pager();
    p.ApplyReply(Some(PageReply([], 2)));
    var _ := p.PaginateUp();
    p.ApplyReply(Some(PageReply([], 1)));
    req := p.PaginateUp();
  }
}
