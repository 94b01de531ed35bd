/** The discover page's infinite scroll over the search results: a request
    for one page at a time, refused while another is in flight, whose answer
    replaces the list on a refresh and is appended to it otherwise. The
    request and its answer are two steps, so that a second request can arrive
    while the first is in flight. */
module Discover {
  import opened Base
  import opened Documents

  /** `pageSize`. */
  const PageSize: int := 4

  /** The `skip` and `limit` of a `get-scroll-puzzles` request. */
  datatype ScrollRequest = ScrollRequest(skip: int, limit: int)

  /** The request for page `pageNum`. */
  function RequestFor(pageNum: int): (r: ScrollRequest)
    ensures r.limit == PageSize
    ensures pageNum >= 0 ==> r.skip >= 0 && r.skip % PageSize == 0 && r.skip / PageSize == pageNum
  {
    ScrollRequest(pageNum * PageSize, PageSize)
  }

  /** The request in flight: its page and whether it refreshes. */
  datatype Pending = Pending(pageNum: int, isRefresh: bool)

  class DiscoverPage {
    var searchPuzzles: seq<Puzzle>
    /** The first load of the popular and category lists. */
    var loading: bool
    var infiniteScrollLoad: bool
    var hasMore: bool
    var page: int
    var pending: Option<Pending>

    /** The in-flight flag is set exactly while a request is pending. */
    predicate Valid()
      reads this
    {
      infiniteScrollLoad <==> pending.Some?
    }

    constructor ()
      ensures Valid()
      ensures searchPuzzles == [] && loading && !infiniteScrollLoad && hasMore && page == 0 && pending.None?
    {
      searchPuzzles := [];
      loading := true;
      infiniteScrollLoad := false;
      hasMore := true;
      page := 0;
      pending := None;
    }

    /** The end of the first load. */
    method FinishLoading()
      modifies this
      ensures !loading
      ensures searchPuzzles == old(searchPuzzles) && infiniteScrollLoad == old(infiniteScrollLoad)
      ensures hasMore == old(hasMore) && page == old(page) && pending == old(pending)
    {
      loading := false;
    }

    /** The first half of `fetchPuzzles(pageNum, isRefresh)`: nothing is
        requested while a request is in flight, nor past the last page unless
        refreshing; otherwise page `pageNum` is requested. */
    method BeginFetch(pageNum: int, isRefresh: bool) returns (req: Option<ScrollRequest>)
      requires Valid()
      modifies this
      ensures Valid()
      ensures searchPuzzles == old(searchPuzzles) && loading == old(loading)
      ensures hasMore == old(hasMore) && page == old(page)
      ensures req.None? <==> old(infiniteScrollLoad) || (!isRefresh && !old(hasMore))
      ensures req.None? ==> pending == old(pending)
      ensures req.Some? ==> req.value == RequestFor(pageNum) && pending == Some(Pending(pageNum, isRefresh))
    {
      if infiniteScrollLoad || (!isRefresh && !hasMore) {
        return None;
      }
      infiniteScrollLoad := true;
      pending := Some(Pending(pageNum, isRefresh));
      req := Some(RequestFor(pageNum));
    }

    /** The second half of `fetchPuzzles`: `reply` is the list of a successful
        answer, absent for a failed or thrown one. A refresh replaces the list
        and any other request appends to it; `hasMore` says whether a whole
        page came back and `page` becomes the requested page. The in-flight
        flag is cleared whatever the answer. */
    method CompleteFetch(reply: Option<seq<Puzzle>>)
      requires Valid() && pending.Some?
      modifies this
      ensures Valid() && pending.None? && !infiniteScrollLoad && loading == old(loading)
      ensures reply.None? ==>
        searchPuzzles == old(searchPuzzles) && hasMore == old(hasMore) && page == old(page)
      ensures reply.Some? ==>
        && searchPuzzles == (if old(pending).value.isRefresh then reply.value else old(searchPuzzles) + reply.value)
        && (hasMore <==> |reply.value| == PageSize)
        && page == old(pending).value.pageNum
    {
      var p := pending.value;
      if reply.Some? {
        if p.isRefresh {
          searchPuzzles := reply.value;
        } else {
          searchPuzzles := searchPuzzles + reply.value;
        }
        hasMore := |reply.value| == PageSize;
        page := p.pageNum;
      }
      infiniteScrollLoad := false;
      pending := None;
    }

    /** `loadMore`: the next page, once the first load is over and while more
        pages may exist. */
    method LoadMore() returns (req: Option<ScrollRequest>)
      requires Valid()
      modifies this
      ensures Valid()
      ensures searchPuzzles == old(searchPuzzles) && loading == old(loading)
      ensures hasMore == old(hasMore) && page == old(page)
      ensures req.Some? <==> !old(loading) && old(hasMore) && !old(infiniteScrollLoad)
      ensures req.Some? ==> req.value == RequestFor(old(page) + 1) && pending == Some(Pending(old(page) + 1, false))
      ensures req.None? ==> pending == old(pending)
    {
      if !loading && hasMore {
        req := BeginFetch(page + 1, false);
      } else {
        req := None;
      }
    }

    /** `refresh`: back to page 0 with more pages assumed, then page 0 is
        requested unless a request is already in flight. */
    method Refresh() returns (req: Option<ScrollRequest>)
      requires Valid()
      modifies this
      ensures Valid()
      ensures searchPuzzles == old(searchPuzzles) && loading == old(loading)
      ensures page == 0 && hasMore
      ensures req.Some? <==> !old(infiniteScrollLoad)
      ensures req.Some? ==> req.value == RequestFor(0) && pending == Some(Pending(0, true))
      ensures req.None? ==> pending == old(pending)
    {
      page := 0;
      hasMore := true;
      req := BeginFetch(0, true);
    }
  }

  /** While every answer brings a whole page, the list holds exactly the pages
      up to `page`, so the next page's request starts right after the last
      item shown. */
  predicate Aligned(searchPuzzles: seq<Puzzle>, page: int)
  {
    |searchPuzzles| == (page + 1) * PageSize
  }

  /** A whole page answered to a refresh, or to the page after an aligned
      list, leaves the list aligned, and the following `loadMore` asks for
      the items right after the list. */
  lemma WholePageKeepsAligned(oldList: seq<Puzzle>, oldPage: int, p: Pending, reply: seq<Puzzle>)
    requires |reply| == PageSize
    requires p.isRefresh ==> p.pageNum == 0
    requires !p.isRefresh ==> Aligned(oldList, oldPage) && p.pageNum == oldPage + 1
    ensures var list := if p.isRefresh then reply else oldList + reply;
      Aligned(list, p.pageNum) && RequestFor(p.pageNum + 1).skip == |list|
  {
  }

  /** Two requests in a row without an answer in between: the second is
      refused. */
  method SecondRequestRefused() returns (first: Option<ScrollRequest>, second: Option<ScrollRequest>)
    ensures first == Some(RequestFor(0)) && second.None?
  {
    var d := new DiscoverPage();
    first := d.Refresh();
    d.FinishLoading();
    second := d.LoadMore();
  }
}
