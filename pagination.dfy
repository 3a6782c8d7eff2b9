/** `ConversationPagination`: one link per page of the admin list. */
module ConversationPagination {
  import opened Types

  /** A rendered link: its page number and whether it is shown as the current page. */
  datatype PageLink = PageLink(number: int, active: bool)

  /** The links rendered, or `None` when there is at most one page. */
  function Links(currentPage: int, totalPages: int): (r: Option<seq<PageLink>>)
    ensures totalPages <= 1 <==> r.None?
    ensures r.Some? ==> |r.value| == totalPages
    ensures r.Some? ==> forall i :: 0 <= i < |r.value| ==>
      r.value[i].number == i + 1 && (r.value[i].active <==> currentPage == i + 1)
  {
    if totalPages <= 1 then None
    else Some(seq(totalPages, i requires 0 <= i < totalPages => PageLink(i + 1, currentPage == i + 1)))
  }

  /** At most one link is active, and one is exactly when `currentPage` is a page. */
  lemma {:induction false} OneActiveLink(currentPage: int, totalPages: int)
    requires totalPages > 1
    ensures var links := Links(currentPage, totalPages).value;
      (forall i, j :: 0 <= i < |links| && 0 <= j < |links| && links[i].active && links[j].active ==> i == j)
      && ((exists i :: 0 <= i < |links| && links[i].active) <==> 1 <= currentPage <= totalPages)
  {
    var links := Links(currentPage, totalPages).value;
    if 1 <= currentPage <= totalPages {
      assert links[currentPage - 1].active;
    }
  }

  /** Numbers are the pages `1..totalPages`, in increasing order. */
  lemma NumbersAscend(currentPage: int, totalPages: int)
    requires totalPages > 1
    ensures var links := Links(currentPage, totalPages).value;
      forall i, j :: 0 <= i < j < |links| ==> links[i].number < links[j].number
  {
  }

  /** Clicking the link at index `i` asks for page `i + 1`, always a real page. */
  function Select(currentPage: int, totalPages: int, i: int): (page: int)
    requires totalPages > 1 && 0 <= i < totalPages
    ensures 1 <= page <= totalPages
    ensures page == Links(currentPage, totalPages).value[i].number
  {
    i + 1
  }
}
