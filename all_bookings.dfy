/**
 * `AllBookingsBottomSheet`: the staff list of every booking, loaded page by page.
 * Page 0 replaces the list and later pages are appended. The list is shown
 * newest-first (reversed), and scrolling near the end of the shown list asks for
 * the next page.
 *
 * The `LaunchedEffect(currentPage)` block is split at its one suspension point:
 * `BeginLoad` is what runs before the fetch and `FinishLoad` what runs after it.
 */
module AllBookings {
  import opened Outcomes
  import opened Models

  /** `pageSize`: the number of bookings requested per page. */
  const PageSize: nat := 500

  class AllBookingsSheet {
    var currentPage: int
    var bookings: seq<FullBookingInfo>
    var isLoading: bool
    var hasMorePages: bool

    /** The pages fetched since the last load of page 0, in the order they arrived. */
    ghost var pages: seq<seq<FullBookingInfo>>

    ghost predicate Valid()
      reads this
    {
      currentPage >= 0 && bookings == Flatten(pages)
    }

    /** The `remember { ... }` initial values. */
    constructor ()
      ensures Valid()
      ensures currentPage == 0 && bookings == [] && isLoading && hasMorePages
      ensures pages == []
    {
      currentPage := 0;
      bookings := [];
      isLoading := true;
      hasMorePages := true;
      pages := [];
    }

    /** The effect's first statement, run before the fetch for `currentPage` starts. */
    method BeginLoad()
      requires Valid()
      modifies this`isLoading
      ensures Valid() && isLoading
    {
      isLoading := true;
    }

    /**
     * The rest of the effect, once the fetch of `currentPage` has returned (`Ok`) or
     * thrown (`Fail`): page 0 replaces the list, any later page is appended, and
     * `hasMorePages` records whether the page was full. `finally` always clears
     * `isLoading`.
     */
    method FinishLoad(fetched: Outcome<seq<FullBookingInfo>>)
      requires Valid()
      modifies this`bookings, this`hasMorePages, this`isLoading, this`pages
      ensures Valid() && !isLoading
      ensures fetched.Ok? && currentPage == 0 ==> bookings == fetched.value && pages == [fetched.value]
      ensures fetched.Ok? && currentPage != 0 ==>
        bookings == old(bookings) + fetched.value && pages == old(pages) + [fetched.value]
      ensures fetched.Ok? ==> hasMorePages == (|fetched.value| == PageSize)
      ensures fetched.Fail? ==> bookings == old(bookings) && hasMorePages == old(hasMorePages) && pages == old(pages)
    {
      match fetched {
        case Ok(newBookings) =>
          if currentPage == 0 {
            bookings := newBookings;
            pages := [newBookings];
            assert [newBookings][..0] == [];
          } else {
            FlattenAppend(pages, newBookings);
            bookings := bookings + newBookings;
            pages := pages + [newBookings];
          }
          hasMorePages := |newBookings| == PageSize;
        case Fail =>
      }
      isLoading := false;
    }

    /** `onLoadMore = { currentPage++ }`. */
    method OnLoadMore()
      requires Valid()
      modifies this`currentPage
      ensures Valid() && currentPage == old(currentPage) + 1
    {
      currentPage := currentPage + 1;
    }

    /** `bookings.reversed()`: the order the list is shown in, newest page first. */
    function Displayed(): (shown: seq<FullBookingInfo>)
      reads this
      ensures |shown| == |bookings|
      ensures forall i :: 0 <= i < |bookings| ==> shown[i] == bookings[|bookings| - 1 - i]
    {
      Reverse(bookings)
    }

    /**
     * Whether composing the shown item at `index` asks for the next page: exactly
     * for `index > bookings.size - 3`, while nothing is loading and more pages
     * may exist. Such an item is one of the two earliest bookings in the list.
     */
    function RequestsMore(index: int): (r: bool)
      reads this
      ensures r <==> index > |bookings| - 3 && !isLoading && hasMorePages
      ensures r && 0 <= index < |bookings| ==>
        exists k :: 0 <= k < 2 && k < |bookings| && Displayed()[index] == bookings[k]
    {
      var r := index > |bookings| - 3 && !isLoading && hasMorePages;
      if r && 0 <= index < |bookings| then
        assert Displayed()[index] == bookings[|bookings| - 1 - index];
        r
      else r
    }
  }

  /** A driver: open the sheet, load page 0, then load one more page. */
  method TwoPages(first: seq<FullBookingInfo>, second: seq<FullBookingInfo>) returns (sheet: AllBookingsSheet)
    requires |first| == PageSize
    ensures sheet.Valid()
    ensures sheet.bookings == first + second
    ensures sheet.Displayed()[0] == (if second == [] then first[PageSize - 1] else second[|second| - 1])
    ensures sheet.hasMorePages <==> |second| == PageSize
    ensures sheet.currentPage == 1 && !sheet.isLoading
  {
    sheet := new AllBookingsSheet();
    sheet.BeginLoad();
    sheet.FinishLoad(Ok(first));
    assert sheet.hasMorePages;
    sheet.OnLoadMore();
    sheet.BeginLoad();
    sheet.FinishLoad(Ok(second));
  }
}
