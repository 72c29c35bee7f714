/**
 * The news-feed component: it merges the items of several feeds, keeps those
 * whose date parses, orders them newest first, shows them ten to a page with
 * numbered page buttons, and names each item's publisher from its link.
 * Date parsing belongs to the host (`new Date(...)`), so it is a parameter:
 * `parse(pubDate)` is the timestamp, or `None` for an invalid date.
 */
module RssFeed {
  import opened Wrappers
  import Strings
  import Ordering
  import Seqs

  datatype FeedItem = FeedItem(title: string, link: string, pubDate: string, contentSnippet: string, source: string)

  datatype Feed = Feed(title: string, items: seq<FeedItem>)

  const ItemsPerPage := 10

  // ---------------------------------------------------------------------------
  // Publisher names
  // ---------------------------------------------------------------------------

  datatype SourceEntry = SourceEntry(url: string, name: string)

  /** The known publishers, in declaration order; the first match wins. */
  const SourceMapping: seq<SourceEntry> := [
    SourceEntry("morganlewis", "All Things FinReg (Morgan Lewis)"),
    SourceEntry("globalfinregblog", "Global Financial Regulatory Blog (Latham & Watkins LLP)"),
    SourceEntry("gtlaw-financialservicesobserver", "Financial Services Observer (Greenberg Traurig)"),
    SourceEntry("mycomplianceoffice", "MyComplianceOffice Blog"),
    SourceEntry("globalcompliancenews", "Global Compliance News (Baker McKenzie)"),
    SourceEntry("wwqqjxqkqqvdy67ypt4s", "Risk & Compliance Journal (Deloitte / WSJ)"),
    SourceEntry("consumerfinance.gov", "Consumer Financial Protection Bureau (CFPB)"),
    SourceEntry("USFDIC", "Federal Deposit Insurance Corporation (FDIC)"),
    SourceEntry("federalreserve", "Federal Reserve Board (FRB)"),
    SourceEntry("occ.gov", "Office of the Comptroller of the Currency (OCC)"),
    SourceEntry("sec.gov", "Securities and Exchange Commission (SEC)")
  ]

  const UnknownSource := "Unknown Source"

  /** The entry's url occurs in the link, ignoring case. */
  predicate LinkMatches(link: string, entry: SourceEntry) {
    Strings.Includes(Strings.Lower(link), Strings.Lower(entry.url))
  }

  /** `entries.find(...)`, as the index of the first entry whose url occurs in the link. */
  function FirstMatch(link: string, entries: seq<SourceEntry>): (r: Option<nat>)
    ensures r.Some? ==> r.value < |entries| && LinkMatches(link, entries[r.value])
    ensures r.Some? ==> forall j :: 0 <= j < r.value ==> !LinkMatches(link, entries[j])
    ensures r.None? ==> forall j :: 0 <= j < |entries| ==> !LinkMatches(link, entries[j])
  {
    if entries == [] then None
    else if LinkMatches(link, entries[0]) then Some(0)
    else
      match FirstMatch(link, entries[1..])
      case None => None
      case Some(k) => Some(k + 1)
  }

  /** `mapping?.name || "Unknown Source"` over a given list of entries. */
  function SourceName(link: string, entries: seq<SourceEntry>): (name: string)
    ensures (forall j :: 0 <= j < |entries| ==> !LinkMatches(link, entries[j])) ==> name == UnknownSource
    ensures forall i :: (0 <= i < |entries| && LinkMatches(link, entries[i]) && entries[i].name != "" &&
                         (forall j :: 0 <= j < i ==> !LinkMatches(link, entries[j]))) ==>
      name == entries[i].name
  {
    match FirstMatch(link, entries)
    case None => UnknownSource
    case Some(i) => if entries[i].name != "" then entries[i].name else UnknownSource
  }

  lemma MappingNamed()
    ensures forall i :: 0 <= i < |SourceMapping| ==> SourceMapping[i].name != ""
  {
  }

  /** The publisher shown on an item card. */
  function GetSourceFromLink(link: string): (name: string)
    ensures (forall j :: 0 <= j < |SourceMapping| ==> !LinkMatches(link, SourceMapping[j])) ==>
      name == UnknownSource
    ensures forall i :: (0 <= i < |SourceMapping| && LinkMatches(link, SourceMapping[i]) &&
                         (forall j :: 0 <= j < i ==> !LinkMatches(link, SourceMapping[j]))) ==>
      name == SourceMapping[i].name
  {
    MappingNamed();
    SourceName(link, SourceMapping)
  }

  // ---------------------------------------------------------------------------
  // Merging, filtering and sorting (`sortedItems`)
  // ---------------------------------------------------------------------------

  /** An item as the component holds it: tagged with its feed's title and its parsed date. */
  datatype DisplayItem = DisplayItem(item: FeedItem, sourceTitle: string, dateObj: Option<int>)

  function TagFeed(feed: Feed, parse: string -> Option<int>): (r: seq<DisplayItem>)
    ensures |r| == |feed.items|
    ensures forall i :: 0 <= i < |r| ==>
      r[i] == DisplayItem(feed.items[i], feed.title, parse(feed.items[i].pubDate))
  {
    seq(|feed.items|, i requires 0 <= i < |feed.items| =>
        DisplayItem(feed.items[i], feed.title, parse(feed.items[i].pubDate)))
  }

  /** `feeds.flatMap(...)`: every item of every feed, feed by feed. */
  function Tag(feeds: seq<Feed>, parse: string -> Option<int>): seq<DisplayItem> {
    Seqs.FlatMap(feeds, feed => TagFeed(feed, parse))
  }

  predicate HasValidDate(x: DisplayItem) {
    x.dateObj.Some?
  }

  /** `.filter(item => !isNaN(item.dateObj.getTime()))` */
  function KeepDated(xs: seq<DisplayItem>): seq<DisplayItem> {
    Seqs.Filter(xs, HasValidDate)
  }

  /** The sort key; only ever applied to items with a valid date. */
  function TimeOf(x: DisplayItem): int {
    x.dateObj.GetOr(0)
  }

  function SortedItems(feeds: seq<Feed>, parse: string -> Option<int>): seq<DisplayItem> {
    Ordering.SortNewestFirst(KeepDated(Tag(feeds, parse)), TimeOf)
  }

  /** An item of feed `f` at position `i`, tagged as `sortedItems` tags it. */
  ghost predicate IsTaggedInput(feeds: seq<Feed>, parse: string -> Option<int>, x: DisplayItem) {
    exists f, i :: 0 <= f < |feeds| && 0 <= i < |feeds[f].items| &&
      x == DisplayItem(feeds[f].items[i], feeds[f].title, parse(feeds[f].items[i].pubDate))
  }

  lemma TagExact(feeds: seq<Feed>, parse: string -> Option<int>, x: DisplayItem)
    ensures x in Tag(feeds, parse) <==> IsTaggedInput(feeds, parse, x)
  {
    Seqs.FlatMapMember(feeds, feed => TagFeed(feed, parse), x);
    if x in Tag(feeds, parse) {
      var f :| 0 <= f < |feeds| && x in TagFeed(feeds[f], parse);
      var i :| 0 <= i < |feeds[f].items| && TagFeed(feeds[f], parse)[i] == x;
    }
    if IsTaggedInput(feeds, parse, x) {
      var f, i :| 0 <= f < |feeds| && 0 <= i < |feeds[f].items| &&
        x == DisplayItem(feeds[f].items[i], feeds[f].title, parse(feeds[f].items[i].pubDate));
      assert TagFeed(feeds[f], parse)[i] == x;
    }
  }

  /**
   * `sortedItems` holds exactly the input items whose date parses, each tagged
   * with its own feed's title, newest first.
   */
  lemma SortedItemsSpec(feeds: seq<Feed>, parse: string -> Option<int>)
    ensures Ordering.NewestFirst(SortedItems(feeds, parse), TimeOf)
    ensures multiset(SortedItems(feeds, parse)) == multiset(KeepDated(Tag(feeds, parse)))
    ensures forall x :: x in SortedItems(feeds, parse) <==>
      IsTaggedInput(feeds, parse, x) && HasValidDate(x)
  {
    var kept := KeepDated(Tag(feeds, parse));
    var sorted := SortedItems(feeds, parse);
    forall x
      ensures x in sorted <==> IsTaggedInput(feeds, parse, x) && HasValidDate(x)
    {
      TagExact(feeds, parse, x);
      assert x in sorted <==> x in multiset(sorted);
      assert x in kept <==> x in multiset(kept);
    }
  }

  // ---------------------------------------------------------------------------
  // Page arithmetic
  // ---------------------------------------------------------------------------

  /** `Math.ceil(n / ITEMS_PER_PAGE)` */
  function TotalPages(n: nat): (pages: nat)
    ensures pages * ItemsPerPage >= n
    ensures pages > 0 ==> (pages - 1) * ItemsPerPage < n
  {
    (n + ItemsPerPage - 1) / ItemsPerPage
  }

  function StartIndex(currentPage: int): int {
    (currentPage - 1) * ItemsPerPage
  }

  function EndIndex(currentPage: int): int {
    StartIndex(currentPage) + ItemsPerPage
  }

  /** `Array.prototype.slice`, including its reading of negative positions. */
  function JsSlice<T>(s: seq<T>, start: int, end: int): (r: seq<T>)
    ensures |r| <= |s|
  {
    var from := if start < 0 then EnforceMax(|s| + start) else if start < |s| then start else |s|;
    var to := if end < 0 then EnforceMax(|s| + end) else if end < |s| then end else |s|;
    if from < to then s[from..to] else []
  }

  function EnforceMax(x: int): nat {
    if x < 0 then 0 else x
  }

  function CurrentItems<T>(items: seq<T>, currentPage: int): seq<T> {
    JsSlice(items, StartIndex(currentPage), EndIndex(currentPage))
  }

  /**
   * A page from 1 on shows the items from `(p - 1) * 10` up to ten further,
   * clipped to the list; the "Showing" line's upper bound is the position of
   * the page's last item.
   */
  lemma CurrentItemsSpec<T>(items: seq<T>, currentPage: int)
    requires currentPage >= 1
    ensures var from := StartIndex(currentPage);
      var to := if EndIndex(currentPage) < |items| then EndIndex(currentPage) else |items|;
      CurrentItems(items, currentPage) == (if from < |items| then items[from..to] else [])
    ensures |CurrentItems(items, currentPage)| <= ItemsPerPage
    ensures StartIndex(currentPage) < |items| ==>
      StartIndex(currentPage) + |CurrentItems(items, currentPage)| == ShowingUpper(currentPage, |items|)
  {
  }

  /** `Math.min(endIndex, totalItems)` in the "Showing a-b of n items" line. */
  function ShowingUpper(currentPage: int, totalItems: int): int {
    if EndIndex(currentPage) < totalItems then EndIndex(currentPage) else totalItems
  }

  /** Every item is shown on exactly one page: item `k` on page `k / 10 + 1`. */
  lemma {:induction false} ItemOnPage<T>(items: seq<T>, k: nat)
    requires k < |items|
    ensures 1 <= k / ItemsPerPage + 1 <= TotalPages(|items|)
    ensures k % ItemsPerPage < |CurrentItems(items, k / ItemsPerPage + 1)|
    ensures CurrentItems(items, k / ItemsPerPage + 1)[k % ItemsPerPage] == items[k]
    ensures forall p :: p >= 1 && p != k / ItemsPerPage + 1 ==>
      var from := StartIndex(p); !(from <= k < from + |CurrentItems(items, p)|)
  {
    var p := k / ItemsPerPage + 1;
    assert StartIndex(p) == k - k % ItemsPerPage;
    forall q | q >= 1 && q != p
      ensures var from := StartIndex(q); !(from <= k < from + |CurrentItems(items, q)|)
    {
      CurrentItemsSpec(items, q);
      if q < p {
        assert StartIndex(q) + ItemsPerPage <= StartIndex(p);
      } else {
        assert StartIndex(q) >= StartIndex(p) + ItemsPerPage;
      }
    }
  }

  // ---------------------------------------------------------------------------
  // Pagination controls
  // ---------------------------------------------------------------------------

  /** What the control strip renders for one page number. */
  datatype Slot = Button(page: int, active: bool) | Dots | Hidden

  predicate ShowsButton(page: int, currentPage: int, totalPages: int) {
    page == 1 || page == totalPages || (currentPage - 1 <= page <= currentPage + 1)
  }

  function SlotFor(page: int, currentPage: int, totalPages: int): Slot {
    if ShowsButton(page, currentPage, totalPages) then Button(page, currentPage == page)
    else if page == currentPage - 2 || page == currentPage + 2 then Dots
    else Hidden
  }

  datatype Controls = Controls(
    showingFrom: int, showingTo: int, totalItems: int,
    previousDisabled: bool, slots: seq<Slot>, nextDisabled: bool)

  /** `PaginationControls`: nothing at all for a single page, else the strip. */
  function PaginationControls(currentPage: int, totalPages: nat, totalItems: int): (r: Option<Controls>)
    ensures r.None? <==> totalPages <= 1
    ensures r.Some? ==> |r.value.slots| == totalPages
    ensures r.Some? ==> forall i :: 0 <= i < totalPages ==> r.value.slots[i] == SlotFor(i + 1, currentPage, totalPages)
    ensures r.Some? ==> (r.value.previousDisabled <==> currentPage == 1)
    ensures r.Some? ==> (r.value.nextDisabled <==> currentPage == totalPages)
    ensures r.Some? ==> r.value.showingFrom == StartIndex(currentPage) + 1
    ensures r.Some? ==> r.value.showingTo == ShowingUpper(currentPage, totalItems)
  {
    if totalPages <= 1 then None
    else
      Some(Controls(StartIndex(currentPage) + 1, ShowingUpper(currentPage, totalItems), totalItems,
                    currentPage == 1,
                    seq(totalPages, i requires 0 <= i < totalPages => SlotFor(i + 1, currentPage, totalPages)),
                    currentPage == totalPages))
  }

  /**
   * The strip marks every gap it leaves: between the current page and any page
   * it hides there is an ellipsis; the first, the last and the current page
   * are always buttons, the current one active.
   */
  lemma HiddenPagesBehindDots(currentPage: int, totalPages: int, page: int)
    requires 1 <= currentPage <= totalPages && 1 <= page <= totalPages
    ensures SlotFor(page, currentPage, totalPages) == Hidden && page < currentPage ==>
      page < currentPage - 2 && SlotFor(currentPage - 2, currentPage, totalPages) == Dots
    ensures SlotFor(page, currentPage, totalPages) == Hidden && page > currentPage ==>
      currentPage + 2 < page && SlotFor(currentPage + 2, currentPage, totalPages) == Dots
    ensures SlotFor(1, currentPage, totalPages).Button?
    ensures SlotFor(totalPages, currentPage, totalPages).Button?
    ensures SlotFor(currentPage, currentPage, totalPages) == Button(currentPage, true)
  {
  }

  /** How many of the pages `1..k` the strip shows as numbered buttons. */
  function CountButtons(currentPage: int, totalPages: int, k: nat): nat {
    if k == 0 then 0
    else CountButtons(currentPage, totalPages, k - 1) + (if ShowsButton(k, currentPage, totalPages) then 1 else 0)
  }

  /** How many of the pages `1..k` lie within one of the current page. */
  function WindowCount(currentPage: int, k: nat): nat {
    var lo := if currentPage - 1 >= 1 then currentPage - 1 else 1;
    var hi := if k <= currentPage + 1 then k else currentPage + 1;
    if hi >= lo then hi - lo + 1 else 0
  }

  lemma {:induction false} CountButtonsBound(currentPage: int, totalPages: int, k: nat)
    ensures CountButtons(currentPage, totalPages, k) <=
      (if k >= 1 then 1 else 0) + (if 2 <= totalPages <= k then 1 else 0) + WindowCount(currentPage, k)
  {
    if k > 0 {
      CountButtonsBound(currentPage, totalPages, k - 1);
    }
  }

  /** At most five numbered buttons: first, last, and the current page with its neighbours. */
  lemma AtMostFiveButtons(currentPage: int, totalPages: nat)
    ensures CountButtons(currentPage, totalPages, totalPages) <= 5
  {
    CountButtonsBound(currentPage, totalPages, totalPages);
  }

  // ---------------------------------------------------------------------------
  // Component state and view
  // ---------------------------------------------------------------------------

  /** The only state of the component: the page being shown. */
  class FeedPager {
    var currentPage: int

    ghost predicate Valid()
      reads this
    {
      currentPage >= 1
    }

    constructor ()
      ensures Valid() && currentPage == 1
    {
      currentPage := 1;
    }

    /** `goToPage` (the scroll to the top is not modelled). */
    method GoToPage(page: int)
      modifies this
      ensures currentPage == page
    {
      currentPage := page;
    }

    /**
     * The Previous button: disabled on page 1, otherwise one page back. The
     * buttons exist only when there are at least two pages.
     */
    method ClickPrevious(totalPages: nat)
      requires Valid() && totalPages >= 2
      modifies this
      ensures Valid()
      ensures currentPage == if old(currentPage) == 1 then 1 else old(currentPage) - 1
    {
      if currentPage != 1 {
        GoToPage(currentPage - 1);
      }
    }

    /** The Next button: disabled on the last page, otherwise one page on. */
    method ClickNext(totalPages: nat)
      requires Valid() && totalPages >= 2
      modifies this
      ensures Valid()
      ensures currentPage == if old(currentPage) == totalPages then old(currentPage) else old(currentPage) + 1
    {
      if currentPage != totalPages {
        GoToPage(currentPage + 1);
      }
    }

    /** A numbered button: only pages that are shown as buttons can be clicked. */
    method ClickPage(page: int, totalPages: nat)
      requires Valid() && totalPages >= 2
      modifies this
      ensures Valid()
      ensures currentPage == if 1 <= page <= totalPages && ShowsButton(page, old(currentPage), totalPages)
                             then page else old(currentPage)
    {
      if 1 <= page <= totalPages && ShowsButton(page, currentPage, totalPages) {
        GoToPage(page);
      }
    }
  }

  /** One rendered item card; its publisher comes from the link, not from the feed title. */
  datatype Card = Card(title: string, link: string, pubDate: string, publisher: string, snippet: string)

  datatype FeedView =
    | NoFeeds
    | Listing(top: Option<Controls>, cards: seq<Card>, bottom: Option<Controls>)

  function CardOf(x: DisplayItem): Card {
    Card(x.item.title, x.item.link, x.item.pubDate, GetSourceFromLink(x.item.link), x.item.contentSnippet)
  }

  /** One card per item, in order, each naming the publisher its link points to. */
  function Cards(page: seq<DisplayItem>): (cards: seq<Card>)
    ensures |cards| == |page|
    ensures forall i :: 0 <= i < |page| ==> cards[i].link == page[i].item.link && cards[i].title == page[i].item.title
    ensures forall i :: 0 <= i < |cards| ==> cards[i].publisher == GetSourceFromLink(cards[i].link)
  {
    seq(|page|, i requires 0 <= i < |page| => CardOf(page[i]))
  }

  /** What `RSSFeed` renders for the given feeds on the given page. */
  function Render(feeds: seq<Feed>, parse: string -> Option<int>, currentPage: int): (v: FeedView)
    ensures feeds == [] <==> v == NoFeeds
    ensures v.Listing? ==> v.top == v.bottom
    ensures v.Listing? ==>
      v.top == PaginationControls(currentPage, TotalPages(|SortedItems(feeds, parse)|), |SortedItems(feeds, parse)|)
    ensures v.Listing? ==> |v.cards| == |CurrentItems(SortedItems(feeds, parse), currentPage)|
    ensures v.Listing? ==> forall i :: 0 <= i < |v.cards| ==>
      v.cards[i].link == CurrentItems(SortedItems(feeds, parse), currentPage)[i].item.link &&
      v.cards[i].title == CurrentItems(SortedItems(feeds, parse), currentPage)[i].item.title
    ensures v.Listing? ==> forall i :: 0 <= i < |v.cards| ==>
      v.cards[i].publisher == GetSourceFromLink(v.cards[i].link)
  {
    if feeds == [] then NoFeeds
    else
      var items := SortedItems(feeds, parse);
      var controls := PaginationControls(currentPage, TotalPages(|items|), |items|);
      Listing(controls, Cards(CurrentItems(items, currentPage)), controls)
  }

  /** On a page from 1 on, at most ten cards are shown. */
  lemma AtMostTenCards(feeds: seq<Feed>, parse: string -> Option<int>, currentPage: int)
    requires currentPage >= 1
    ensures Render(feeds, parse, currentPage).Listing? ==> |Render(feeds, parse, currentPage).cards| <= ItemsPerPage
  {
    CurrentItemsSpec(SortedItems(feeds, parse), currentPage);
  }
}
