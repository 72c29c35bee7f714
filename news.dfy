/**
 * The server side of the news page: it reads five publisher feeds, fills in
 * missing fields, tags every item with its feed's title, sorts all items
 * newest first in place and hands one combined feed to the feed component.
 * Feed reading is a parameter (`fetch(url)`, `None` when reading fails); so
 * is date parsing (`timeOf(pubDate)`), which this page is taken to apply to
 * dates that parse; and so is the clock (`threeMonthsAgo`).
 */
module NewsPage {
  import opened Wrappers
  import Strings
  import Ordering
  import Seqs
  import RssFeed

  /** The feeds read, in order. */
  const FeedUrls: seq<string> := [
    "https://www.globalfinregblog.com/feed/",
    "https://www.morganlewis.com/rss/blogs?category=finreg&amp;top=15",
    "https://www.gtlaw-financialservicesobserver.com/feed/",
    "https://mco.mycomplianceoffice.com/blog/rss.xml",
    "https://www.globalcompliancenews.com/feed/"
  ]

  /** What the feed parser returns; any field may be missing. */
  datatype RawItem = RawItem(title: Option<string>, link: Option<string>, pubDate: Option<string>, contentSnippet: Option<string>)
  datatype RawFeed = RawFeed(title: Option<string>, items: seq<RawItem>)

  /** An item after default substitution, before it is tagged with a source. */
  datatype Entry = Entry(title: string, link: string, pubDate: string, contentSnippet: string)
  datatype NamedFeed = NamedFeed(title: string, entries: seq<Entry>)

  /** `value || fallback`: a missing or empty string is replaced. */
  function Or(v: Option<string>, fallback: string): (r: string)
    ensures v.Some? && v.value != "" ==> r == v.value
    ensures (v.None? || v.value == "") ==> r == fallback
  {
    if v.Some? && v.value != "" then v.value else fallback
  }

  function NormalizeItem(raw: RawItem): (e: Entry)
    ensures e.title != "" && e.link != "" && e.pubDate != "" && e.contentSnippet != ""
    ensures e.title == Or(raw.title, "No Title") && e.link == Or(raw.link, "#")
    ensures e.pubDate == Or(raw.pubDate, "Unknown Date") && e.contentSnippet == Or(raw.contentSnippet, "No Description")
  {
    Entry(Or(raw.title, "No Title"), Or(raw.link, "#"), Or(raw.pubDate, "Unknown Date"),
          Or(raw.contentSnippet, "No Description"))
  }

  function NormalizeFeed(raw: RawFeed): (f: NamedFeed)
    ensures f.title != "" && f.title == Or(raw.title, "No Title")
    ensures |f.entries| == |raw.items|
    ensures forall i :: 0 <= i < |raw.items| ==> f.entries[i] == NormalizeItem(raw.items[i])
  {
    NamedFeed(Or(raw.title, "No Title"),
              seq(|raw.items|, i requires 0 <= i < |raw.items| => NormalizeItem(raw.items[i])))
  }

  /** One entry of a feed, with `source` set to the feed's title. */
  function WithSource(e: Entry, feedTitle: string): RssFeed.FeedItem {
    RssFeed.FeedItem(e.title, e.link, e.pubDate, e.contentSnippet, feedTitle)
  }

  function Tagged(feed: NamedFeed): (r: seq<RssFeed.FeedItem>)
    ensures |r| == |feed.entries|
    ensures forall i :: 0 <= i < |r| ==> r[i] == WithSource(feed.entries[i], feed.title)
  {
    seq(|feed.entries|, i requires 0 <= i < |feed.entries| => WithSource(feed.entries[i], feed.title))
  }

  /** `feeds.flatMap(...)`: all items of all feeds, feed by feed. */
  function Combine(feeds: seq<NamedFeed>): seq<RssFeed.FeedItem> {
    Seqs.FlatMap(feeds, Tagged)
  }

  /** The item count of the raw feeds. */
  function TotalRawItems(raws: seq<RawFeed>): nat {
    if raws == [] then 0 else |raws[0].items| + TotalRawItems(raws[1..])
  }

  /**
   * Combining keeps every item: the combined list is as long as all raw item
   * lists together, and each element is some feed's normalized item carrying
   * that feed's (normalized) title as its source.
   */
  lemma {:induction false} CombineSpec(raws: seq<RawFeed>)
    ensures |Combine(Normalized(raws))| == TotalRawItems(raws)
    ensures forall x :: x in Combine(Normalized(raws)) <==>
      exists f, i :: 0 <= f < |raws| && 0 <= i < |raws[f].items| &&
        x == WithSource(NormalizeItem(raws[f].items[i]), Or(raws[f].title, "No Title"))
  {
    var feeds := Normalized(raws);
    Seqs.FlatMapLength(feeds, Tagged);
    SumOfTagged(raws);
    forall x
      ensures x in Combine(feeds) <==>
        exists f, i :: 0 <= f < |raws| && 0 <= i < |raws[f].items| &&
          x == WithSource(NormalizeItem(raws[f].items[i]), Or(raws[f].title, "No Title"))
    {
      Seqs.FlatMapMember(feeds, Tagged, x);
      if x in Combine(feeds) {
        var f :| 0 <= f < |feeds| && x in Tagged(feeds[f]);
        var i :| 0 <= i < |Tagged(feeds[f])| && Tagged(feeds[f])[i] == x;
        assert x == WithSource(NormalizeItem(raws[f].items[i]), Or(raws[f].title, "No Title"));
      }
      if exists f, i :: 0 <= f < |raws| && 0 <= i < |raws[f].items| &&
          x == WithSource(NormalizeItem(raws[f].items[i]), Or(raws[f].title, "No Title")) {
        var f, i :| 0 <= f < |raws| && 0 <= i < |raws[f].items| &&
          x == WithSource(NormalizeItem(raws[f].items[i]), Or(raws[f].title, "No Title"));
        assert Tagged(feeds[f])[i] == x;
      }
    }
  }

  lemma {:induction false} SumOfTagged(raws: seq<RawFeed>)
    ensures Seqs.SumLengths(Normalized(raws), Tagged) == TotalRawItems(raws)
  {
    if raws != [] {
      SumOfTagged(raws[1..]);
      assert Normalized(raws)[1..] == Normalized(raws[1..]);
    }
  }

  function Normalized(raws: seq<RawFeed>): (r: seq<NamedFeed>)
    ensures |r| == |raws|
    ensures forall f :: 0 <= f < |raws| ==> r[f] == NormalizeFeed(raws[f])
  {
    seq(|raws|, f requires 0 <= f < |raws| => NormalizeFeed(raws[f]))
  }

  // ---------------------------------------------------------------------------
  // Sorting in place
  // ---------------------------------------------------------------------------

  /**
   * `allItems.sort((a, b) => key(b) - key(a))`: reorders the array so that
   * keys do not increase, keeping the same elements. Insertion sort, which is
   * stable as the host's sort is.
   */
  method SortInPlace<T>(a: array<T>, key: T -> int)
    modifies a
    ensures Ordering.NewestFirst(a[..], key)
    ensures multiset(a[..]) == old(multiset(a[..]))
  {
    var i := 0;
    while i < a.Length
      invariant 0 <= i <= a.Length
      invariant SortedPrefix(a[..], key, i)
      invariant multiset(a[..]) == old(multiset(a[..]))
    {
      Sink(a, key, i);
      i := i + 1;
    }
  }

  /** The first `n` elements are newest first. */
  ghost predicate SortedPrefix<T>(s: seq<T>, key: T -> int, n: nat)
    requires n <= |s|
  {
    forall p, q :: 0 <= p < q < n ==> key(s[p]) >= key(s[q])
  }

  /** One pass of the insertion: moves `a[i]` left past every element older than it. */
  method Sink<T>(a: array<T>, key: T -> int, i: nat)
    requires i < a.Length
    requires SortedPrefix(a[..], key, i)
    modifies a
    ensures SortedPrefix(a[..], key, i + 1)
    ensures multiset(a[..]) == old(multiset(a[..]))
  {
    var j: nat := i;
    SinkStart(a[..], key, i);
    while j > 0 && key(a[j - 1]) < key(a[j])
      invariant SinkState(a[..], key, i, j)
      invariant multiset(a[..]) == old(multiset(a[..]))
    {
      ghost var before := a[..];
      SinkStep(before, key, i, j);
      a[j - 1], a[j] := a[j], a[j - 1];
      assert a[..] == Swap(before, j - 1, j);
      j := j - 1;
    }
    SinkDone(a[..], key, i, j);
  }

  function Swap<T>(s: seq<T>, x: nat, y: nat): seq<T>
    requires x < |s| && y < |s|
  {
    s[x := s[y]][y := s[x]]
  }

  /** While sinking: the first `i + 1` elements are newest first except for the one at `j`, which is newer than all after it. */
  ghost predicate SinkState<T>(s: seq<T>, key: T -> int, i: nat, j: nat) {
    j <= i < |s| &&
    (forall p, q :: 0 <= p < q <= i && p != j && q != j ==> key(s[p]) >= key(s[q])) &&
    (forall q :: j < q <= i ==> key(s[j]) > key(s[q]))
  }

  lemma SinkStart<T>(s: seq<T>, key: T -> int, i: nat)
    requires i < |s| && SortedPrefix(s, key, i)
    ensures SinkState(s, key, i, i)
  {
  }

  lemma SinkStep<T>(s: seq<T>, key: T -> int, i: nat, j: nat)
    requires SinkState(s, key, i, j) && 0 < j && key(s[j - 1]) < key(s[j])
    ensures SinkState(Swap(s, j - 1, j), key, i, j - 1)
    ensures multiset(Swap(s, j - 1, j)) == multiset(s)
  {
    var t := Swap(s, j - 1, j);
    forall p, q | 0 <= p < q <= i && p != j - 1 && q != j - 1
      ensures key(t[p]) >= key(t[q])
    {
      if q == j {
        assert t[q] == s[j - 1];
        if p < j - 1 {
          assert key(s[p]) >= key(s[j - 1]);
        }
      } else if p == j {
        assert t[p] == s[j - 1];
        assert key(s[j - 1]) >= key(s[q]);
      }
    }
  }

  lemma SinkDone<T>(s: seq<T>, key: T -> int, i: nat, j: nat)
    requires SinkState(s, key, i, j) && (j == 0 || key(s[j - 1]) >= key(s[j]))
    ensures SortedPrefix(s, key, i + 1)
  {
    forall p, q | 0 <= p < q < i + 1
      ensures key(s[p]) >= key(s[q])
    {
      if p == j {
      } else if q == j {
        if p < j - 1 {
          assert key(s[p]) >= key(s[j - 1]);
        }
      }
    }
  }

  // ---------------------------------------------------------------------------
  // The two filters
  // ---------------------------------------------------------------------------

  /** `item => new Date(item.pubDate) > threeMonthsAgo` */
  function KeepRecent(items: seq<RssFeed.FeedItem>, timeOf: string -> int, threeMonthsAgo: int): seq<RssFeed.FeedItem> {
    Seqs.Filter(items, (x: RssFeed.FeedItem) => timeOf(x.pubDate) > threeMonthsAgo)
  }

  /** The titles of account notices that the page means to leave out. */
  predicate IsAccountNotice(title: string) {
    Strings.Includes(title, "Action Required: Confirm Your WSJ Newsletter") ||
    Strings.Includes(title, "Action Required: Set a password")
  }

  function DropAccountNotices(items: seq<RssFeed.FeedItem>): seq<RssFeed.FeedItem> {
    Seqs.Filter(items, (x: RssFeed.FeedItem) => !IsAccountNotice(x.title))
  }

  // ---------------------------------------------------------------------------
  // fetchFeeds
  // ---------------------------------------------------------------------------

  function KeyOf(timeOf: string -> int): RssFeed.FeedItem -> int {
    (x: RssFeed.FeedItem) => timeOf(x.pubDate)
  }

  function Raws(fetch: string -> Option<RawFeed>): seq<RawFeed>
    requires forall k :: 0 <= k < |FeedUrls| ==> fetch(FeedUrls[k]).Some?
  {
    seq(|FeedUrls|, k requires 0 <= k < |FeedUrls| => fetch(FeedUrls[k]).value)
  }

  /**
   * `fetchFeeds` as written: fails when any feed cannot be read; otherwise one
   * feed titled "Combined Feed" with every item of every feed, newest first.
   * The results of both filters are discarded, so nothing is removed.
   */
  method FetchFeeds(fetch: string -> Option<RawFeed>, timeOf: string -> int, threeMonthsAgo: int)
    returns (result: Option<seq<RssFeed.Feed>>)
    ensures result.None? <==> exists k :: 0 <= k < |FeedUrls| && fetch(FeedUrls[k]).None?
    ensures result.Some? ==> |result.value| == 1 && result.value[0].title == "Combined Feed"
    ensures result.Some? ==>
      multiset(result.value[0].items) == multiset(Combine(Normalized(Raws(fetch))))
    ensures result.Some? ==> |result.value[0].items| == TotalRawItems(Raws(fetch))
    ensures result.Some? ==> Ordering.NewestFirst(result.value[0].items, KeyOf(timeOf))
    ensures result.Some? ==> forall x :: x in result.value[0].items <==> x in Combine(Normalized(Raws(fetch)))
  {
    if exists k :: 0 <= k < |FeedUrls| && fetch(FeedUrls[k]).None? {
      // Promise.all rejects as soon as one feed fails.
      return None;
    }
    var raws := Raws(fetch);
    var allItems := Combine(Normalized(raws));
    CombineSpec(raws);
    var a := new RssFeed.FeedItem[|allItems|](i requires 0 <= i < |allItems| => allItems[i]);
    assert a[..] == allItems;
    SortInPlace(a, KeyOf(timeOf));
    // Both filters build new arrays that are never used.
    var recent := KeepRecent(a[..], timeOf, threeMonthsAgo);
    var withoutNotices := DropAccountNotices(a[..]);
    assert |a[..]| == |multiset(a[..])| == |multiset(allItems)| == |allItems|;
    forall x
      ensures x in a[..] <==> x in allItems
    {
      assert x in a[..] <==> x in multiset(a[..]);
    }
    result := Some([RssFeed.Feed("Combined Feed", a[..])]);
  }

  /** What the comments before the two filters describe: the combined feed without stale items and account notices. */
  method FetchFeedsFiltered(fetch: string -> Option<RawFeed>, timeOf: string -> int, threeMonthsAgo: int)
    returns (result: Option<seq<RssFeed.Feed>>)
    ensures result.None? <==> exists k :: 0 <= k < |FeedUrls| && fetch(FeedUrls[k]).None?
    ensures result.Some? ==> |result.value| == 1 && result.value[0].title == "Combined Feed"
    ensures result.Some? ==> forall x :: x in result.value[0].items <==>
      x in Combine(Normalized(Raws(fetch))) && timeOf(x.pubDate) > threeMonthsAgo && !IsAccountNotice(x.title)
  {
    var combined := FetchFeeds(fetch, timeOf, threeMonthsAgo);
    if combined.None? {
      return None;
    }
    var items := combined.value[0].items;
    var kept := DropAccountNotices(KeepRecent(items, timeOf, threeMonthsAgo));
    result := Some([RssFeed.Feed("Combined Feed", kept)]);
  }

  /**
   * Any item older than the cut-off reaches the page all the same: item `i`
   * of feed `f`, once normalised and tagged, is in the combined feed although
   * its date is not after `threeMonthsAgo`.
   */
  method StaleItemReachesPage(fetch: string -> Option<RawFeed>, timeOf: string -> int, threeMonthsAgo: int, f: nat, i: nat)
    returns (result: Option<seq<RssFeed.Feed>>, stale: RssFeed.FeedItem)
    requires forall k :: 0 <= k < |FeedUrls| ==> fetch(FeedUrls[k]).Some?
    requires f < |FeedUrls| && i < |fetch(FeedUrls[f]).value.items|
    requires timeOf(NormalizeItem(fetch(FeedUrls[f]).value.items[i]).pubDate) <= threeMonthsAgo
    ensures stale == WithSource(NormalizeItem(fetch(FeedUrls[f]).value.items[i]), NormalizeFeed(fetch(FeedUrls[f]).value).title)
    ensures !(timeOf(stale.pubDate) > threeMonthsAgo)
    ensures result.Some? && |result.value| == 1 && stale in result.value[0].items
  {
    var raws := Raws(fetch);
    stale := WithSource(NormalizeItem(raws[f].items[i]), Or(raws[f].title, "No Title"));
    CombineSpec(raws);
    assert stale in Combine(Normalized(raws));
    result := FetchFeeds(fetch, timeOf, threeMonthsAgo);
  }
}
