/**
 * Server-paged tables of enforcement actions (the FRB and FDIC clients,
 * which share this code word for word): the window of page-number buttons,
 * the guards on the First/Previous/Next/Last buttons, and the client state
 * that a page fetch updates.
 */
module EnforcementPaging {
  import opened Wrappers
  import Strings

  /** How many page-number buttons the window shows at most. */
  const ShowPages := 5

  datatype PaginationMetadata = PaginationMetadata(totalCount: int, currentPage: int, pageSize: int, totalPages: int)

  function Max(a: int, b: int): int { if a >= b then a else b }
  function Min(a: int, b: int): int { if a <= b then a else b }

  /**
   * The page numbers shown between the arrow buttons: up to five consecutive
   * pages around the current one, shifted to stay inside `1..totalPages`.
   */
  method GetPageRange(metadata: PaginationMetadata) returns (range: seq<int>)
    ensures |range| == Max(0, Min(ShowPages, metadata.totalPages))
    ensures forall k :: 0 <= k < |range| ==> 1 <= range[k] <= metadata.totalPages
    ensures forall k :: 0 < k < |range| ==> range[k] == range[k - 1] + 1
    ensures |range| > 0 ==>
      range[0] == Max(1, Min(metadata.currentPage - 2, metadata.totalPages - ShowPages + 1))
    ensures 1 <= metadata.currentPage <= metadata.totalPages ==> metadata.currentPage in range
    ensures 3 <= metadata.currentPage <= metadata.totalPages - 2 ==>
      var c := metadata.currentPage; range == [c - 2, c - 1, c, c + 1, c + 2]
  {
    var start := Max(1, metadata.currentPage - ShowPages / 2);
    var end := Min(metadata.totalPages, start + ShowPages - 1);
    if end - start + 1 < ShowPages {
      start := Max(1, end - ShowPages + 1);
    }
    range := [];
    var i := start;
    while i <= end
      invariant start <= i <= Max(start, end + 1)
      invariant |range| == i - start
      invariant forall k :: 0 <= k < |range| ==> range[k] == start + k
    {
      range := range + [i];
      i := i + 1;
    }
    var c := metadata.currentPage;
    if 1 <= c <= metadata.totalPages {
      assert range[c - start] == c;
    }
  }

  // ---------------------------------------------------------------------------
  // Navigation buttons
  // ---------------------------------------------------------------------------

  datatype NavButton = First | Previous | Next | Last

  /** The page a navigation button asks for. */
  function Target(metadata: PaginationMetadata, button: NavButton): int {
    match button
    case First => 1
    case Previous => metadata.currentPage - 1
    case Next => metadata.currentPage + 1
    case Last => metadata.totalPages
  }

  /** The `disabled` attribute of a navigation button; `loading` disables every button. */
  predicate Disabled(metadata: PaginationMetadata, loading: bool, button: NavButton) {
    match button
    case First | Previous => metadata.currentPage == 1 || loading
    case Next | Last => metadata.currentPage == metadata.totalPages || loading
  }

  /** `handlePageChange` fetches only for a page other than the current one. */
  predicate ChangesPage(metadata: PaginationMetadata, page: int) {
    page != metadata.currentPage
  }

  /**
   * An enabled navigation button always leads to a fetch, and for First and
   * Last the disabled state (outside loading) is exactly the case where the
   * click would do nothing.
   */
  lemma EnabledButtonFetches(metadata: PaginationMetadata, loading: bool, button: NavButton)
    ensures !Disabled(metadata, loading, button) ==> ChangesPage(metadata, Target(metadata, button))
    ensures button == First || button == Last ==>
      (Disabled(metadata, false, button) <==> !ChangesPage(metadata, Target(metadata, button)))
    ensures loading ==> Disabled(metadata, loading, button)
  {
  }

  // ---------------------------------------------------------------------------
  // Client state
  // ---------------------------------------------------------------------------

  /** The JSON body of a successful page request. */
  datatype ApiResponse<R> = ApiResponse(data: seq<R>, metadata: PaginationMetadata)

  /** How one page request ends, as the network and the API decide. */
  datatype FetchOutcome<R> =
    | Delivered(body: ApiResponse<R>)
    | HttpFailure(status: nat)
    | Failed(message: string)

  /** The message `setError` receives when a fetch does not deliver. */
  function FailureMessage<R>(outcome: FetchOutcome<R>): string
    requires !outcome.Delivered?
  {
    match outcome
    case HttpFailure(status) => "HTTP error! status: " + Strings.NatToString(status)
    case Failed(message) => message
  }

  /** `${endpoint}?page=${page}&pageSize=${pageSize}` */
  function PageUrl(endpoint: string, page: int, pageSize: int): string {
    endpoint + "?page=" + Strings.IntToString(page) + "&pageSize=" + Strings.IntToString(pageSize)
  }

  /** The component state of one enforcement-action table (`data`, `error`, `loading`, `metadata`). */
  class EnforcementClient<R> {
    const endpoint: string
    var data: seq<R>
    var error: Option<string>
    var loading: bool
    var metadata: PaginationMetadata

    /** The initial state: no rows, no error, loading, page 1 of 1 with 10 rows a page. */
    constructor (endpoint: string)
      ensures this.endpoint == endpoint
      ensures data == [] && error == None && loading
      ensures metadata == PaginationMetadata(0, 1, 10, 1)
    {
      this.endpoint := endpoint;
      data := [];
      error := None;
      loading := true;
      metadata := PaginationMetadata(0, 1, 10, 1);
    }

    /** The synchronous start of `fetchData`: loading on, error cleared. */
    method BeginFetch()
      modifies this
      ensures loading && error == None
      ensures data == old(data) && metadata == old(metadata)
    {
      loading := true;
      error := None;
    }

    /**
     * The end of `fetchData`: a delivered page replaces rows and metadata; any
     * failure records its message and keeps the previous rows and metadata.
     * Loading is off either way.
     */
    method FinishFetch(outcome: FetchOutcome<R>)
      modifies this
      ensures !loading
      ensures outcome.Delivered? ==>
        data == outcome.body.data && metadata == outcome.body.metadata && error == old(error)
      ensures !outcome.Delivered? ==>
        data == old(data) && metadata == old(metadata) && error == Some(FailureMessage(outcome))
    {
      if outcome.Delivered? {
        data := outcome.body.data;
        metadata := outcome.body.metadata;
      } else {
        error := Some(FailureMessage(outcome));
      }
      loading := false;
    }

    /** `fetchData(page)`: requests the page with the current page size and applies the outcome. */
    method FetchData(page: int, outcome: FetchOutcome<R>) returns (url: string)
      modifies this
      ensures url == PageUrl(endpoint, page, old(metadata.pageSize))
      ensures !loading
      ensures outcome.Delivered? ==>
        data == outcome.body.data && metadata == outcome.body.metadata && error == None
      ensures !outcome.Delivered? ==>
        data == old(data) && metadata == old(metadata) && error == Some(FailureMessage(outcome))
    {
      BeginFetch();
      url := PageUrl(endpoint, page, metadata.pageSize);
      FinishFetch(outcome);
    }

    /** `handlePageChange(page)`: a fetch only when `page` is not the current page. */
    method HandlePageChange(page: int, outcome: FetchOutcome<R>) returns (url: Option<string>)
      modifies this
      ensures url.Some? <==> ChangesPage(old(metadata), page)
      ensures url.None? ==>
        data == old(data) && metadata == old(metadata) && error == old(error) && loading == old(loading)
      ensures url.Some? ==> url.value == PageUrl(endpoint, page, old(metadata.pageSize)) && !loading
      ensures url.Some? && outcome.Delivered? ==>
        data == outcome.body.data && metadata == outcome.body.metadata && error == None
      ensures url.Some? && !outcome.Delivered? ==>
        data == old(data) && metadata == old(metadata) && error == Some(FailureMessage(outcome))
    {
      if ChangesPage(metadata, page) {
        var u := FetchData(page, outcome);
        url := Some(u);
      } else {
        url := None;
      }
    }

    /** The Retry button of the error view: fetches the current page again. */
    method Retry(outcome: FetchOutcome<R>) returns (url: string)
      modifies this
      ensures url == PageUrl(endpoint, old(metadata.currentPage), old(metadata.pageSize))
      ensures !loading
      ensures outcome.Delivered? ==>
        data == outcome.body.data && metadata == outcome.body.metadata && error == None
      ensures !outcome.Delivered? ==>
        data == old(data) && metadata == old(metadata) && error == Some(FailureMessage(outcome))
    {
      url := FetchData(metadata.currentPage, outcome);
    }
  }

  /** Mounting the component fetches page 1 with the initial page size of 10. */
  method Mount<R>(endpoint: string, outcome: FetchOutcome<R>) returns (client: EnforcementClient<R>, url: string)
    ensures url == PageUrl(endpoint, 1, 10)
    ensures !client.loading && client.endpoint == endpoint
    ensures outcome.Delivered? ==> client.data == outcome.body.data && client.metadata == outcome.body.metadata
    ensures !outcome.Delivered? ==>
      client.data == [] && client.metadata == PaginationMetadata(0, 1, 10, 1) &&
      client.error == Some(FailureMessage(outcome))
  {
    client := new EnforcementClient(endpoint);
    url := client.FetchData(1, outcome);
  }
}
