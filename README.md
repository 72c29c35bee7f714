# Regulation 365: a Dafny model of its deterministic core

Regulation 365 is a Next.js site about financial regulation. It lists
enforcement actions of the banking agencies page by page, aggregates news
feeds, charts enforcement actions per month, lists federal documents with a
relevance flag, and answers questions about one document with a
retrieval-augmented chat. Most of it is rendering and calls to hosted
services. This project models the logic in between, and proves what that
logic promises:

- the windowed page numbers and the fetch state of the enforcement-action
  lists (`pagination.dfy`, covering the FRB and FDIC lists, whose code is the
  same apart from the endpoint);
- the news component: publisher lookup, merge/filter/sort, ten-per-page
  slicing and the page-button rule (`rss.dfy`), and the server-side feed
  combination of the news page (`news.dfy`);
- the per-month count of enforcement actions behind the bar chart
  (`summary.dfy`);
- the chat error class and its normaliser (`errors.dfy`), and the chat log
  and document-check helpers over in-memory tables (`chat_logs.dfy`,
  datatypes in `chat_types.dfy`);
- the document chat endpoint: lookup, retrieval, prompt, answer
  (`chat_route.dfy`);
- the document list endpoint: projection and relevance update
  (`details_route.dfy`);
- the dashboard chat transcript (`chat_page.dfy`).

Shared pieces: `wrappers.dfy` (Option), `strings.dfy` (substring search,
ASCII lower case, JavaScript `trim`, `join`, `padStart`, number to text),
`js.dfy` (JSON values, thrown values, truthiness, `String(x)`, responses),
`store.dfy` (store rows, the `eq` filter, `.single()`, store faults),
`ordering.dfy` (newest-first order and a stable sort), `seqs.dfy`
(`flatMap`, `filter`).

The hosted services are inputs. A store call is a table held in memory, plus a
`Fault` that says whether the call answers, replies with an error object, or
throws. The embedding service, the vector index, the completion service, the
feed parser, HTTP fetches and the date parser are oracle values passed as
parameters. The chat endpoint returns the trace of requests it makes, so that
its contract can say what it asks of each service and in which order.

The model follows the code as written:

- The chat endpoint does not validate its input, authenticate, check access,
  or log the chat. It goes from body parsing straight to the document lookup.
  `validateDocumentAccess` and `logChat` are modelled as standalone helpers.
- `validateDocumentAccess` ignores its `userId` argument.
- The dashboard chat page sends only `message`. The endpoint then looks up the
  `doc_id` text "undefined", which is what the store client makes of an
  undefined filter value.
- `GET /api/details` reads the column `doc_id`, but `PUT` filters on the
  column `docId`. The model keeps both names as written.

## Model

| member | source | states |
|---|---|---|
| EnforcementPaging.GetPageRange | components/ea/frb.tsx:48-61 | length is min(5, totalPages) (0 when there are no pages); every page is in 1..totalPages; pages are consecutive; the first page is the clamped window start; the current page is included when valid; the window is exactly current-2..current+2 when the current page is at least 2 pages from either end; components/ea/fdic.tsx:55-68 is the same code |
| EnforcementPaging.EnabledButtonFetches | components/ea/frb.tsx:69-113 | First/Previous are disabled on page 1 or while loading, Next/Last on the last page or while loading; an enabled button always asks for a page other than the current one, so it fetches; while loading, every button is disabled; components/ea/fdic.tsx:76-120 has the same guards |
| EnforcementPaging.EnforcementClient.constructor | components/ea/frb.tsx:132-140 | initial state: no data, no error, loading, metadata (0, 1, 10, 1) |
| EnforcementPaging.EnforcementClient.BeginFetch | components/ea/frb.tsx:143-144 | loading is set and the error cleared; data and metadata are kept |
| EnforcementPaging.EnforcementClient.FinishFetch | components/ea/frb.tsx:145-160 | loading ends; on success data and metadata are replaced by the response; on failure the error holds the message ("HTTP error! status: N" for a failing status) and data and metadata are kept |
| EnforcementPaging.EnforcementClient.FetchData | components/ea/frb.tsx:142-161 | requests `endpoint?page=P&pageSize=S` with the current page size, then behaves as BeginFetch followed by FinishFetch; components/ea/fdic.tsx:149-168 is the same fetch |
| EnforcementPaging.EnforcementClient.HandlePageChange | components/ea/frb.tsx:167-172 | a request is made exactly when the page differs from the current page; otherwise the state is unchanged; the same rule is at components/ea/fdic.tsx:174-180 |
| EnforcementPaging.EnforcementClient.Retry | components/ea/frb.tsx:195 | Retry fetches the current page again with the current page size; afterwards loading has ended; a delivered page replaces data and metadata and leaves no error; a failure keeps data and metadata and sets the failure message |
| EnforcementPaging.Mount | components/ea/frb.tsx:163-165 | on mount, page 1 is requested with page size 10; loading has ended afterwards |
| RssFeed.FirstMatch | components/rss.tsx:89-91 | the index of the first entry, in declaration order, whose url occurs in the link ignoring case; none when no entry matches |
| RssFeed.SourceName | components/rss.tsx:88-93 | the first matching entry's name, or "Unknown Source" when no entry matches or the name is empty |
| RssFeed.GetSourceFromLink | components/rss.tsx:40-93 | over the eleven known publishers: the name of the first one whose url occurs in the link ignoring case, else "Unknown Source" |
| RssFeed.TagFeed | components/rss.tsx:194-198 | one entry per item of the feed, in order, tagged with the feed's title and the item's parsed date |
| RssFeed.TagExact | components/rss.tsx:193-199 | the merged list holds exactly the items of the input feeds, each tagged with its own feed's title |
| RssFeed.SortedItemsSpec | components/rss.tsx:192-205 | the sorted list is newest first, is a permutation of the tagged items whose date parses, and holds an entry exactly when it is a tagged input item with a valid date |
| RssFeed.TotalPages | components/rss.tsx:207 | the page count is the ceiling of items/10 |
| RssFeed.JsSlice | components/rss.tsx:210 | `slice` never returns more than the list holds |
| RssFeed.CurrentItemsSpec | components/rss.tsx:208-210 | page p >= 1 shows items [(p-1)*10, (p-1)*10+10) clipped to the list, so at most 10; the "Showing" upper bound is the position of the page's last item |
| RssFeed.ItemOnPage | components/rss.tsx:207-210 | item k is on page k/10+1, which exists, at position k%10, and on no other page |
| RssFeed.PaginationControls | components/rss.tsx:109-186 | nothing for at most one page; otherwise one slot per page given by the visibility rule, Previous disabled exactly on page 1, Next exactly on the last page, and "Showing a-b" with a = start+1 and b = min(end, total) |
| RssFeed.HiddenPagesBehindDots | components/rss.tsx:138-164 | the first page, the last page and the current page are always buttons (the current one active); a hidden page is always separated from the current page by a "..." slot on its side |
| RssFeed.AtMostFiveButtons | components/rss.tsx:139-143 | at most five numbered buttons are shown: first, last and the current page with its neighbours |
| RssFeed.CountButtonsBound | components/rss.tsx:139-143 | among pages 1..k, the buttons are at most the first, the last and the pages within one of the current page |
| RssFeed.FeedPager.constructor | components/rss.tsx:189 | the component starts on page 1 |
| RssFeed.FeedPager.GoToPage | components/rss.tsx:212-215 | `goToPage` sets the page as given |
| RssFeed.FeedPager.ClickPrevious | components/rss.tsx:130-131 | with at least two pages (otherwise no controls are rendered), Previous goes one page back and does nothing on page 1 |
| RssFeed.FeedPager.ClickNext | components/rss.tsx:177-178 | with at least two pages (otherwise no controls are rendered), Next goes one page on and does nothing on the last page |
| RssFeed.FeedPager.ClickPage | components/rss.tsx:144-149 | with at least two pages, only a page shown as a button can be chosen; the page then becomes current |
| RssFeed.Cards | components/rss.tsx:243-260 | one card per shown item, in order, with the item's title and link, and the publisher named from the link |
| RssFeed.Render | components/rss.tsx:217-285 | no feeds gives the "no feeds" view; otherwise the same controls above and below, built from the sorted item count, and card i shows the title and link of item i of the current page, with the publisher named from its link |
| RssFeed.AtMostTenCards | components/rss.tsx:210 | a page from 1 on shows at most ten cards |
| NewsPage.Or | app/news/page.tsx:34-39 | `value \|\| fallback`: a missing or empty string is replaced by the fallback |
| NewsPage.NormalizeItem | app/news/page.tsx:35-40 | a missing title, link, date or snippet becomes "No Title", "#", "Unknown Date" or "No Description"; no field is ever empty |
| NewsPage.NormalizeFeed | app/news/page.tsx:33-41 | a missing feed title becomes "No Title"; every item is normalised, in order |
| NewsPage.Normalized | app/news/page.tsx:30-43 | one normalised feed per feed read, in order |
| NewsPage.Tagged | app/news/page.tsx:46-51 | each item of a feed gets `source` equal to the feed's title |
| NewsPage.CombineSpec | app/news/page.tsx:46-51 | the combined list has as many items as all feeds together, and holds exactly the normalised items tagged with their own feed's title |
| NewsPage.SumOfTagged | app/news/page.tsx:46-51 | the tagged feeds together have as many items as the raw feeds |
| NewsPage.SortInPlace | app/news/page.tsx:54-56 | sorting the array in place leaves it newest first and a permutation of what it held |
| NewsPage.Sink | app/news/page.tsx:54-56 | one insertion step extends the newest-first prefix by one element and keeps the array a permutation |
| NewsPage.SinkStep | app/news/page.tsx:54-56 | swapping a newer element one place forward keeps the insertion invariant and the multiset |
| NewsPage.SinkDone | app/news/page.tsx:54-56 | once the element has stopped, the prefix including it is newest first |
| NewsPage.FetchFeeds | app/news/page.tsx:20-77 | as written: fails when any feed fails; otherwise a single feed "Combined Feed" holding every combined item (same count, same items), newest first; nothing is filtered out |
| NewsPage.FetchFeedsFiltered | app/news/page.tsx:58-68 | as the comments intend: the combined feed holds exactly the items newer than the cut-off whose title is not an account notice |
| NewsPage.StaleItemReachesPage | app/news/page.tsx:58-61 | for any feeds that all load, any item whose date is not after the cut-off is still in the combined feed FetchFeeds returns |
| EnforcementSummary.PadMonth | components/ea/summary.tsx:62 | the month padded with zeros to two characters; a longer month is unchanged |
| EnforcementSummary.YearMonth | components/ea/summary.tsx:62 | the key is the year, a dash, and the padded month |
| EnforcementSummary.PaddedMonthsShareKey | components/ea/summary.tsx:62 | "3" and "03" of the same year give the same key |
| EnforcementSummary.KeysInOrderSpec | components/ea/summary.tsx:60-67 | the keys are distinct, and a key is listed exactly when some record has it |
| EnforcementSummary.CountsOwnKey | components/ea/summary.tsx:60-65 | every record is counted under its own key |
| EnforcementSummary.BumpStep | components/ea/summary.tsx:63 | one step of the reduce keeps the accumulator equal to the counts of the records read so far |
| EnforcementSummary.Aggregate | components/ea/summary.tsx:60-65 | the accumulator holds the distinct keys in first-seen order, and each key's count is the number of records with that key |
| EnforcementSummary.CountsSumToTotal | components/ea/summary.tsx:60-65 | the counts of the distinct keys add up to the number of records |
| EnforcementSummary.OccurrencesDistinct | components/ea/summary.tsx:60-65 | a key occurs once in a distinct key list, or not at all |
| EnforcementSummary.SumCountsStep | components/ea/summary.tsx:60-65 | one more record adds one to the sum for each time its key is listed |
| EnforcementSummary.SumCountsAppend | components/ea/summary.tsx:60-65 | a new key adds its own count to the sum |
| EnforcementSummary.BarChartData | components/ea/summary.tsx:67-70 | one bar per key, in key order, carrying that key's count |
| EnforcementSummary.SumBarsIsSumCounts | components/ea/summary.tsx:67-70 | the bars add up to the sum of the key counts |
| EnforcementSummary.ChartBars | components/ea/summary.tsx:60-70 | the reduce and the map together give one bar per distinct key, in first-seen order, with that key's count, and the bars add up to the number of records |
| EnforcementSummary.BarsCoverRecords | components/ea/summary.tsx:60-70 | every record's key has a bar |
| EnforcementSummary.Render | components/ea/summary.tsx:43-90 | loading first, then a non-empty error, then "No data available." for no records; otherwise one bar per distinct key with its count, every record's key has a bar, and the bars add up to the total shown |
| EnforcementSummary.SummaryClient.constructor | components/ea/summary.tsx:20-22 | no data, no error, loading |
| EnforcementSummary.SummaryClient.Load | components/ea/summary.tsx:24-38 | loading ends; success stores the records; a failing status sets "Failed to fetch data"; a thrown error sets its message |
| ChatErrors.NewChatServiceError | utils/errors.ts:4-12 | keeps message, code and details, sets the name "ChatServiceError", and is an instance of Error |
| ChatErrors.StackDetails | utils/errors.ts:27 | the stack as details, `undefined` when there is none |
| ChatErrors.HandleChatError | utils/errors.ts:15-35 | a chat service error keeps message, code and details; another Error keeps its message, gets its stack as details and no code; any other value gives "An unexpected error occurred" with the value as details; only the first case can carry a code |
| ChatErrors.HandleRoundTrip | utils/errors.ts:4-22 | handling a constructed chat service error gives back its message, code and details unchanged |
| ChatErrors.ErrorMessageKept | utils/errors.ts:16-29 | every Error keeps its own message |
| ChatLogs.FromStore | utils/chat.ts:31-37 | a store error becomes a chat error with the given message and the store's code and details |
| ChatLogs.FromThrown | utils/chat.ts:44-49 | an exception becomes a chat error with the given message, no code, and the exception as details |
| ChatLogs.ChatLogTable.constructor | utils/chat.ts:18-19 | the table starts with the given rows |
| ChatLogs.ChatLogTable.LogChat | utils/chat.ts:5-51 | no error exactly when the insert neither fails nor throws; then exactly one row is appended with the given entry and existing rows are kept; a store error gives "Failed to log chat interaction" with its code and details, an exception "Unexpected error while logging chat"; both leave the table unchanged |
| ChatLogs.Remaining | utils/chat.ts:128-132 | exactly the rows that are not both this id and this user stay, each as often as before |
| ChatLogs.ChatLogTable.DeleteChatLog | utils/chat.ts:124-153 | on success the table becomes the remaining rows; a store error gives "Failed to delete chat log", an exception "Unexpected error while deleting chat log", and both leave the table unchanged |
| ChatLogs.RemainingIdempotent | utils/chat.ts:128-132 | deleting the same entry twice removes nothing more |
| ChatLogs.OtherUsersUntouched | utils/chat.ts:128-132 | another user's rows are untouched, whatever id is given |
| ChatLogs.ValidateDocumentAccess | utils/chat.ts:53-87 | valid exactly when the lookup succeeds and exactly one document row has this `doc_id` (the `.single()` rule); otherwise "Document access validation failed" with the store's code and details, or "Unexpected error during document validation" when the lookup throws |
| ChatLogs.ValidationIgnoresUser | utils/chat.ts:53-64 | the result is the same for every user |
| ChatLogs.History | utils/chat.ts:89-122 | on success, exactly the user's rows, newest first; on a store error or exception, no data and "Failed to fetch chat history" |
| ChatLogs.DocumentChats | utils/chat.ts:155-187 | on success, exactly the user's rows about the document, newest first; on failure, no data and "Failed to fetch document chats" |
| ChatLogs.DocumentChatsWithinHistory | utils/chat.ts:155-164 | a document's chats are exactly the history entries about that document |
| ChatLogs.LoggedChatInHistory | utils/chat.ts:18-22 | a logged entry of a user appears in that user's history |
| ChatLogs.DeletedChatLeavesHistory | utils/chat.ts:128-132 | after a delete, no history entry of the user has the deleted id |
| ChatRoute.SectionText | app/api/chat/route.ts:71 | a match's `metadata.text`, or "" when the metadata or the text is missing or falsy |
| ChatRoute.SectionTexts | app/api/chat/route.ts:71 | one text per match, in ranked order |
| ChatRoute.SectionsInRankOrder | app/api/chat/route.ts:71 | the block is the earlier matches' block, a blank line, then the later matches' block |
| ChatRoute.TopMatchFirst | app/api/chat/route.ts:71 | the best match's text opens the block |
| ChatRoute.SingleSection | app/api/chat/route.ts:71 | a single match contributes exactly its text |
| ChatRoute.SystemPromptContext | app/api/chat/route.ts:62-68 | the prompt opens with the fixed text and the document context, and carries the title, agency, type and date lines |
| ChatRoute.SystemPromptSections | app/api/chat/route.ts:70-78 | the prompt holds the retrieved sections under their heading, followed by the fixed instructions |
| ChatRoute.AnswerBody | app/api/chat/route.ts:105-107 | the body has only `response`, set to the first choice's content, and no key at all when the content is undefined |
| ChatRoute.Answer | app/api/chat/route.ts:28-107 | embeds the message with "text-embedding-3-small", queries namespace "federal-documents" with the first embedding, topK 5, filter filename = documentId and metadata; asks "gpt-4" with the system prompt and then the message at temperature 0.7; answers 200 exactly when all services answer, else 500 |
| ChatRoute.Post | app/api/chat/route.ts:9-115 | an unreadable body gives 500 with no call; the document lookup (`doc_id` = the interpolated `documentId`) comes first; 404 "Document not found" exactly when the lookup reports an error or does not yield exactly one row, and then nothing else is requested; a throwing lookup or any later failing service gives 500 "Failed to process chat request"; 200 exactly when the document is found and every service answers, with the body of the first choice and the embedding, query and completion requests in that order |
| DetailsRoute.RelevantOrFalse | app/api/details/route.ts:77 | `relevant ?? false`: the stored value unless null or absent |
| DetailsRoute.Project | app/api/details/route.ts:60-80 | the listed fields copied unchanged (absent stays absent), `relevant` always present and never null |
| DetailsRoute.ProjectIdempotent | app/api/details/route.ts:60-80 | projecting a projected entry changes nothing |
| DetailsRoute.Get | app/api/details/route.ts:5-98 | a store error gives 500 "Failed to fetch data from Supabase", an exception 500 "Internal server error", null data 404 "No data found"; otherwise 200 with one projected entry per row, in store order |
| DetailsRoute.SetRelevant | app/api/details/route.ts:118-121 | rows whose `docId` matches get the new `relevant`; all other rows are unchanged |
| DetailsRoute.SetRelevantIdempotent | app/api/details/route.ts:118-121 | repeating the update changes nothing more |
| DetailsRoute.UpdateVisibleInList | app/api/details/route.ts:77 | after an update, the list shows the new flag on every updated row |
| DetailsRoute.UpdatedRowsCarryFlag | app/api/details/route.ts:118-122 | the rows the update returns are as many as the matching rows and all carry the new flag |
| DetailsRoute.SameMatches | app/api/details/route.ts:118-122 | the update does not change how many rows match |
| DetailsRoute.WithDocId | app/api/details/route.ts:135-140 | the row's own fields win, and `doc_id` is added from `docId` when the row has none |
| DetailsRoute.FederalDocuments.constructor | app/api/details/route.ts:118-119 | the table starts with the given rows |
| DetailsRoute.FederalDocuments.Put | app/api/details/route.ts:100-157 | an unreadable body gives 500 "Internal server error"; 400 unless `relevant` is a boolean and `doc_id` truthy; a failing update gives 500 "Failed to update relevant status" and a throwing one 500 "Internal server error"; these leave the table unchanged; on success exactly the rows whose `docId` matches get the flag and the answer is the first updated row with `doc_id`, or null when none matched |
| ChatPage.ChatPageState.constructor | app/dashboard/chat/page.tsx:5-8 | empty input, empty transcript |
| ChatPage.ChatPageState.Type | app/dashboard/chat/page.tsx:67 | typing replaces the input and keeps the transcript |
| ChatPage.ChatPageState.SendMessage | app/dashboard/chat/page.tsx:10-34 | blank input sends nothing; the body sent holds only `message`; on an ok reply exactly the user entry and the bot entry are appended and the input cleared; otherwise both are unchanged; the transcript only grows |
| ChatPage.ChatPageState.KeyDown | app/dashboard/chat/page.tsx:68-70 | any key other than Enter changes nothing; Enter sends exactly when the input is not blank, and then an ok reply appends the user/bot pair and clears the input, while any other outcome leaves both as they were |
| ChatPage.SendKeepsPairs | app/dashboard/chat/page.tsx:25-29 | sending keeps the transcript a list of user/bot pairs |
| Strings.Includes | components/rss.tsx:90 | `includes` holds exactly when the text occurs at some position |
| Strings.Lower | components/rss.tsx:90 | `toLowerCase` on ASCII letters, keeping the length |
| Strings.TrimEmptyIffBlank | app/dashboard/chat/page.tsx:11 | `trim()` gives "" exactly for whitespace-only text |
| Strings.PadStart | components/ea/summary.tsx:62 | `padStart`: the text is kept at the end and filled in front up to the width |
| Strings.JoinSplit | app/api/chat/route.ts:71 | a joined list splits at any inner position around one separator |
| Store.Where | utils/chat.ts:63 | the `eq` filter keeps exactly the rows whose column holds the text |
| Store.Single | utils/chat.ts:64 | `.single()` succeeds exactly for one row, and otherwise reports code PGRST116 |
| Ordering.SortNewestFirst | utils/chat.ts:97 | the order by `created_at` descending: a newest-first permutation |
| Seqs.Filter | components/rss.tsx:203 | `filter` keeps exactly the elements that pass, never more than there were |

## Left out

- Rendering, styling, scrolling and the d3 chart layout. Only the values the components compute are modelled.
- The hosted services (the store, the embedding and completion services, the vector index, the feed parser, HTTP) are modelled as inputs. Query behaviour beyond `eq`, `.single()`, insert, update and delete is not modelled. Store ordering by a column is modelled only where the model sorts itself (the chat history). The details list comes back in the order the store gives it.
- Store filters compare column values as text (`MatchesEq`). Columns of other types are not compared the way PostgreSQL would compare them.
- A thrown exception during `logChat`, `deleteChatLog` or the update of `PUT /api/details` leaves the table unchanged in the model. Whether the store wrote anything before the exception is not modelled.
- Date parsing and locale formatting. In the news component, the date parser is a parameter that returns a timestamp or `None`. In the news page, dates are assumed to parse (the `timeOf` parameter), because a comparator that returns NaN gives an unspecified order.
- Ties in date order. Both sorts are modelled by stable algorithms. JavaScript's `sort` is stable too, but the model does not claim the order of equal dates.
- Concurrency and async timing: `Promise.all`, overlapping fetches, and input typed while a chat message is in flight.
- Fractional numbers. JSON numbers are integers. The embedding vectors and the completion temperature are `real`.
- Non-ASCII case folding in `toLowerCase`. All publisher urls are ASCII.
- The regular-expression clean-up of item snippets (components/rss.tsx:264).
- components/ea/cfpb.tsx, app/api/reg-chat/route.ts, the API routes under app/api/ea and the presentation-only components are not part of this model.
- The `console` logging in every handler.
- RssFeed.JsSlice: its contract states only the length bound. The exact page contents are stated by RssFeed.CurrentItemsSpec for pages from 1 on.
- Seqs.Filter: does not state that the kept elements stay in their original order.
- NewsPage.FetchFeedsFiltered: states which items are kept, but not their order.

## Findings

| source | as written | input that shows it | evidently intended | confidence | as-written member | corrected member |
|---|---|---|---|---|---|---|
| app/news/page.tsx:58-68 | the results of the date filter and the title filter are discarded, so `allItems` is returned unfiltered | any item whose date is not after the three-month cut-off, in feeds that all load; it is still in the combined feed | drop items older than three months and the two account-notice titles | not executed | NewsPage.StaleItemReachesPage | NewsPage.FetchFeedsFiltered |
